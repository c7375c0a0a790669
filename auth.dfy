/** The account routes of the server: registration with an e-mail check, a
    single-use verification token that expires after 24 hours, and a login
    that refuses bad credentials and unverified accounts. Password hashing and
    checking (bcrypt) and token signing (JWT) are outside the model: the hash
    is an input of `Register`, the check a function-valued input of `Login`,
    and the access token is modelled by the claims it would sign. */
module Auth {
  import opened ServerModels

  /** `JWT_EXPIRATION_HOURS`. */
  const JwtExpirationHours: int := 24
  /** `timedelta(hours=24)`, the life of a verification token, in seconds. */
  const VerificationLifetime: int := 24 * 3600

  const MsgEmailTaken: string := "Cet email est déjà utilisé"
  const MsgRegistered: string := "Inscription réussie. Vérifiez votre email."
  const MsgInvalidToken: string := "Token de vérification invalide"
  const MsgTokenExpired: string := "Token expiré"
  const MsgVerified: string := "Email vérifié avec succès"
  const MsgBadCredentials: string := "Email ou mot de passe incorrect"
  const MsgUnverified: string := "Veuillez vérifier votre email avant de vous connecter"

  datatype Registration = Registration(prenom: string, nom: string, email: string, adresse: string, motDePasse: string)
  datatype RegisterResponse = RegisterResponse(message: string, userId: UserId, verificationToken: Token)

  /** The payload `create_access_token` signs; `exp` is in seconds. */
  datatype TokenClaims = TokenClaims(userId: UserId, email: string, exp: int)
  datatype UserSummary = UserSummary(id: UserId, prenom: string, nom: string, email: string)
  datatype LoginResponse = LoginResponse(token: TokenClaims, user: UserSummary)

  /** `create_access_token`: a token for the user that expires `JWT_EXPIRATION_HOURS` (24) hours after `now`. */
  function CreateAccessToken(uid: UserId, email: string, now: int): (claims: TokenClaims)
    ensures claims.userId == uid && claims.email == email
    ensures claims.exp == now + JwtExpirationHours * 3600 && claims.exp > now
  {
    TokenClaims(uid, email, now + JwtExpirationHours * 3600)
  }

  /** `users.update_one({"id": uid}, {"$set": {"email_verifie": True}})`. */
  function MarkVerified(users: map<UserId, UserRecord>, uid: UserId): (r: map<UserId, UserRecord>)
    ensures r.Keys == users.Keys
    ensures forall u :: u in r && u != uid ==> r[u] == users[u]
    ensures uid in r ==> r[uid] == users[uid].(emailVerifie := true)
  {
    if uid in users then users[uid := users[uid].(emailVerifie := true)] else users
  }

  class Accounts {
    var users: map<UserId, UserRecord>
    var verifications: map<Token, EmailVerification>

    /** Users sit under their own id, no two users share an e-mail address,
        and tokens sit under their own text. */
    ghost predicate Valid()
      reads this
    {
      && (forall u :: u in users ==> users[u].id == u)
      && (forall a, b :: a in users && b in users && users[a].email == users[b].email ==> a == b)
      && (forall t :: t in verifications ==> verifications[t].token == t)
    }

    constructor ()
      ensures Valid() && users == map[] && verifications == map[]
    {
      users, verifications := map[], map[];
    }

    /** Some stored user has this e-mail address. */
    predicate EmailTaken(email: string)
      reads this
    {
      exists u :: u in users && users[u].email == email
    }

    /** `register`: a taken e-mail address is refused; otherwise an
        unverified user and a token valid for 24 hours are stored. */
    method Register(data: Registration, passwordHash: string, userId: UserId, token: Token, now: int) returns (r: Result<RegisterResponse>)
      requires Valid()
      requires userId !in users && token !in verifications
      modifies this
      ensures Valid()
      ensures old(EmailTaken(data.email)) ==>
        r == Err(BadRequest(MsgEmailTaken)) && users == old(users) && verifications == old(verifications)
      ensures !old(EmailTaken(data.email)) ==>
        && r == Ok(RegisterResponse(MsgRegistered, userId, token))
        && users == old(users)[userId := UserRecord(userId, data.prenom, data.nom, data.email, data.adresse, false, passwordHash, now)]
        && verifications == old(verifications)[token := EmailVerification(userId, token, now + VerificationLifetime)]
    {
      if EmailTaken(data.email) {
        return Err(BadRequest(MsgEmailTaken));
      }
      users := users[userId := UserRecord(userId, data.prenom, data.nom, data.email, data.adresse, false, passwordHash, now)];
      verifications := verifications[token := EmailVerification(userId, token, now + VerificationLifetime)];
      r := Ok(RegisterResponse(MsgRegistered, userId, token));
    }

    /** `verify_email`: an unknown token and an expired token are refused
        (an expired token is kept); a valid token marks its user verified and
        is deleted. */
    method VerifyEmail(token: Token, now: int) returns (r: Result<string>)
      requires Valid()
      modifies this
      ensures Valid()
      ensures token !in old(verifications) ==>
        r == Err(BadRequest(MsgInvalidToken)) && users == old(users) && verifications == old(verifications)
      ensures token in old(verifications) && now > old(verifications)[token].expiresAt ==>
        r == Err(BadRequest(MsgTokenExpired)) && users == old(users) && verifications == old(verifications)
      ensures token in old(verifications) && now <= old(verifications)[token].expiresAt ==>
        && r == Ok(MsgVerified)
        && users == MarkVerified(old(users), old(verifications)[token].userId)
        && verifications == old(verifications) - {token}
      ensures token !in verifications || verifications == old(verifications)
    {
      if token !in verifications {
        return Err(BadRequest(MsgInvalidToken));
      }
      var verification := verifications[token];
      if now > verification.expiresAt {
        return Err(BadRequest(MsgTokenExpired));
      }
      users := MarkVerified(users, verification.userId);
      verifications := verifications - {token};
      r := Ok(MsgVerified);
    }

    /** `login`: 401 when no user has the address or the password does not
        match, 403 when it matches but the address is unverified, and
        otherwise a 24-hour token for that user. */
    method Login(email: string, password: string, checkPassword: (string, string) -> bool, now: int) returns (r: Result<LoginResponse>)
      requires Valid()
      ensures r == Err(Unauthorized(MsgBadCredentials)) <==>
        forall u :: u in users && users[u].email == email ==> !checkPassword(password, users[u].passwordHash)
      ensures r == Err(Forbidden(MsgUnverified)) <==>
        exists u :: u in users && users[u].email == email && checkPassword(password, users[u].passwordHash) && !users[u].emailVerifie
      ensures r.Ok? <==>
        exists u :: u in users && users[u].email == email && checkPassword(password, users[u].passwordHash) && users[u].emailVerifie
      ensures r.Ok? ==>
        exists u :: u in users && users[u].email == email &&
          r.value == LoginResponse(CreateAccessToken(u, email, now), UserSummary(u, users[u].prenom, users[u].nom, email))
    {
      if u :| u in users && users[u].email == email {
        var user := users[u];
        if !checkPassword(password, user.passwordHash) {
          return Err(Unauthorized(MsgBadCredentials));
        }
        if !user.emailVerifie {
          return Err(Forbidden(MsgUnverified));
        }
        r := Ok(LoginResponse(CreateAccessToken(user.id, user.email, now), UserSummary(user.id, user.prenom, user.nom, user.email)));
      } else {
        r := Err(Unauthorized(MsgBadCredentials));
      }
    }
  }
}
