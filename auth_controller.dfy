/** `AuthController`: the five authentication endpoints, each a sequence of calls to
    the credential store, the code registry and the mail gateway, answered with an
    HTTP status, an error flag and a message. */
module Controller {
  import opened Common
  import opened Dto
  import opened CodeFormat
  import opened Verification
  import opened Credentials

  const OK := 200
  const CREATED := 201
  const BAD_REQUEST := 400
  const UNAUTHORIZED := 401

  const LOGIN_SUCCESSFUL := "Login successful"
  const EMAIL_TAKEN := "Email ya registrado"
  const SIGNUP_SENT := "Solicitud enviada al administrador"
  const SIGNUP_SUBJECT := "Verificación nuevo usuario - ServiAutos"
  const INVALID_CODE := "Código inválido o expirado"
  const USER_CREATED := "Usuario creado exitosamente"
  const EMAIL_NOT_FOUND := "Email no encontrado"
  const RESET_SUBJECT := "Recuperación de contraseña - ServiAutos"
  const RESET_SENT := "Código enviado al correo"
  const PASSWORD_UPDATED := "Contraseña actualizada exitosamente"

  /** The `data` part of a `ResponseDTO`. */
  datatype Payload = NoData | Token(token: string, message: string) | Created(user: User)

  /** A `ResponseEntity<ResponseDTO>`: status code, error flag, message and data. */
  datatype Response = Response(status: int, error: bool, message: string, data: Payload)

  /** An error response without data. */
  function Failure(status: int, message: string): Response {
    Response(status, true, message, NoData)
  }

  /** The message that asks the administrator to approve a signup. */
  function SignupMail(admin: string, applicant: string, code: string): Email {
    Email(admin, SIGNUP_SUBJECT, "Código de verificación para nuevo usuario (" + applicant + "): " + code)
  }

  /** The message that carries a password-reset code to the account's own address. */
  function ResetMail(to: string, code: string): Email {
    Email(to, RESET_SUBJECT, "Tu código de recuperación es: " + code)
  }

  /** Every registration entry stages the profile of the email it is stored under. */
  ghost predicate StagedUnderOwnEmail(codes: CodeTable) {
    forall e | e in codes :: codes[e].pendingUser.Some? && codes[e].pendingUser.value.email == e
  }

  class AuthController {
    const authService: AuthService
    const verificationService: VerificationCodeService
    /** `JwtService.generateToken`, left uninterpreted. */
    const generateToken: string -> string
    /** Every message the mail gateway accepted, in order. */
    ghost var outbox: seq<Email>

    /** The per-email state machine: an email is either pending (a registration
        entry staging its own profile) or registered, never both; reset codes exist
        only for registered emails. */
    ghost predicate Valid()
      reads this, authService, verificationService
    {
      && authService.Valid()
      && verificationService.Valid()
      && StagedUnderOwnEmail(verificationService.registrationCodes)
      && verificationService.registrationCodes.Keys !! authService.users.Keys
      && verificationService.passwordResetCodes.Keys <= authService.users.Keys
    }

    constructor (authService: AuthService, verificationService: VerificationCodeService, generateToken: string -> string)
      requires authService.Valid() && verificationService.Valid()
      requires StagedUnderOwnEmail(verificationService.registrationCodes)
      requires verificationService.registrationCodes.Keys !! authService.users.Keys
      requires verificationService.passwordResetCodes.Keys <= authService.users.Keys
      ensures Valid()
      ensures this.authService == authService && this.verificationService == verificationService
      ensures this.generateToken == generateToken && outbox == []
    {
      this.authService := authService;
      this.verificationService := verificationService;
      this.generateToken := generateToken;
      outbox := [];
    }

    /** `EmailService.sendEmail`: `failure` is `Some(m)` when the gateway throws
        with message `m`; only a delivered message joins the outbox. */
    method SendEmail(mail: Email, failure: Option<string>) returns (sent: Outcome)
      modifies this
      ensures failure.None? ==> sent == Pass && outbox == old(outbox) + [mail]
      ensures failure.Some? ==> sent == Fail(failure.value) && outbox == old(outbox)
    {
      if failure.Some? {
        return Fail(failure.value);
      }
      outbox := outbox + [mail];
      sent := Pass;
    }

    /** `login`: 200 with a token for the email when the credentials check out;
        otherwise 401 carrying the store's message, and no token. */
    method Login(email: string, password: string) returns (resp: Response)
      requires Valid()
      ensures email !in authService.users ==> resp == Failure(UNAUTHORIZED, USER_NOT_FOUND)
      ensures email in authService.users && !authService.matches(password, authService.users[email].password) ==>
        resp == Failure(UNAUTHORIZED, WRONG_PASSWORD)
      ensures email in authService.users && authService.matches(password, authService.users[email].password) ==>
        resp == Response(OK, false, LOGIN_SUCCESSFUL, Token(generateToken(email), LOGIN_SUCCESSFUL))
    {
      var user := authService.ValidateLogin(email, password);
      match user
      case Err(m) =>
        resp := Failure(UNAUTHORIZED, m);
      case Ok(u) =>
        var token := generateToken(u.email);
        resp := Response(OK, false, LOGIN_SUCCESSFUL, Token(token, LOGIN_SUCCESSFUL));
    }

    /** `requestSignup`: a registered email is refused with nothing issued or sent.
        Otherwise a registration code is issued for the email with the profile
        staged, and the administrator is sent the applicant's email and the code;
        a failed send answers 400 but leaves the entry in place. */
    method RequestSignup(dto: UserCreation, r: nat, now: int, mailFailure: Option<string>) returns (resp: Response)
      requires Valid()
      requires r < CODE_BOUND
      modifies this, verificationService
      ensures Valid()
      ensures dto.email in authService.users ==>
        && resp == Failure(BAD_REQUEST, EMAIL_TAKEN)
        && verificationService.registrationCodes == old(verificationService.registrationCodes)
        && outbox == old(outbox)
      ensures dto.email !in authService.users ==>
        && verificationService.registrationCodes
             == old(verificationService.registrationCodes)[dto.email := CodeData(FormatCode(r), now, Some(dto))]
        && (mailFailure.None? ==>
              && resp == Response(OK, false, SIGNUP_SENT, NoData)
              && outbox == old(outbox) + [SignupMail(verificationService.adminEmail, dto.email, FormatCode(r))])
        && (mailFailure.Some? ==> resp == Failure(BAD_REQUEST, mailFailure.value) && outbox == old(outbox))
      ensures verificationService.passwordResetCodes == old(verificationService.passwordResetCodes)
    {
      if authService.ExistsByEmail(dto.email) {
        return Failure(BAD_REQUEST, EMAIL_TAKEN);
      }
      var code := verificationService.GenerateCode(dto.email, dto, r, now);
      verificationService.SavePendingUser(dto.email, dto);
      var mail := SignupMail(verificationService.adminEmail, dto.email, code);
      var sent := SendEmail(mail, mailFailure);
      match sent
      case Fail(m) =>
        resp := Failure(BAD_REQUEST, m);
      case Pass =>
        resp := Response(OK, false, SIGNUP_SENT, NoData);
    }

    /** `verifySignup`: a code that fails validation is refused without touching
        anything. Otherwise the staged profile becomes a new user and only then is
        the registration entry removed, so a failed save keeps it for a retry and a
        successful one makes every later verification of the email fail. */
    method VerifySignup(email: string, code: string, now: int, saveFailure: Option<string>) returns (resp: Response)
      requires Valid()
      modifies verificationService, authService
      ensures Valid()
      ensures !old(verificationService.ValidateCode(email, code, now)) ==>
        && resp == Failure(BAD_REQUEST, INVALID_CODE)
        && verificationService.registrationCodes == old(verificationService.registrationCodes)
        && authService.users == old(authService.users)
      ensures old(verificationService.ValidateCode(email, code, now)) && saveFailure.Some? ==>
        && resp == Failure(BAD_REQUEST, saveFailure.value)
        && verificationService.registrationCodes == old(verificationService.registrationCodes)
        && authService.users == old(authService.users)
      ensures old(verificationService.ValidateCode(email, code, now)) && saveFailure.None? ==>
        var user := NewUser(old(verificationService.registrationCodes[email].pendingUser.value), authService.encode);
        && user.email == email
        && email !in old(authService.users)
        && authService.users == old(authService.users)[email := user]
        && verificationService.registrationCodes == old(verificationService.registrationCodes) - {email}
        && resp == Response(CREATED, false, USER_CREATED, Created(user))
        && (forall c, t :: !verificationService.ValidateCode(email, c, t))
      ensures verificationService.passwordResetCodes == old(verificationService.passwordResetCodes)
    {
      if !verificationService.ValidateCode(email, code, now) {
        return Failure(BAD_REQUEST, INVALID_CODE);
      }
      var pendingUser := verificationService.GetPendingUser(email);
      var created := authService.CreateUser(pendingUser.value, saveFailure);
      match created
      case Err(m) =>
        resp := Failure(BAD_REQUEST, m);
      case Ok(u) =>
        verificationService.RemovePendingUser(email);
        resp := Response(CREATED, false, USER_CREATED, Created(u));
    }

    /** `forgotPassword`: an unknown email is refused with no code issued. Otherwise
        a reset code is issued and sent to that same email. */
    method ForgotPassword(email: string, r: nat, now: int, mailFailure: Option<string>) returns (resp: Response)
      requires Valid()
      requires r < CODE_BOUND
      modifies this, verificationService
      ensures Valid()
      ensures email !in authService.users ==>
        && resp == Failure(BAD_REQUEST, EMAIL_NOT_FOUND)
        && verificationService.passwordResetCodes == old(verificationService.passwordResetCodes)
        && outbox == old(outbox)
      ensures email in authService.users ==>
        && verificationService.passwordResetCodes
             == old(verificationService.passwordResetCodes)[email := CodeData(FormatCode(r), now, None)]
        && (mailFailure.None? ==>
              && resp == Response(OK, false, RESET_SENT, NoData)
              && outbox == old(outbox) + [ResetMail(email, FormatCode(r))])
        && (mailFailure.Some? ==> resp == Failure(BAD_REQUEST, mailFailure.value) && outbox == old(outbox))
      ensures verificationService.registrationCodes == old(verificationService.registrationCodes)
    {
      if !authService.ExistsByEmail(email) {
        return Failure(BAD_REQUEST, EMAIL_NOT_FOUND);
      }
      var code := verificationService.GeneratePasswordResetCode(email, r, now);
      var mail := ResetMail(email, code);
      var sent := SendEmail(mail, mailFailure);
      match sent
      case Fail(m) =>
        resp := Failure(BAD_REQUEST, m);
      case Pass =>
        resp := Response(OK, false, RESET_SENT, NoData);
    }

    /** `resetPassword`: a code that fails validation is refused and the password
        kept. Otherwise the user's password is re-encoded. The reset entry is never
        removed, so the code stays usable until it expires. */
    method ResetPassword(dto: PasswordReset, now: int, saveFailure: Option<string>) returns (resp: Response)
      requires Valid()
      modifies authService
      ensures Valid()
      ensures !verificationService.ValidatePasswordResetCode(dto.email, dto.code, now) ==>
        resp == Failure(BAD_REQUEST, INVALID_CODE) && authService.users == old(authService.users)
      ensures verificationService.ValidatePasswordResetCode(dto.email, dto.code, now) && saveFailure.Some? ==>
        resp == Failure(BAD_REQUEST, saveFailure.value) && authService.users == old(authService.users)
      ensures verificationService.ValidatePasswordResetCode(dto.email, dto.code, now) && saveFailure.None? ==>
        && dto.email in old(authService.users)
        && authService.users
             == old(authService.users)[dto.email := old(authService.users)[dto.email].(password := authService.encode(dto.newPassword))]
        && resp == Response(OK, false, PASSWORD_UPDATED, NoData)
      ensures forall c, t :: verificationService.ValidatePasswordResetCode(dto.email, c, t)
                               == old(verificationService.ValidatePasswordResetCode(dto.email, c, t))
    {
      if !verificationService.ValidatePasswordResetCode(dto.email, dto.code, now) {
        return Failure(BAD_REQUEST, INVALID_CODE);
      }
      var updated := authService.UpdatePassword(dto.email, dto.newPassword, saveFailure);
      match updated
      case Fail(m) =>
        resp := Failure(BAD_REQUEST, m);
      case Pass =>
        resp := Response(OK, false, PASSWORD_UPDATED, NoData);
    }
  }
}
