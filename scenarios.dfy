/** Sequences of endpoint calls on freshly wired services; each outcome follows
    from the endpoint contracts alone. */
module Scenarios {
  import opened Common
  import opened Dto
  import opened CodeFormat
  import opened Verification
  import opened Credentials
  import opened Controller

  /** Wires a controller over a store holding `users` and an empty registry. */
  method Wire(users: UserTable, admin: string, encode: string -> string, matches: (string, string) -> bool,
              generateToken: string -> string) returns (c: AuthController)
    requires KeyedByEmail(users)
    ensures fresh(c) && fresh(c.authService) && fresh(c.verificationService)
    ensures c.Valid()
    ensures c.authService.users == users && c.authService.encode == encode && c.authService.matches == matches
    ensures c.verificationService.registrationCodes == map[] && c.verificationService.passwordResetCodes == map[]
    ensures c.verificationService.adminEmail == admin && c.generateToken == generateToken
  {
    var store := new AuthService(users, encode, matches);
    var registry := new VerificationCodeService(admin);
    c := new AuthController(store, registry, generateToken);
  }

  /** An unregistered applicant asks to sign up; the administrator's code, entered
      within the window, creates the account; the same code then fails, and the
      new account can log in. */
  method SignupThenVerify(users: UserTable, dto: UserCreation, r: nat, requestedAt: int, verifiedAt: int,
                          admin: string, encode: string -> string, matches: (string, string) -> bool,
                          generateToken: string -> string)
    returns (requested: Response, verified: Response, again: Response, login: Response)
    requires KeyedByEmail(users) && dto.email !in users
    requires r < CODE_BOUND
    requires verifiedAt - requestedAt < EXPIRATION_TIME
    ensures requested == Response(OK, false, SIGNUP_SENT, NoData)
    ensures verified == Response(CREATED, false, USER_CREATED, Created(NewUser(dto, encode)))
    ensures again == Failure(BAD_REQUEST, INVALID_CODE)
    ensures matches(dto.password, encode(dto.password)) ==>
      login == Response(OK, false, LOGIN_SUCCESSFUL, Token(generateToken(dto.email), LOGIN_SUCCESSFUL))
    ensures !matches(dto.password, encode(dto.password)) ==> login == Failure(UNAUTHORIZED, WRONG_PASSWORD)
  {
    var c := Wire(users, admin, encode, matches, generateToken);
    requested := c.RequestSignup(dto, r, requestedAt, None);
    verified := c.VerifySignup(dto.email, FormatCode(r), verifiedAt, None);
    again := c.VerifySignup(dto.email, FormatCode(r), verifiedAt, None);
    login := c.Login(dto.email, dto.password);
  }

  /** A second signup request for an email that already has an account is refused. */
  method SignupTwice(users: UserTable, dto: UserCreation, r1: nat, r2: nat, now: int,
                     admin: string, encode: string -> string, matches: (string, string) -> bool,
                     generateToken: string -> string)
    returns (verified: Response, second: Response)
    requires KeyedByEmail(users) && dto.email !in users
    requires r1 < CODE_BOUND && r2 < CODE_BOUND
    ensures verified.status == CREATED
    ensures second == Failure(BAD_REQUEST, EMAIL_TAKEN)
  {
    var c := Wire(users, admin, encode, matches, generateToken);
    var requested := c.RequestSignup(dto, r1, now, None);
    verified := c.VerifySignup(dto.email, FormatCode(r1), now, None);
    second := c.RequestSignup(dto, r2, now, None);
  }

  /** At exactly five minutes after the request the code has expired and no account
      is created; a new request issues a new code that works. */
  method ExpiredThenRerequested(users: UserTable, dto: UserCreation, r1: nat, r2: nat, requestedAt: int,
                                admin: string, encode: string -> string, matches: (string, string) -> bool,
                                generateToken: string -> string)
    returns (expired: Response, login: Response, verified: Response)
    requires KeyedByEmail(users) && dto.email !in users
    requires r1 < CODE_BOUND && r2 < CODE_BOUND
    ensures expired == Failure(BAD_REQUEST, INVALID_CODE)
    ensures login == Failure(UNAUTHORIZED, USER_NOT_FOUND)
    ensures verified.status == CREATED
  {
    var c := Wire(users, admin, encode, matches, generateToken);
    var requested := c.RequestSignup(dto, r1, requestedAt, None);
    expired := c.VerifySignup(dto.email, FormatCode(r1), requestedAt + EXPIRATION_TIME, None);
    login := c.Login(dto.email, dto.password);
    var rerequested := c.RequestSignup(dto, r2, requestedAt + EXPIRATION_TIME, None);
    verified := c.VerifySignup(dto.email, FormatCode(r2), requestedAt + EXPIRATION_TIME, None);
  }

  /** A save that throws during verification keeps the staged entry, so the same
      code succeeds on retry. */
  method FailedSaveIsRetryable(users: UserTable, dto: UserCreation, r: nat, now: int, fault: string,
                               admin: string, encode: string -> string, matches: (string, string) -> bool,
                               generateToken: string -> string)
    returns (failed: Response, retried: Response)
    requires KeyedByEmail(users) && dto.email !in users
    requires r < CODE_BOUND
    ensures failed == Failure(BAD_REQUEST, fault)
    ensures retried == Response(CREATED, false, USER_CREATED, Created(NewUser(dto, encode)))
  {
    var c := Wire(users, admin, encode, matches, generateToken);
    var requested := c.RequestSignup(dto, r, now, None);
    failed := c.VerifySignup(dto.email, FormatCode(r), now, Some(fault));
    retried := c.VerifySignup(dto.email, FormatCode(r), now, None);
  }

  /** When the administrator's mail cannot be sent the applicant gets 400, yet the
      code that was issued stays registered and still verifies. */
  method MailFailureLeavesEntry(users: UserTable, dto: UserCreation, r: nat, now: int, fault: string,
                                admin: string, encode: string -> string, matches: (string, string) -> bool,
                                generateToken: string -> string)
    returns (requested: Response, verified: Response)
    requires KeyedByEmail(users) && dto.email !in users
    requires r < CODE_BOUND
    ensures requested == Failure(BAD_REQUEST, fault)
    ensures verified.status == CREATED
  {
    var c := Wire(users, admin, encode, matches, generateToken);
    requested := c.RequestSignup(dto, r, now, Some(fault));
    verified := c.VerifySignup(dto.email, FormatCode(r), now, None);
  }

  /** A registered user asks for a reset code, uses it twice (it is not consumed),
      and logs in with the new password; the reset code is no signup code. */
  method ResetTwiceThenLogin(users: UserTable, email: string, r: nat, now: int, newPassword: string,
                             admin: string, encode: string -> string, matches: (string, string) -> bool,
                             generateToken: string -> string)
    returns (asked: Response, first: Response, second: Response, crossed: Response, login: Response)
    requires KeyedByEmail(users) && email in users
    requires r < CODE_BOUND
    requires matches(newPassword, encode(newPassword))
    ensures asked == Response(OK, false, RESET_SENT, NoData)
    ensures first == Response(OK, false, PASSWORD_UPDATED, NoData)
    ensures second == first
    ensures crossed == Failure(BAD_REQUEST, INVALID_CODE)
    ensures login == Response(OK, false, LOGIN_SUCCESSFUL, Token(generateToken(email), LOGIN_SUCCESSFUL))
  {
    var c := Wire(users, admin, encode, matches, generateToken);
    asked := c.ForgotPassword(email, r, now, None);
    first := c.ResetPassword(PasswordReset(email, FormatCode(r), newPassword), now, None);
    second := c.ResetPassword(PasswordReset(email, FormatCode(r), newPassword), now, None);
    crossed := c.VerifySignup(email, FormatCode(r), now, None);
    login := c.Login(email, newPassword);
  }

  /** A reset request for an unknown email fails and leaves no reset code behind. */
  method ResetUnknownEmail(users: UserTable, email: string, r: nat, now: int, code: string, newPassword: string,
                           admin: string, encode: string -> string, matches: (string, string) -> bool,
                           generateToken: string -> string)
    returns (asked: Response, reset: Response)
    requires KeyedByEmail(users) && email !in users
    requires r < CODE_BOUND
    ensures asked == Failure(BAD_REQUEST, EMAIL_NOT_FOUND)
    ensures reset == Failure(BAD_REQUEST, INVALID_CODE)
  {
    var c := Wire(users, admin, encode, matches, generateToken);
    asked := c.ForgotPassword(email, r, now, None);
    reset := c.ResetPassword(PasswordReset(email, code, newPassword), now, None);
  }
}
