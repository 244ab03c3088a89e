# ServiAutos admin-gated signup and password reset, in Dafny

This project models the authentication core of the ServiAutos back end. It proves properties of that model. It has three parts:

- **Verification-code registry** (`VerificationCodeServiceImpl`), in `verification.dfy` and `code_format.dfy`. It keeps two independent in-memory tables, email → (code, timestamp, staged profile): one for signup and one for password reset. It issues six-digit zero-padded codes, and a new code overwrites any earlier entry for the same email. A code is valid only if it matches exactly and strictly less than 300000 ms have passed since it was issued. Validation is a pure read.
- **Credential store** (`AuthServiceImpl`), in `auth_service.dfy`. It handles account creation with an encoded password, the login check, the existence test and password updates.
- **Workflow** (`AuthController`), in `auth_controller.dfy`. It has five endpoints: `login`, `requestSignup`, `verifySignup`, `forgotPassword` and `resetPassword`. Each returns a status, an error flag and a message.

`scenarios.dfy` chains endpoint calls on freshly wired services. Each outcome there follows from the endpoint contracts alone.

Modelling choices:

- **One shared user store.** `createUser` and `validateLogin` use `AuthRepository`, while `existsByEmail` and `updatePassword` use `UserRepository`. Both are Spring Data repositories over the `users` collection (`User.java:9`), so they are modelled as one table, `AuthService.users: map<string, User>`, keyed by email.
- **Inputs as parameters.** The clock (`System.currentTimeMillis`) is a `now: int` parameter. The random draw (`new Random().nextInt(999999)`) is an `r: nat` with `r < 999999`. The administrator address (`@Value("${admin.email}")`) is a constructor parameter of the registry.
- **Uninterpreted collaborators.** `PasswordEncoder.encode`/`matches` and `JwtService.generateToken` are arrow-typed constants supplied at construction. No relation between `encode` and `matches` is assumed. The one scenario that needs one (logging in with a new password) takes it as a precondition.
- **Calls that may throw.** An e-mail send or a repository save that may throw gets an `Option<string>` parameter: `Some(m)` means the call throws with message `m`. Every endpoint that sends or saves turns such a throw into the 400 response that its `catch` block builds. `login` calls neither, and its 401 carries the store's failure message. A delivered e-mail is appended to the controller's ghost `outbox`.
- **Object invariant.** `AuthController.Valid()` states the per-email state machine:
  - every signup entry stages the profile of the email it is stored under;
  - no email is both pending and registered;
  - reset entries exist only for registered emails.

  Every endpoint preserves it. It proves two things. First, the null/`NullPointerException` path of `getPendingUser` inside `verifySignup` cannot be reached. Second, `verifySignup` never overwrites an existing account.

Behaviours of the code that the model keeps as written:

- `validateLogin` distinguishes "Usuario no encontrado" from "Contraseña incorrecta", and `login` passes that message to the caller. A design that hides which check failed would use one message for both cases.
- `createUser` does not check for an existing email; it simply saves.
- A second `verifySignup` with the same code fails with 400 "Código inválido o expirado", because the entry is removed after the first success.
- `savePendingUser` keeps the original code and timestamp, so restaging does not restart the expiry window.
- Reset codes are never removed, so the same reset code can be used again until it expires.

## Model

| member | source | states |
|---|---|---|
| CodeFormat.ZeroPad | src/main/java/co/edu/uniquindio/serviautosbackend/service/impl/VerificationCodeServiceImpl.java:28 | zero padding to a width always yields exactly that many decimal digits |
| CodeFormat.ZeroPadValue | src/main/java/co/edu/uniquindio/serviautosbackend/service/impl/VerificationCodeServiceImpl.java:28 | a value that fits in the width is read back exactly from its zero-padded digits (inverse of the padding) |
| CodeFormat.FormatCode | src/main/java/co/edu/uniquindio/serviautosbackend/service/impl/VerificationCodeServiceImpl.java:28 | `%06d` of a six-digit value is six decimal digits |
| CodeFormat.FormatCodeRoundTrip | src/main/java/co/edu/uniquindio/serviautosbackend/service/impl/VerificationCodeServiceImpl.java:28 | the formatted code denotes exactly the drawn number |
| CodeFormat.FormatCodeInjective | src/main/java/co/edu/uniquindio/serviautosbackend/service/impl/VerificationCodeServiceImpl.java:28 | distinct draws give distinct codes |
| CodeFormat.IssuedCodeShape | src/main/java/co/edu/uniquindio/serviautosbackend/service/impl/VerificationCodeServiceImpl.java:35 | every code drawn with `nextInt(999999)` is six digits and is never "999999" |
| Verification.Accepts | src/main/java/co/edu/uniquindio/serviautosbackend/service/impl/VerificationCodeServiceImpl.java:52-61 | a table accepts a code iff an entry exists for the email, its code is equal, and `now - timestamp < 300000` |
| Verification.IssuedEntryAccepts | src/main/java/co/edu/uniquindio/serviautosbackend/service/impl/VerificationCodeServiceImpl.java:27-31 | after an entry is stored it is the only code accepted for that email, and only while its own window is open (an overwrite replaces the old code) |
| Verification.IssueKeepsOthers | src/main/java/co/edu/uniquindio/serviautosbackend/service/impl/VerificationCodeServiceImpl.java:29 | storing an entry for one email changes no verdict for any other email |
| Verification.ExpiryBoundary | src/main/java/co/edu/uniquindio/serviautosbackend/service/impl/VerificationCodeServiceImpl.java:21 | the window is half-open: accepted at 299999 ms elapsed, rejected at 300000 ms and at every later instant |
| Verification.AcceptedEarlier | src/main/java/co/edu/uniquindio/serviautosbackend/service/impl/VerificationCodeServiceImpl.java:56-57 | a code accepted at some instant was accepted at every earlier one; an expired code stays expired |
| Verification.OtherCodeRejected | src/main/java/co/edu/uniquindio/serviautosbackend/service/impl/VerificationCodeServiceImpl.java:56 | any code other than the stored one, such as a one-digit mutation, is rejected |
| Verification.RemovedRejects | src/main/java/co/edu/uniquindio/serviautosbackend/service/impl/VerificationCodeServiceImpl.java:63-66 | after removal the email accepts no code, and other emails are unaffected |
| Verification.RestageKeepsVerdicts | src/main/java/co/edu/uniquindio/serviautosbackend/service/impl/VerificationCodeServiceImpl.java:75-81 | restaging a payload keeps the table's keys and changes no verdict, so it does not restart the expiry window |
| Verification.VerificationCodeService.constructor | src/main/java/co/edu/uniquindio/serviautosbackend/service/impl/VerificationCodeServiceImpl.java:19-24 | both tables start empty; the administrator address is the configured one |
| Verification.VerificationCodeService.ValidateCode | src/main/java/co/edu/uniquindio/serviautosbackend/service/impl/VerificationCodeServiceImpl.java:41-44 | signup validation is a read of the signup table only, with the verdict of `Accepts` |
| Verification.VerificationCodeService.ValidatePasswordResetCode | src/main/java/co/edu/uniquindio/serviautosbackend/service/impl/VerificationCodeServiceImpl.java:47-50 | reset validation is a read of the reset table only, with the verdict of `Accepts` |
| Verification.VerificationCodeService.GetPendingUser | src/main/java/co/edu/uniquindio/serviautosbackend/service/impl/VerificationCodeServiceImpl.java:69-72 | returns the staged profile iff a signup entry exists for the email, otherwise null |
| Verification.VerificationCodeService.GenerateCode | src/main/java/co/edu/uniquindio/serviautosbackend/service/impl/VerificationCodeServiceImpl.java:27-31 | returns `%06d` of the draw; sets exactly the signup entry of the email to (code, now, profile); the reset table is unchanged; afterwards the email accepts exactly that code while `t - now < 300000` |
| Verification.VerificationCodeService.GeneratePasswordResetCode | src/main/java/co/edu/uniquindio/serviautosbackend/service/impl/VerificationCodeServiceImpl.java:34-38 | the same for the reset table with a null payload; the signup table is unchanged |
| Verification.VerificationCodeService.RemovePendingUser | src/main/java/co/edu/uniquindio/serviautosbackend/service/impl/VerificationCodeServiceImpl.java:64-66 | deletes only that key from the signup table; afterwards `getPendingUser` is null and no code validates for it |
| Verification.VerificationCodeService.SavePendingUser | src/main/java/co/edu/uniquindio/serviautosbackend/service/impl/VerificationCodeServiceImpl.java:75-81 | replaces only the staged profile of an existing entry and keeps its code and timestamp; a no-op when there is no entry; every verdict is unchanged |
| Credentials.AuthService.ExistsByEmail | src/main/java/co/edu/uniquindio/serviautosbackend/service/impl/AuthServiceImpl.java:55-57 | true iff the store holds a user under the email |
| Credentials.AuthService.ValidateLogin | src/main/java/co/edu/uniquindio/serviautosbackend/service/impl/AuthServiceImpl.java:42-52 | "Usuario no encontrado" when the email is absent; "Contraseña incorrecta" when `matches` rejects; succeeds iff present and matching, returning the stored user; a pure read |
| Credentials.AuthService.CreateUser | src/main/java/co/edu/uniquindio/serviautosbackend/service/impl/AuthServiceImpl.java:27-39 | the returned user copies every profile field and holds `encode(password)` as its password; it is stored under its email as the only change; a throwing save stores nothing |
| Credentials.AuthService.UpdatePassword | src/main/java/co/edu/uniquindio/serviautosbackend/service/impl/AuthServiceImpl.java:60-65 | an absent email fails with "Usuario no encontrado" and saves nothing; otherwise only that user's password becomes `encode(newPassword)` |
| Controller.AuthController.SendEmail | src/main/java/co/edu/uniquindio/serviautosbackend/controller/AuthController.java:68 | a delivered message is appended to the outbox; a throwing send appends nothing and reports its message |
| Controller.AuthController.Login | src/main/java/co/edu/uniquindio/serviautosbackend/controller/AuthController.java:36-46 | 200, no error, "Login successful" with a token for the email iff the credentials match; otherwise 401 with the store's message and no token |
| Controller.AuthController.RequestSignup | src/main/java/co/edu/uniquindio/serviautosbackend/controller/AuthController.java:51-76 | a registered email gets 400 "Email ya registrado" with no code and no mail; otherwise the signup entry becomes (code, now, profile) and one mail carrying the applicant's email and the code goes to the administrator (200 "Solicitud enviada al administrador"); a failed send answers 400 but keeps the entry |
| Controller.AuthController.VerifySignup | src/main/java/co/edu/uniquindio/serviautosbackend/controller/AuthController.java:80-102 | an invalid or expired code gets 400 "Código inválido o expirado" and changes nothing; otherwise the staged profile becomes a new account (never overwriting one), then the entry is removed (201 "Usuario creado exitosamente"), after which no code verifies for the email; a failed save answers 400 and keeps the entry |
| Controller.AuthController.ForgotPassword | src/main/java/co/edu/uniquindio/serviautosbackend/controller/AuthController.java:105-127 | an unknown email gets 400 "Email no encontrado" with no code issued; otherwise a reset code is issued and mailed to that same email (200 "Código enviado al correo"); a failed send answers 400 |
| Controller.AuthController.ResetPassword | src/main/java/co/edu/uniquindio/serviautosbackend/controller/AuthController.java:131-146 | an invalid or expired code gets 400 and the password is kept; otherwise the user's password becomes `encode(newPassword)` (200); the reset entry is never removed |
| Scenarios.SignupThenVerify | src/main/java/co/edu/uniquindio/serviautosbackend/controller/AuthController.java:51-102 | request then verify within the window creates the account; the same code then fails with 400; the account can log in when the encoder accepts the password |
| Scenarios.SignupTwice | src/main/java/co/edu/uniquindio/serviautosbackend/controller/AuthController.java:53-56 | once an account is created, a new signup request for its email is refused with "Email ya registrado" |
| Scenarios.ExpiredThenRerequested | src/main/java/co/edu/uniquindio/serviautosbackend/controller/AuthController.java:84-87 | at exactly 300000 ms the code is rejected and no account exists; a new request issues a code that works |
| Scenarios.FailedSaveIsRetryable | src/main/java/co/edu/uniquindio/serviautosbackend/controller/AuthController.java:89-98 | a save that throws during verification keeps the entry, so the same code succeeds on retry |
| Scenarios.MailFailureLeavesEntry | src/main/java/co/edu/uniquindio/serviautosbackend/controller/AuthController.java:58-74 | a failed admin mail answers 400, yet the issued code stays registered and still verifies |
| Scenarios.ResetTwiceThenLogin | src/main/java/co/edu/uniquindio/serviautosbackend/controller/AuthController.java:105-146 | a reset code works twice (not consumed), is rejected as a signup code, and the new password logs in |
| Scenarios.ResetUnknownEmail | src/main/java/co/edu/uniquindio/serviautosbackend/controller/AuthController.java:105-110 | a reset request for an unknown email fails and leaves no usable reset code |

## Left out

- Concurrency: the `ConcurrentHashMap` tables and request-parallel execution are modelled as a sequential system with plain maps.
- The real clock and random generator are parameters. The uniformity of the draw is not modelled, only its range.
- The 64-bit `long` arithmetic of `now - timestamp` is modelled with unbounded integers; it differs only on an overflow, which real clock readings cannot produce.
- `getAdminEmail` is the constant field `adminEmail`. The `@Value` configuration is a constructor parameter.
- `EmailServiceImpl` (the SendGrid request and its status check) is reduced to "delivers or throws with a message". The unused `sendVerificationCode` is not modelled.
- `JwtService` is not part of this model; its `generateToken` is an uninterpreted function. Neither are `PasswordEncoder` internals (BCrypt salting): `encode` and `matches` are uninterpreted and unrelated.
- Java `null` for strings and DTO fields is not modelled. The staged profile of a signup entry is never null, because the controller always passes the request body.
- `validateAndRemove`'s unused `codes` and `email` parameters are dropped.
- The Mongo `id` of `User` is not modelled. `User.java` as given lacks the fields the service sets; the model uses the fields `createUser` sets.
- Two Mongo documents with the same email cannot be represented, because the table is keyed by email. The controller invariant shows the workflow never tries to create a second one.
- The Java declarations of `AuthRepository`, `LoginDTO`, `EmailDTO`, `ResponseDTO` and `AuthResponseDTO` are not part of this model. `AuthRepository` is half of the shared `AuthService.users` table. The `Email`, `Response` and `Payload` (`Token`) datatypes take their shapes from their uses at `AuthController.java:40-44`, `AuthController.java:62-67` and `AuthController.java:114-118`. `LoginDTO` becomes the two parameters `email` and `password` of `Login`.
- Repository reads (`existsByEmail`, `findByEmail`) are map lookups that never throw. So the 400 answers that `requestSignup`, `forgotPassword` and `resetPassword` give for a throwing read are not modelled. `generateToken` is total, so the 401 that `login` gives for a throwing token generation is not modelled either.
- Jakarta bean validation of `@Valid` request bodies, Spring wiring and the HTTP transport are not modelled. A `ResponseEntity` is the `Response` datatype.
- Client, vehicle and service-order services, controllers and models are plain field-copying CRUD (with `Double` amounts) and are outside this core.
