/** The records exchanged by the authentication services. */
module Dto {

  /** A `java.time.LocalDateTime`; it is only copied, never inspected. */
  type DateTime = int

  /** `UserCreationDTO`: the applicant's profile as submitted to signup. */
  datatype UserCreation = UserCreation(
    name: string,
    lastName: string,
    phone: string,
    address: string,
    email: string,
    password: string,
    registerDate: DateTime)

  /** A persisted user of the `users` collection, with the fields that
      `AuthServiceImpl.createUser` sets; `password` holds the encoded password. */
  datatype User = User(
    name: string,
    lastName: string,
    phone: string,
    address: string,
    email: string,
    password: string,
    registerDate: DateTime)

  /** `PasswordResetDTO`: the body of a reset-password request. */
  datatype PasswordReset = PasswordReset(email: string, code: string, newPassword: string)

  /** `EmailDTO`: one message handed to the mail gateway. */
  datatype Email = Email(to: string, subject: string, body: string)
}
