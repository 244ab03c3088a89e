/** `AuthServiceImpl`: account creation, the login check and password updates over
    the `users` collection. `AuthRepository` and `UserRepository` are two Spring Data
    repositories over the same `users` document collection, so both are modelled as
    one table keyed by email. */
module Credentials {
  import opened Common
  import opened Dto

  const USER_NOT_FOUND := "Usuario no encontrado"
  const WRONG_PASSWORD := "Contraseña incorrecta"

  /** The `users` collection, keyed by email. */
  type UserTable = map<string, User>

  /** Each stored user sits under its own email. */
  ghost predicate KeyedByEmail(users: UserTable) {
    forall e | e in users :: users[e].email == e
  }

  /** The user `createUser` builds from a signup profile: every profile field
      copied, the password replaced by its encoding. */
  function NewUser(dto: UserCreation, encode: string -> string): User {
    User(dto.name, dto.lastName, dto.phone, dto.address, dto.email, encode(dto.password), dto.registerDate)
  }

  class AuthService {
    var users: UserTable
    /** `PasswordEncoder.encode` and `PasswordEncoder.matches`, left uninterpreted. */
    const encode: string -> string
    const matches: (string, string) -> bool

    ghost predicate Valid()
      reads this
    {
      KeyedByEmail(users)
    }

    constructor (users: UserTable, encode: string -> string, matches: (string, string) -> bool)
      requires KeyedByEmail(users)
      ensures Valid()
      ensures this.users == users && this.encode == encode && this.matches == matches
    {
      this.users := users;
      this.encode := encode;
      this.matches := matches;
    }

    /** `findByEmail`. */
    function FindByEmail(email: string): Option<User>
      reads this
    {
      if email in users then Some(users[email]) else None
    }

    /** `existsByEmail`. */
    function ExistsByEmail(email: string): (b: bool)
      reads this
      ensures b <==> email in users
    {
      FindByEmail(email).Some?
    }

    /** `validateLogin`: fails when no user has the email (without consulting the
        encoder), fails when the encoder rejects the password, and otherwise
        returns the stored user. It changes nothing. */
    function ValidateLogin(email: string, password: string): (r: Result<User>)
      reads this
      ensures email !in users ==> r == Err(USER_NOT_FOUND)
      ensures email in users && !matches(password, users[email].password) ==> r == Err(WRONG_PASSWORD)
      ensures r.Ok? <==> email in users && matches(password, users[email].password)
      ensures r.Ok? ==> r.value == users[email]
    {
      match FindByEmail(email)
      case None => Err(USER_NOT_FOUND)
      case Some(u) => if !matches(password, u.password) then Err(WRONG_PASSWORD) else Ok(u)
    }

    /** `createUser`: builds the user from the profile and saves it. `saveFailure`
        is the outcome of the repository's `save`: `Some(m)` when it throws with
        message `m`, in which case nothing is stored. */
    method CreateUser(dto: UserCreation, saveFailure: Option<string>) returns (result: Result<User>)
      requires Valid()
      modifies this
      ensures Valid()
      ensures saveFailure.Some? ==> result == Err(saveFailure.value) && users == old(users)
      ensures saveFailure.None? ==>
        && result.Ok?
        && result.value.name == dto.name
        && result.value.lastName == dto.lastName
        && result.value.phone == dto.phone
        && result.value.address == dto.address
        && result.value.email == dto.email
        && result.value.password == encode(dto.password)
        && result.value.registerDate == dto.registerDate
        && result.value == NewUser(dto, encode)
        && users == old(users)[dto.email := result.value]
    {
      var newUser := NewUser(dto, encode);
      if saveFailure.Some? {
        return Err(saveFailure.value);
      }
      users := users[dto.email := newUser];
      result := Ok(newUser);
    }

    /** `updatePassword`: fails with "Usuario no encontrado" when no user has the
        email; otherwise re-saves that user with the encoding of the new password. */
    method UpdatePassword(email: string, newPassword: string, saveFailure: Option<string>) returns (result: Outcome)
      requires Valid()
      modifies this
      ensures Valid()
      ensures email !in old(users) ==> result == Fail(USER_NOT_FOUND) && users == old(users)
      ensures email in old(users) && saveFailure.Some? ==> result == Fail(saveFailure.value) && users == old(users)
      ensures email in old(users) && saveFailure.None? ==>
        && result == Pass
        && users == old(users)[email := old(users)[email].(password := encode(newPassword))]
    {
      match FindByEmail(email)
      case None =>
        result := Fail(USER_NOT_FOUND);
      case Some(user) =>
        var updated := user.(password := encode(newPassword));
        if saveFailure.Some? {
          return Fail(saveFailure.value);
        }
        users := users[email := updated];
        result := Pass;
    }
  }
}
