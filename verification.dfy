/** `VerificationCodeServiceImpl`: two in-memory tables of issued codes, one for
    registration and one for password reset, and the expiry rule that validates them. */
module Verification {
  import opened Common
  import opened Dto
  import opened CodeFormat

  /** Validity window of a code: five minutes, in milliseconds. */
  const EXPIRATION_TIME: int := 300000

  /** `VerificationCodeDataDTO`: the issued code, the clock reading when it was
      issued, and the staged signup profile (null for password-reset entries). */
  datatype CodeData = CodeData(code: string, timestamp: int, pendingUser: Option<UserCreation>)

  /** One table of issued codes, keyed by email. */
  type CodeTable = map<string, CodeData>

  /** `Map.get`: the entry stored for `email`, or null. */
  function Lookup(codes: CodeTable, email: string): (d: Option<CodeData>)
    ensures d.Some? <==> email in codes
    ensures d.Some? ==> d.value == codes[email]
  {
    if email in codes then Some(codes[email]) else None
  }

  /** `validateAndRemove`: checks an entry the caller has looked up. Despite its
      name it removes nothing; removal is left to the caller. */
  function ValidateAndRemove(data: Option<CodeData>, code: string, now: int): bool {
    match data
    case None => false
    case Some(d) => d.code == code && now - d.timestamp < EXPIRATION_TIME
  }

  /** A table accepts a code for an email at time `now` exactly when an entry
      exists, its code is the given one, and strictly less than the window has
      elapsed since it was issued. */
  function Accepts(codes: CodeTable, email: string, code: string, now: int): (ok: bool)
    ensures ok <==> && email in codes
                    && codes[email].code == code
                    && now - codes[email].timestamp < EXPIRATION_TIME
  {
    ValidateAndRemove(Lookup(codes, email), code, now)
  }

  /** The effect of `savePendingUser` on the registration table: the payload of an
      existing entry is replaced and its code and timestamp are kept; an absent
      email is left absent. */
  function Restaged(codes: CodeTable, email: string, pendingUser: UserCreation): CodeTable {
    match Lookup(codes, email)
    case None => codes
    case Some(d) => codes[email := CodeData(d.code, d.timestamp, Some(pendingUser))]
  }

  /** After an entry is stored, the table accepts exactly its code, and only while
      its window is open. */
  lemma IssuedEntryAccepts(codes: CodeTable, email: string, d: CodeData, code: string, now: int)
    ensures Accepts(codes[email := d], email, code, now)
        <==> code == d.code && now - d.timestamp < EXPIRATION_TIME
  {
  }

  /** Storing an entry for one email does not change what the table accepts for any other. */
  lemma IssueKeepsOthers(codes: CodeTable, email: string, d: CodeData, other: string, code: string, now: int)
    requires other != email
    ensures Accepts(codes[email := d], other, code, now) == Accepts(codes, other, code, now)
  {
  }

  /** The window is half-open: a code is accepted one millisecond before the
      window closes, and rejected from the moment it closes onwards. */
  lemma ExpiryBoundary(codes: CodeTable, email: string, now: int)
    requires email in codes
    ensures Accepts(codes, email, codes[email].code, codes[email].timestamp + EXPIRATION_TIME - 1)
    ensures now >= codes[email].timestamp + EXPIRATION_TIME ==> !Accepts(codes, email, codes[email].code, now)
  {
  }

  /** Once a code is rejected because time went by, it stays rejected; an accepted
      code was accepted at every earlier instant. */
  lemma AcceptedEarlier(codes: CodeTable, email: string, code: string, earlier: int, later: int)
    requires earlier <= later
    requires Accepts(codes, email, code, later)
    ensures Accepts(codes, email, code, earlier)
  {
  }

  /** Any code other than the stored one, e.g. one differing in a single digit, is rejected. */
  lemma OtherCodeRejected(codes: CodeTable, email: string, code: string, now: int)
    requires email in codes && code != codes[email].code
    ensures !Accepts(codes, email, code, now)
  {
  }

  /** A removed email accepts no code, and the other emails are unaffected. */
  lemma RemovedRejects(codes: CodeTable, email: string, other: string, code: string, now: int)
    ensures !Accepts(codes - {email}, email, code, now)
    ensures other != email ==> Accepts(codes - {email}, other, code, now) == Accepts(codes, other, code, now)
  {
  }

  /** Restaging the payload changes no verdict: in particular it does not restart the window. */
  lemma RestageKeepsVerdicts(codes: CodeTable, email: string, p: UserCreation, other: string, code: string, now: int)
    ensures Accepts(Restaged(codes, email, p), other, code, now) == Accepts(codes, other, code, now)
    ensures Restaged(codes, email, p).Keys == codes.Keys
  {
  }

  /** Every registration entry carries a staged profile (`generateCode` and
      `savePendingUser` always store one). */
  ghost predicate PendingStaged(codes: CodeTable) {
    forall e | e in codes :: codes[e].pendingUser.Some?
  }

  class VerificationCodeService {
    var registrationCodes: CodeTable
    var passwordResetCodes: CodeTable
    /** `admin.email`: the address signup requests are sent to (`getAdminEmail`). */
    const adminEmail: string

    ghost predicate Valid()
      reads this
    {
      PendingStaged(registrationCodes)
    }

    constructor (adminEmail: string)
      ensures Valid()
      ensures registrationCodes == map[] && passwordResetCodes == map[]
      ensures this.adminEmail == adminEmail
    {
      registrationCodes := map[];
      passwordResetCodes := map[];
      this.adminEmail := adminEmail;
    }

    /** `validateCode`: a pure read of the registration table. */
    function ValidateCode(email: string, code: string, now: int): (ok: bool)
      reads this
      ensures ok == Accepts(registrationCodes, email, code, now)
    {
      Accepts(registrationCodes, email, code, now)
    }

    /** `validatePasswordResetCode`: a pure read of the reset table. */
    function ValidatePasswordResetCode(email: string, code: string, now: int): (ok: bool)
      reads this
      ensures ok == Accepts(passwordResetCodes, email, code, now)
    {
      Accepts(passwordResetCodes, email, code, now)
    }

    /** `getPendingUser`: the staged profile, or null when no registration entry exists. */
    function GetPendingUser(email: string): (p: Option<UserCreation>)
      reads this
      requires Valid()
      ensures p.Some? <==> email in registrationCodes
      ensures p.Some? ==> registrationCodes[email].pendingUser == p
    {
      match Lookup(registrationCodes, email)
      case None => None
      case Some(d) => d.pendingUser
    }

    /** `generateCode`: draws a code with the random value `r` and stores it with
        the clock reading `now` and the profile, overwriting any earlier entry. */
    method GenerateCode(email: string, userDto: UserCreation, r: nat, now: int) returns (code: string)
      requires Valid()
      requires r < CODE_BOUND
      modifies this
      ensures Valid()
      ensures code == FormatCode(r)
      ensures registrationCodes == old(registrationCodes)[email := CodeData(code, now, Some(userDto))]
      ensures passwordResetCodes == old(passwordResetCodes)
      ensures forall c, t :: ValidateCode(email, c, t) <==> c == code && t - now < EXPIRATION_TIME
    {
      code := FormatCode(r);
      registrationCodes := registrationCodes[email := CodeData(code, now, Some(userDto))];
      forall c, t ensures ValidateCode(email, c, t) <==> c == code && t - now < EXPIRATION_TIME {
        IssuedEntryAccepts(old(registrationCodes), email, CodeData(code, now, Some(userDto)), c, t);
      }
    }

    /** `generatePasswordResetCode`: the same for the reset table, with no payload. */
    method GeneratePasswordResetCode(email: string, r: nat, now: int) returns (code: string)
      requires Valid()
      requires r < CODE_BOUND
      modifies this
      ensures Valid()
      ensures code == FormatCode(r)
      ensures passwordResetCodes == old(passwordResetCodes)[email := CodeData(code, now, None)]
      ensures registrationCodes == old(registrationCodes)
      ensures forall c, t :: ValidatePasswordResetCode(email, c, t) <==> c == code && t - now < EXPIRATION_TIME
    {
      code := FormatCode(r);
      passwordResetCodes := passwordResetCodes[email := CodeData(code, now, None)];
      forall c, t ensures ValidatePasswordResetCode(email, c, t) <==> c == code && t - now < EXPIRATION_TIME {
        IssuedEntryAccepts(old(passwordResetCodes), email, CodeData(code, now, None), c, t);
      }
    }

    /** `removePendingUser`: deletes the registration entry of `email` only. */
    method RemovePendingUser(email: string)
      requires Valid()
      modifies this
      ensures Valid()
      ensures registrationCodes == old(registrationCodes) - {email}
      ensures passwordResetCodes == old(passwordResetCodes)
      ensures GetPendingUser(email) == None
      ensures forall c, t :: !ValidateCode(email, c, t)
    {
      registrationCodes := registrationCodes - {email};
      forall c, t ensures !ValidateCode(email, c, t) {
        RemovedRejects(old(registrationCodes), email, email, c, t);
      }
    }

    /** `savePendingUser`: replaces the staged profile of an existing entry, keeping
        its code and timestamp; does nothing when no entry exists. */
    method SavePendingUser(email: string, pendingUser: UserCreation)
      requires Valid()
      modifies this
      ensures Valid()
      ensures registrationCodes == Restaged(old(registrationCodes), email, pendingUser)
      ensures passwordResetCodes == old(passwordResetCodes)
      ensures email in registrationCodes ==> GetPendingUser(email) == Some(pendingUser)
      ensures forall e, c, t :: ValidateCode(e, c, t) == old(ValidateCode(e, c, t))
    {
      var data := Lookup(registrationCodes, email);
      if data.Some? {
        registrationCodes := registrationCodes[email := CodeData(data.value.code, data.value.timestamp, Some(pendingUser))];
      }
      forall e, c, t ensures ValidateCode(e, c, t) == old(ValidateCode(e, c, t)) {
        RestageKeepsVerdicts(old(registrationCodes), email, pendingUser, e, c, t);
      }
    }
  }
}
