/** Mobile code verification (`POST /api/verify-mobile-otp`): the input check, the choice
    between the SMS verification service and the stored-code fallback, the test-code gate,
    the stored-code state machine over a keyed store, and the user lookup and update that
    end in a session cookie. */
module MobileOtp {
  import opened Common

  /** The settings the handler reads from its environment; None when unset. */
  datatype Config = Config(
    accountSid: Option<string>,
    authToken: Option<string>,
    verifyServiceSid: Option<string>,
    useHardcodedOtp: Option<string>,
    hardcodedOtp: Option<string>)

  /** What the SMS verification service answered, or the error code it threw. */
  datatype ServiceOutcome = Approved | NotApproved | Threw(code: Option<int>)

  /** `expiresAt` is None when the stored date does not parse; such a code never expires,
      since every comparison with an invalid date is false. */
  datatype OtpRecord = OtpRecord(otp: string, expiresAt: Option<int>, verified: bool)

  datatype UserRow = UserRow(email: string, phoneNumber: Option<string>, role: Option<string>, mobileVerified: bool)

  datatype SessionCookie = SessionCookie(name: string, value: string, maxAge: nat, httpOnly: bool, path: string)

  /** The handler's error responses. */
  datatype OtpError =
    | MissingInput | ServiceRejected | TooManyAttempts | BadPhoneFormat
    | NoCode | CodeExpired | WrongCode | MarkFailed

  function Status(e: OtpError): nat {
    match e
    case TooManyAttempts => 429
    case MarkFailed => 500
    case _ => 400
  }

  function Message(e: OtpError): string {
    match e
    case MissingInput => "Mobile number and OTP are required"
    case ServiceRejected => "Invalid verification code. Please try again."
    case TooManyAttempts => "Max verification attempts reached. Please request a new code."
    case BadPhoneFormat => "Invalid phone number format."
    case NoCode => "No verification code found for this mobile number. Please request a new code."
    case CodeExpired => "Verification code has expired. Please request a new code."
    case WrongCode => "Invalid verification code. Please check and try again."
    case MarkFailed => "Failed to verify code"
  }

  datatype OtpResponse =
    | Failed(error: OtpError)
    | Verified(session: Option<SessionCookie>)

  const SessionMaxAge: nat := 60 * 60 * 24 * 7

  predicate InputPresent(mobile: Option<string>, otp: Option<string>) {
    StrTruthy(mobile) && StrTruthy(otp)
  }

  /** The stored-code path is used when any of the three service settings is missing. */
  function UsesStoredCodes(c: Config): (b: bool)
    ensures !b <==> StrTruthy(c.accountSid) && StrTruthy(c.authToken) && StrTruthy(c.verifyServiceSid)
  {
    !StrTruthy(c.accountSid) || !StrTruthy(c.authToken) || !StrTruthy(c.verifyServiceSid)
  }

  datatype ServiceDecision = ServiceVerified | ServiceRefused(error: OtpError) | FallBackToStore

  /** How the service's answer is handled: errors 60202 and 60200 end the request, any
      other error falls back to the stored code. */
  function DecideService(o: ServiceOutcome): (d: ServiceDecision)
    ensures d == FallBackToStore <==> o.Threw? && o.code != Some(60202) && o.code != Some(60200)
    ensures d == ServiceVerified <==> o == Approved
    ensures o == NotApproved ==> d == ServiceRefused(ServiceRejected)
    ensures o == Threw(Some(60202)) ==> d == ServiceRefused(TooManyAttempts) && Status(d.error) == 429
    ensures o == Threw(Some(60200)) ==> d == ServiceRefused(BadPhoneFormat) && Status(d.error) == 400
  {
    match o
    case Approved => ServiceVerified
    case NotApproved => ServiceRefused(ServiceRejected)
    case Threw(code) =>
      if code == Some(60202) then ServiceRefused(TooManyAttempts)
      else if code == Some(60200) then ServiceRefused(BadPhoneFormat)
      else FallBackToStore
  }

  /** The test code skips the store only when switched on with exactly "true", set, and equal. */
  function HardcodedAccepted(c: Config, otp: string): (b: bool)
    ensures b <==> c.useHardcodedOtp == Some("true") && c.hardcodedOtp == Some(otp) && otp != ""
  {
    c.useHardcodedOtp == Some("true") && StrTruthy(c.hardcodedOtp) && otp == c.hardcodedOtp.value
  }

  datatype StoredCheck = NoRecord | Expired | Mismatch | Match

  predicate IsExpired(r: OtpRecord, now: int) {
    r.expiresAt.Some? && now > r.expiresAt.value
  }

  /** Missing, then expired, then wrong code, in that order. */
  function CheckStored(r: Option<OtpRecord>, otp: string, now: int): (c: StoredCheck)
    ensures c == NoRecord <==> r.None?
    ensures c == Expired <==> r.Some? && IsExpired(r.value, now)
    ensures c == Mismatch <==> r.Some? && !IsExpired(r.value, now) && r.value.otp != otp
    ensures c == Match <==> r.Some? && !IsExpired(r.value, now) && r.value.otp == otp
  {
    if r.None? then NoRecord
    else if IsExpired(r.value, now) then Expired
    else if r.value.otp != otp then Mismatch
    else Match
  }

  /** At the expiry instant itself the code is still compared. */
  lemma StillValidAtExpiry(r: OtpRecord)
    requires r.expiresAt.Some?
    ensures CheckStored(Some(r), r.otp, r.expiresAt.value) == Match
  {
  }

  datatype UserQuery = ByEmail(email: string) | ByPhone(phone: string)

  predicate Matches(q: UserQuery, u: UserRow) {
    match q
    case ByEmail(e) => u.email == e
    case ByPhone(m) => u.phoneNumber == Some(m)
  }

  /** `id` is the one and only row the query selects. */
  predicate OnlyMatch(users: map<string, UserRow>, id: string, q: UserQuery) {
    && id in users && Matches(q, users[id])
    && forall other :: other in users && Matches(q, users[other]) ==> other == id
  }

  /** The user the handler settles on: the single row with the cookie's e-mail wins; the
      single row with this phone number is used only when the e-mail finds no single row. */
  ghost predicate LookedUp(users: map<string, UserRow>, mobile: string, cookieEmail: Option<string>, userId: Option<string>) {
    && (StrTruthy(cookieEmail) && (exists i :: OnlyMatch(users, i, ByEmail(cookieEmail.value))) ==>
          userId.Some? && OnlyMatch(users, userId.value, ByEmail(cookieEmail.value)))
    && ((!StrTruthy(cookieEmail) || forall i :: !OnlyMatch(users, i, ByEmail(cookieEmail.value))) ==>
          (userId.Some? <==> exists i :: OnlyMatch(users, i, ByPhone(mobile)))
          && (userId.Some? ==> OnlyMatch(users, userId.value, ByPhone(mobile))))
  }

  /** Which way the handler goes before it touches any store. */
  datatype Path = Refused(error: OtpError) | ViaService | ViaTestCode | ViaStore

  function Route(mobile: Option<string>, otp: Option<string>, config: Config, service: ServiceOutcome): (p: Path)
    ensures !InputPresent(mobile, otp) ==> p == Refused(MissingInput)
    ensures InputPresent(mobile, otp) && !UsesStoredCodes(config) ==> (
      && (p == ViaService <==> service == Approved)
      && (p.Refused? <==> DecideService(service).ServiceRefused?)
      && (p.Refused? ==> p.error == DecideService(service).error))
    // the test code and the stored code are consulted only without the service or after it threw
    ensures p == ViaTestCode <==> (
      && InputPresent(mobile, otp)
      && (UsesStoredCodes(config) || DecideService(service) == FallBackToStore)
      && HardcodedAccepted(config, otp.value))
    ensures p == ViaStore <==> (
      && InputPresent(mobile, otp)
      && (UsesStoredCodes(config) || DecideService(service) == FallBackToStore)
      && !HardcodedAccepted(config, otp.value))
  {
    if !InputPresent(mobile, otp) then Refused(MissingInput)
    else if !UsesStoredCodes(config) && DecideService(service) == ServiceVerified then ViaService
    else if !UsesStoredCodes(config) && DecideService(service).ServiceRefused? then
      Refused(DecideService(service).error)
    else if HardcodedAccepted(config, otp.value) then ViaTestCode
    else ViaStore
  }

  /** The user step after a code was accepted: the answer is a success; a session cookie is
      set exactly when a user was found, and then only that user, the one `LookedUp` selects,
      is marked mobile-verified with this number. */
  ghost predicate Finished(u0: map<string, UserRow>, u1: map<string, UserRow>, mobile: string,
                           cookieEmail: Option<string>, sessionId: string, resp: OtpResponse) {
    && resp.Verified?
    && (resp.session.None? ==> u1 == u0 && LookedUp(u0, mobile, cookieEmail, None))
    && (resp.session.Some? ==>
          && resp.session.value == SessionCookie("session", sessionId, SessionMaxAge, true, "/")
          && exists id :: id in u0 && LookedUp(u0, mobile, cookieEmail, Some(id))
               && u1 == u0[id := u0[id].(mobileVerified := true, phoneNumber := Some(mobile))])
  }

  class VerificationBackend {
    var otps: map<string, OtpRecord>   // keyed by mobile number
    var users: map<string, UserRow>    // keyed by user id

    constructor ()
      ensures otps == map[] && users == map[]
    {
      otps, users := map[], map[];
    }

    /** The stored-code state machine: a missing record changes nothing, an expired one is
        deleted, a wrong code changes nothing, a right one is marked verified. */
    method CheckStoredOtp(mobile: string, otp: string, now: int, writeOk: bool) returns (err: Option<OtpError>)
      modifies this`otps
      ensures var c := CheckStored(if mobile in old(otps) then Some(old(otps)[mobile]) else None, otp, now);
        && (c == NoRecord ==> err == Some(NoCode) && otps == old(otps))
        && (c == Expired ==> err == Some(CodeExpired) && otps == old(otps) - {mobile})
        && (c == Mismatch ==> err == Some(WrongCode) && otps == old(otps))
        && (c == Match && writeOk ==> err == None && otps == old(otps)[mobile := old(otps)[mobile].(verified := true)])
        && (c == Match && !writeOk ==> err == Some(MarkFailed) && otps == old(otps))
    {
      var stored := if mobile in otps then Some(otps[mobile]) else None;
      match CheckStored(stored, otp, now)
      case NoRecord =>
        err := Some(NoCode);
      case Expired =>
        otps := otps - {mobile};
        err := Some(CodeExpired);
      case Mismatch =>
        err := Some(WrongCode);
      case Match =>
        if writeOk {
          otps := otps[mobile := stored.value.(verified := true)];
          err := None;
        } else {
          err := Some(MarkFailed);
        }
    }

    /** `.single()` on the users table: the row is found only when exactly one matches. */
    method SingleUser(q: UserQuery) returns (id: Option<string>)
      ensures id.Some? ==> OnlyMatch(users, id.value, q)
      ensures id.None? ==> forall i :: !OnlyMatch(users, i, q)
    {
      if a :| a in users && Matches(q, users[a]) {
        if b :| b in users && Matches(q, users[b]) && b != a {
          id := None;
          forall i ensures !OnlyMatch(users, i, q) {
            assert Matches(q, users[a]) && Matches(q, users[b]);
          }
        } else {
          id := Some(a);
        }
      } else {
        id := None;
      }
    }

    /** The user is looked up by the e-mail cookie first and by the phone number only if that
        finds nobody; a found user is marked mobile-verified with this number and gets a
        seven-day session cookie. */
    method FinishVerification(mobile: string, cookieEmail: Option<string>, sessionId: string)
      returns (resp: OtpResponse, userId: Option<string>)
      modifies this`users
      ensures resp.Verified?
      ensures resp.session.Some? <==> userId.Some?
      ensures resp.session.Some? ==> resp.session.value == SessionCookie("session", sessionId, SessionMaxAge, true, "/")
      ensures userId.None? ==> users == old(users)
      ensures userId.Some? ==> (
        && userId.value in old(users)
        && users == old(users)[userId.value := old(users)[userId.value].(mobileVerified := true, phoneNumber := Some(mobile))])
      ensures LookedUp(old(users), mobile, cookieEmail, userId)
    {
      userId := None;
      if StrTruthy(cookieEmail) {
        userId := SingleUser(ByEmail(cookieEmail.value));
      }
      if userId.None? {
        userId := SingleUser(ByPhone(mobile));
      }
      if userId.Some? {
        var id := userId.value;
        users := users[id := users[id].(mobileVerified := true, phoneNumber := Some(mobile))];
        resp := Verified(Some(SessionCookie("session", sessionId, SessionMaxAge, true, "/")));
      } else {
        resp := Verified(None);
      }
    }

    method Post(mobile: Option<string>, otp: Option<string>, config: Config, service: ServiceOutcome,
                now: int, writeOk: bool, cookieEmail: Option<string>, sessionId: string)
      returns (resp: OtpResponse)
      modifies this
      ensures var p := Route(mobile, otp, config, service);
        && (p.Refused? ==> resp == Failed(p.error) && unchanged(this))
        && (p != ViaStore ==> otps == old(otps))
        && (p == ViaService || p == ViaTestCode ==> resp.Verified?)
        && (p == ViaStore && resp.Verified? ==>
              && mobile.value in old(otps)
              && CheckStored(Some(old(otps)[mobile.value]), otp.value, now) == Match
              && otps == old(otps)[mobile.value := old(otps)[mobile.value].(verified := true)])
      ensures resp.Failed? ==> users == old(users)
      // the stored-code path: each outcome of the check, and what it does to the store
      ensures Route(mobile, otp, config, service) == ViaStore ==>
        var m := mobile.value;
        var c := CheckStored(if m in old(otps) then Some(old(otps)[m]) else None, otp.value, now);
        && (c == NoRecord ==> resp == Failed(NoCode) && otps == old(otps))
        && (c == Expired ==> resp == Failed(CodeExpired) && otps == old(otps) - {m})
        && (c == Mismatch ==> resp == Failed(WrongCode) && otps == old(otps))
        && (c == Match && !writeOk ==> resp == Failed(MarkFailed) && otps == old(otps))
        && (c == Match && writeOk ==> resp.Verified?)
      // every accepted code ends in the user step
      ensures resp.Verified? ==> Finished(old(users), users, mobile.value, cookieEmail, sessionId, resp)
    {
      var found;
      match Route(mobile, otp, config, service)
      case Refused(error) =>
        resp := Failed(error);
      case ViaService =>
        resp, found := FinishVerification(mobile.value, cookieEmail, sessionId);
      case ViaTestCode =>
        resp, found := FinishVerification(mobile.value, cookieEmail, sessionId);
      case ViaStore =>
        var err := CheckStoredOtp(mobile.value, otp.value, now, writeOk);
        if err.Some? {
          resp := Failed(err.value);
        } else {
          resp, found := FinishVerification(mobile.value, cookieEmail, sessionId);
        }
    }
  }
}
