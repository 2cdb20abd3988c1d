/**
 * Phone login by one-time password: issuing a code, checking a guess
 * against the latest code, and the account a first login creates. The
 * clock is whole seconds supplied by the caller and the drawn code is a
 * parameter in its range.
 */
module AuthApi {
  import opened Wrappers
  import opened Text
  import User
  import Gamification

  /** Seconds an issued code stays usable. */
  const OTP_LIFETIME := 600

  /** Gems a new account starts with. */
  const WELCOME_GEMS := 100

  // ---------------------------------------------------------------------------
  // Request validation
  // ---------------------------------------------------------------------------

  /** A phone number as the schemas accept it: an optional '+', a digit 1-9, then 9 to 14 digits. */
  predicate PhoneDigits(d: string)
  {
    10 <= |d| <= 15 && '1' <= d[0] <= '9' && AllDigits(d)
  }

  /**
   * `^\+?[1-9]\d{9,14}$` as Python's `re.match` applies it: `$` also
   * matches just before a final newline.
   */
  predicate ValidPhone(phone: string)
  {
    var body := if |phone| > 0 && phone[|phone| - 1] == '\n' then phone[..|phone| - 1] else phone;
    var d := if |body| > 0 && body[0] == '+' then body[1..] else body;
    PhoneDigits(d)
  }

  /** A valid phone number has at least ten characters. */
  lemma ValidPhoneLength(phone: string)
    requires ValidPhone(phone)
    ensures |phone| >= 10
  {
  }

  /** A code field is exactly six characters; a given name is 2 to 100 characters. */
  predicate ValidVerifyRequest(phone: string, code: string, name: Option<string>)
  {
    ValidPhone(phone) && |code| == 6 && (name.Some? ==> 2 <= |name.value| <= 100)
  }

  // ---------------------------------------------------------------------------
  // Issuing a code
  // ---------------------------------------------------------------------------

  function Pow10(k: nat): nat
  {
    if k == 0 then 1 else 10 * Pow10(k - 1)
  }

  /** A number of k digits is written with k characters. */
  lemma {:induction false} NatToStringLength(n: nat, k: nat)
    requires 1 <= k && Pow10(k - 1) <= n < Pow10(k)
    ensures |NatToString(n)| == k
  {
    if k > 1 {
      assert Pow10(k - 1) == 10 * Pow10(k - 2);
      NatToStringLength(n / 10, k - 1);
    }
  }

  /** `str(random.randint(100000, 999999))`: a code of six digits that reads back as the draw. */
  function CodeOf(draw: int): (code: string)
    requires 100000 <= draw <= 999999
    ensures |code| == 6 && AllDigits(code) && DecimalValue(code) == draw
  {
    assert Pow10(6) == 1000000 && Pow10(5) == 100000;
    NatToStringLength(draw, 6);
    DecimalRoundTrip(draw);
    NatToString(draw)
  }

  /** The table of issued codes. */
  class OtpTable {
    var rows: set<User.Otp>

    constructor ()
      ensures rows == {}
    {
      rows := {};
    }

    /**
     * `send_otp`: an invalid phone is refused with 400 and nothing
     * changes; otherwise every unused code of the phone is deleted and a
     * new one, the six digits of `draw`, is issued for ten minutes. It is
     * then the phone's only unused code.
     */
    method SendOtp(phone: string, draw: int, now: int) returns (r: Result<string, int>, otp: User.Otp?)
      requires 100000 <= draw <= 999999
      modifies this`rows
      ensures r.Err? <==> !ValidPhone(phone)
      ensures r.Err? ==> r.error == 400 && rows == old(rows)
      ensures r.Ok? ==> otp != null && fresh(otp) && r.value == CodeOf(draw)
      ensures r.Ok? ==> otp != null && otp.phone == phone && otp.code == r.value && otp.attempts == 0 && !otp.verified
      ensures r.Ok? ==> otp != null && otp.createdAt == now && otp.expiresAt == now + OTP_LIFETIME
      ensures r.Ok? ==> rows == (set o | o in old(rows) && !(o.phone == phone && !o.verified)) + {otp}
      ensures r.Ok? ==> forall o :: o in rows && o.phone == phone && !o.verified ==> o == otp
    {
      if !ValidPhone(phone) {
        return Err(400), null;
      }
      rows := set o | o in rows && !(o.phone == phone && !o.verified);
      var code := CodeOf(draw);
      otp := new User.Otp(phone, code, now, now + OTP_LIFETIME);
      rows := rows + {otp};
      r := Ok(code);
    }
  }

  // ---------------------------------------------------------------------------
  // Checking a guess
  // ---------------------------------------------------------------------------

  /** Why a guess is refused. */
  datatype VerifyError = BadRequest | NoOtp | Expired | InvalidCode(remaining: int) | TooManyAttempts

  /** The code's counters after a guess, and the reply. */
  datatype Check = Check(attempts: int, verified: bool, reply: Result<(), VerifyError>)

  /**
   * One guess as `verify_otp` makes it: an expired code is refused
   * untouched; otherwise the attempt is counted, a wrong guess reports
   * 5 − attempts remaining (or too many attempts), and a right one is
   * accepted however many attempts came before.
   */
  function GuessAsWritten(attempts: int, expired: bool, matches: bool): (c: Check)
    ensures expired ==> c == Check(attempts, false, Err(Expired))
    ensures !expired ==> c.attempts == attempts + 1
    ensures !expired ==> (c.verified <==> matches) && (c.reply.Ok? <==> matches)
  {
    if expired then Check(attempts, false, Err(Expired))
    else
      var a := attempts + 1;
      if !matches then
        var remaining := User.MAX_OTP_ATTEMPTS - a;
        Check(a, false, Err(if remaining <= 0 then TooManyAttempts else InvalidCode(remaining)))
      else Check(a, true, Ok(()))
  }

  /**
   * One guess as the code's own validity rule intends: once five attempts
   * have been made the code is spent, and even the right guess is refused
   * until a new code is requested.
   */
  function Guess(attempts: int, expired: bool, matches: bool): (c: Check)
    ensures expired ==> c == Check(attempts, false, Err(Expired))
    ensures !expired && attempts >= User.MAX_OTP_ATTEMPTS ==> c == Check(attempts, false, Err(TooManyAttempts))
    ensures !expired && attempts < User.MAX_OTP_ATTEMPTS ==> c == GuessAsWritten(attempts, expired, matches)
    ensures c.verified ==> attempts < User.MAX_OTP_ATTEMPTS && matches
  {
    if expired then Check(attempts, false, Err(Expired))
    else if attempts >= User.MAX_OTP_ATTEMPTS then Check(attempts, false, Err(TooManyAttempts))
    else GuessAsWritten(attempts, expired, matches)
  }

  /**
   * The counters after a run of guesses on one unexpired code, `guesses[i]`
   * telling whether guess i was right; once accepted, the code is no
   * longer found and later guesses change nothing.
   */
  function Run(attempts: int, verified: bool, guesses: seq<bool>, limited: bool): (c: (int, bool))
    decreases |guesses|
  {
    if guesses == [] || verified then (attempts, verified)
    else
      var c := if limited then Guess(attempts, false, guesses[0]) else GuessAsWritten(attempts, false, guesses[0]);
      Run(c.attempts, c.verified, guesses[1..], limited)
  }

  /**
   * With the attempt limit, a code starting from no attempts is accepted
   * only if one of the first five guesses is right.
   */
  lemma {:induction false} RunAcceptsOnlyEarlyGuess(attempts: nat, guesses: seq<bool>)
    requires attempts <= User.MAX_OTP_ATTEMPTS
    ensures Run(attempts, false, guesses, true).1 ==>
      exists i :: 0 <= i < |guesses| && i < User.MAX_OTP_ATTEMPTS - attempts && guesses[i]
    decreases |guesses|
  {
    if guesses != [] && attempts < User.MAX_OTP_ATTEMPTS && !guesses[0] {
      RunAcceptsOnlyEarlyGuess(attempts + 1, guesses[1..]);
      if Run(attempts, false, guesses, true).1 {
        var i :| 0 <= i < |guesses[1..]| && i < User.MAX_OTP_ATTEMPTS - (attempts + 1) && guesses[1..][i];
        assert guesses[i + 1];
      }
    } else if guesses != [] && attempts >= User.MAX_OTP_ATTEMPTS {
      assert Run(attempts, false, guesses, true) == Run(attempts, false, guesses[1..], true);
      RunAcceptsOnlyEarlyGuess(attempts, guesses[1..]);
    }
  }

  /** As written, five wrong guesses and then the right one still log in. */
  lemma SixthGuessAcceptedAsWritten()
    ensures Run(0, false, [false, false, false, false, false, true], false).1
    ensures !Run(0, false, [false, false, false, false, false, true], true).1
  {
    RunAcceptsOnlyEarlyGuess(0, [false, false, false, false, false, true]);
  }

  // ---------------------------------------------------------------------------
  // Logging in
  // ---------------------------------------------------------------------------

  /**
   * The name of an account a first login creates: the given one, or
   * "User" followed by the last four characters of the phone.
   */
  function NewUserName(name: Option<string>, phone: string): (n: string)
    ensures name.Some? && name.value != [] ==> n == name.value
    ensures !(name.Some? && name.value != []) ==>
      |n| == 4 + (if |phone| < 4 then |phone| else 4) && n[..4] == "User" && EndsWith(phone, n[4..])
  {
    if name.Some? && name.value != [] then name.value
    else "User" + (if |phone| < 4 then phone else phone[|phone| - 4..])
  }

  /** The result of a successful login. */
  datatype Login = Login(user: User.User, isNewUser: bool)

  /** The most recently issued unused code of `phone`, as the lookup picks it. */
  ghost predicate Latest(rows: set<User.Otp>, phone: string, otp: User.Otp)
    reads rows
  {
    otp in rows && otp.phone == phone && !otp.verified
    && forall o :: o in rows && o.phone == phone && !o.verified ==> o.createdAt <= otp.createdAt
  }

  /** A non-empty set of codes has one issued no earlier than any other. */
  lemma {:induction false} LatestExists(s: set<User.Otp>)
    requires s != {}
    ensures exists m :: m in s && forall o :: o in s ==> o.createdAt <= m.createdAt
    decreases |s|
  {
    var x :| x in s;
    if s != {x} {
      LatestExists(s - {x});
      var m :| m in s - {x} && forall o :: o in s - {x} ==> o.createdAt <= m.createdAt;
      if x.createdAt > m.createdAt {
        assert forall o :: o in s ==> o.createdAt <= x.createdAt;
      } else {
        assert forall o :: o in s ==> o.createdAt <= m.createdAt;
      }
    }
  }

  method FindLatest(table: OtpTable, phone: string) returns (otp: User.Otp?)
    ensures otp == null <==> forall o :: o in table.rows ==> !(o.phone == phone && !o.verified)
    ensures otp != null ==> Latest(table.rows, phone, otp)
  {
    var candidates := set o | o in table.rows && o.phone == phone && !o.verified;
    if candidates == {} {
      assert forall o :: o in table.rows && o.phone == phone && !o.verified ==> o in candidates;
      return null;
    }
    LatestExists(candidates);
    otp :| otp in candidates && forall o :: o in candidates ==> o.createdAt <= otp.createdAt;
  }

  /**
   * `verify_otp` with the attempt limit enforced: a malformed request is
   * refused; otherwise the phone's latest unused code is checked as
   * `Guess` says, and an accepted code logs the phone's account in or,
   * for an unknown phone, creates one (named by `NewUserName`, id
   * `newId`) with a gem record of 100 gems. `checked` is the code the
   * guess was checked against, and no other code changes.
   */
  method VerifyOtp(table: OtpTable, accounts: map<string, User.User>, phone: string, code: string,
                   name: Option<string>, now: int, newId: int)
    returns (r: Result<Login, VerifyError>, accounts': map<string, User.User>, g: Gamification.UserGamification?,
             checked: User.Otp?)
    modifies table.rows
    ensures !ValidVerifyRequest(phone, code, name) ==> r == Err(BadRequest) && accounts' == accounts
    ensures ValidVerifyRequest(phone, code, name) && (forall o :: o in table.rows ==> !(o.phone == phone && !old(o.verified)))
      ==> r == Err(NoOtp) && accounts' == accounts
    ensures r.Err? ==> accounts' == accounts && g == null
    ensures checked == null <==> r == Err(BadRequest) || r == Err(NoOtp)
    ensures forall o :: o in table.rows && o != checked ==> o.attempts == old(o.attempts) && o.verified == old(o.verified)
    ensures checked != null ==>
      && checked in table.rows && checked.phone == phone && !old(checked.verified)
      && (forall o :: o in table.rows && o.phone == phone && !old(o.verified) ==> o.createdAt <= checked.createdAt)
      && var c := Guess(old(checked.attempts), checked.IsExpired(now), checked.code == code);
         && checked.attempts == c.attempts && checked.verified == c.verified
         && (r.Ok? <==> c.reply.Ok?) && (c.reply.Err? ==> r == Err(c.reply.error))
    ensures r.Ok? && phone in accounts ==> r.value == Login(accounts[phone], false) && accounts' == accounts && g == null
    ensures r.Ok? && phone !in accounts ==> fresh(r.value.user) && r.value.isNewUser && accounts' == accounts[phone := r.value.user]
    ensures r.Ok? && phone !in accounts ==>
      r.value.user.id == newId && r.value.user.name == NewUserName(name, phone) && r.value.user.phone == Some(phone)
    ensures r.Ok? && phone !in accounts ==> g != null && fresh(g) && g.userId == newId && g.gems == Some(WELCOME_GEMS)
  {
    accounts' := accounts;
    g := null;
    checked := null;
    if !ValidVerifyRequest(phone, code, name) {
      return Err(BadRequest), accounts', g, checked;
    }
    checked := FindLatest(table, phone);
    if checked == null {
      return Err(NoOtp), accounts', g, checked;
    }
    var c := Guess(checked.attempts, checked.IsExpired(now), checked.code == code);
    checked.attempts, checked.verified := c.attempts, c.verified;
    if c.reply.Err? {
      return Err(c.reply.error), accounts', g, checked;
    }
    if phone in accounts {
      return Ok(Login(accounts[phone], false)), accounts', g, checked;
    }
    var user := new User.User(newId, NewUserName(name, phone), None, Some(phone), None);
    g := new Gamification.UserGamification(newId, WELCOME_GEMS);
    accounts' := accounts[phone := user];
    r := Ok(Login(user, true));
  }

  /**
   * Right after a code is sent, it is the one a guess is checked
   * against: the phone's only unused code, hence its latest.
   */
  lemma SentCodeIsLatest(table: OtpTable, phone: string, otp: User.Otp)
    requires otp in table.rows && otp.phone == phone && !otp.verified
    requires forall o :: o in table.rows && o.phone == phone && !o.verified ==> o == otp
    ensures Latest(table.rows, phone, otp)
  {
  }
}
