/**
 * The user account and the one-time passwords of phone login. Clock
 * readings are whole seconds supplied by the caller; bcrypt's check is a
 * function supplied by the caller.
 */
module User {
  import opened Wrappers

  class User {
    const id: int
    var phone: Option<string>
    var email: Option<string>
    var passwordHash: Option<string>
    var name: string
    var streakDays: int
    var totalPracticeMinutes: int
    var lessonsCompleted: int
    var songsLearned: int
    var isPremium: bool
    var premiumUntil: Option<int>
    var isAdmin: bool
    var lastPracticeAt: Option<int>

    /** A new account with the column defaults; `passwordHash` is the stored bcrypt hash, if any. */
    constructor (id: int, name: string, email: Option<string>, phone: Option<string>, passwordHash: Option<string>)
      ensures this.id == id && this.name == name && this.email == email && this.phone == phone
      ensures this.passwordHash == passwordHash
      ensures streakDays == 0 && totalPracticeMinutes == 0 && lessonsCompleted == 0 && songsLearned == 0
      ensures !isPremium && premiumUntil == None && !isAdmin && lastPracticeAt == None
    {
      this.id := id;
      this.name := name;
      this.email := email;
      this.phone := phone;
      this.passwordHash := passwordHash;
      streakDays := 0;
      totalPracticeMinutes := 0;
      lessonsCompleted := 0;
      songsLearned := 0;
      isPremium := false;
      premiumUntil := None;
      isAdmin := false;
      lastPracticeAt := None;
    }

    /**
     * An account without a password (none, or empty) never accepts one;
     * otherwise bcrypt decides.
     */
    function CheckPassword(password: string, checkpw: (string, string) -> bool): (ok: bool)
      reads this
      ensures ok <==> passwordHash.Some? && passwordHash.value != "" && checkpw(password, passwordHash.value)
    {
      match passwordHash
      case None => false
      case Some(h) => h != "" && checkpw(password, h)
    }

    /** Adds practised minutes and counts a completed lesson or learned song. */
    method UpdatePracticeStats(minutes: int, lessonCompleted: bool, songLearned: bool, now: int)
      modifies this`totalPracticeMinutes, this`lastPracticeAt, this`lessonsCompleted, this`songsLearned
      ensures totalPracticeMinutes == old(totalPracticeMinutes) + minutes && lastPracticeAt == Some(now)
      ensures lessonsCompleted == old(lessonsCompleted) + (if lessonCompleted then 1 else 0)
      ensures songsLearned == old(songsLearned) + (if songLearned then 1 else 0)
    {
      totalPracticeMinutes := totalPracticeMinutes + minutes;
      lastPracticeAt := Some(now);
      if lessonCompleted {
        lessonsCompleted := lessonsCompleted + 1;
      }
      if songLearned {
        songsLearned := songsLearned + 1;
      }
    }

    /** Premium with no end date, or with an end date still in the future. */
    function IsActivePremium(now: int): (active: bool)
      reads this
      ensures active ==> isPremium
      ensures active <==> isPremium && (premiumUntil.None? || now < premiumUntil.value)
    {
      if !isPremium then false
      else if premiumUntil.None? then true
      else premiumUntil.value > now
    }

    /** Premium only lapses: active at some moment, it was active at every earlier one. */
    lemma PremiumOnlyLapses(earlier: int, later: int)
      requires earlier <= later && IsActivePremium(later)
      ensures IsActivePremium(earlier)
    {
    }
  }

  /** Attempts after which a one-time password stops being valid. */
  const MAX_OTP_ATTEMPTS := 5

  /** A one-time password sent to a phone; attempts and the verified flag change in place. */
  class Otp {
    const phone: string
    const code: string
    var attempts: int
    var verified: bool
    const createdAt: int
    const expiresAt: int

    constructor (phone: string, code: string, createdAt: int, expiresAt: int)
      ensures this.phone == phone && this.code == code
      ensures this.createdAt == createdAt && this.expiresAt == expiresAt
      ensures attempts == 0 && !verified
    {
      this.phone := phone;
      this.code := code;
      this.createdAt := createdAt;
      this.expiresAt := expiresAt;
      attempts := 0;
      verified := false;
    }

    /** Strictly after the expiry time. */
    function IsExpired(now: int): (expired: bool)
      ensures expired <==> now > expiresAt
    {
      now > expiresAt
    }

    /** Usable: not expired, not yet used, and fewer than five attempts made. */
    function IsValid(now: int): (valid: bool)
      reads this
      ensures valid ==> !verified && attempts < MAX_OTP_ATTEMPTS && now <= expiresAt
      ensures !IsExpired(now) && !verified && attempts < MAX_OTP_ATTEMPTS ==> valid
    {
      !IsExpired(now) && !verified && attempts < MAX_OTP_ATTEMPTS
    }
  }
}
