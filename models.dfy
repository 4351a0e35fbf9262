/**
 * The `Account` model: one streaming-subscription record and the two
 * expiry predicates defined on it.  "Today" is a parameter: the predicates
 * compare the expiration date against the date they are given.
 */
module Models {
  import opened Wrappers
  import opened Dates

  /** The choices offered for `platform`, the catch-all "Otro" last. */
  const PLATFORM_CHOICES: seq<string> := [
    "Netflix", "HBO Max", "Disney+", "Amazon Prime Video", "Spotify", "YouTube Premium",
    "Apple TV+", "Apple Music", "Star+", "Crunchyroll", "Paramount+", "Otro"
  ]

  const CLIENT_NAME_MAX_LENGTH := 100
  const PLATFORM_MAX_LENGTH := 50

  /** The look-ahead of `is_expiring_soon` when the caller gives none. */
  const DEFAULT_DAYS := 7

  /** A row of the accounts table (the timestamps are not modelled). */
  datatype Account = Account(
    id: nat,
    clientName: string,
    platform: string,
    expirationDate: Date,
    details: string,
    notes: Option<string>)

  /**
   * What the field declarations accept: a client name of at most 100
   * characters, a listed platform within 50, details, all three required
   * (`blank` is off by default); `notes` may be blank or null.
   */
  predicate ValidAccount(a: Account): (r: bool)
    ensures r ==> 0 < |a.platform| <= PLATFORM_MAX_LENGTH
  {
    0 < |a.clientName| <= CLIENT_NAME_MAX_LENGTH
    && 0 < |a.platform| <= PLATFORM_MAX_LENGTH
    && a.platform in PLATFORM_CHOICES
    && a.details != ""
  }

  /** Every listed platform is non-empty and fits the column, so the choice alone decides validity of `platform`. */
  lemma ChoicesFitColumn(a: Account)
    requires a.platform in PLATFORM_CHOICES
    ensures 0 < |a.platform| <= PLATFORM_MAX_LENGTH
    ensures ValidAccount(a) <==> 0 < |a.clientName| <= CLIENT_NAME_MAX_LENGTH && a.details != ""
  {
  }

  /** `__str__`: the client name and the platform joined by " - ". */
  function ToString(a: Account): (r: string)
    ensures |r| == |a.clientName| + 3 + |a.platform|
    ensures r[..|a.clientName|] == a.clientName
    ensures r[|a.clientName|..|a.clientName| + 3] == " - "
    ensures r[|a.clientName| + 3..] == a.platform
  {
    a.clientName + " - " + a.platform
  }

  /** The last two characters of a string of at least two. */
  function LastTwo(p: string): string
    requires |p| >= 2
  {
    p[|p| - 2..]
  }

  /** Which listed platform ends in the two characters `e`; -1 when none does. */
  function ChoiceEnding(e: string): int
    requires |e| == 2
  {
    match (e[0], e[1])
    case ('i', 'x') => 0
    case ('a', 'x') => 1
    case ('y', '+') => 2
    case ('e', 'o') => 3
    case ('f', 'y') => 4
    case ('u', 'm') => 5
    case ('V', '+') => 6
    case ('i', 'c') => 7
    case ('r', '+') => 8
    case ('l', 'l') => 9
    case ('t', '+') => 10
    case ('r', 'o') => 11
    case _ => -1
  }

  /** Each listed platform is told apart from the others by its last two characters. */
  lemma EndingOfChoice(i: int)
    requires 0 <= i < |PLATFORM_CHOICES|
    ensures |PLATFORM_CHOICES[i]| >= 2 && ChoiceEnding(LastTwo(PLATFORM_CHOICES[i])) == i
  {
  }

  /** No two listed platforms end in the same two characters. */
  lemma ChoicesEndApart(p: string, q: string)
    requires p in PLATFORM_CHOICES && q in PLATFORM_CHOICES
    ensures |p| >= 2 && |q| >= 2
    ensures LastTwo(p) == LastTwo(q) ==> p == q
  {
    var i :| 0 <= i < |PLATFORM_CHOICES| && PLATFORM_CHOICES[i] == p;
    var j :| 0 <= j < |PLATFORM_CHOICES| && PLATFORM_CHOICES[j] == q;
    EndingOfChoice(i);
    EndingOfChoice(j);
  }

  /** For listed platforms, the text of `__str__` determines the client name and the platform. */
  lemma ToStringInjective(a: Account, b: Account)
    requires a.platform in PLATFORM_CHOICES && b.platform in PLATFORM_CHOICES
    requires ToString(a) == ToString(b)
    ensures a.clientName == b.clientName && a.platform == b.platform
  {
    var r := ToString(a);
    ChoicesEndApart(a.platform, b.platform);
    assert LastTwo(a.platform) == r[|r| - 2..] == LastTwo(b.platform);
    assert r[..|a.clientName|] == a.clientName;
  }

  /** Days left before the account expires: negative once it has expired. */
  function DaysLeft(a: Account, today: Date): int {
    DaysBetween(today, a.expirationDate)
  }

  /** `is_expired`: the expiration date is strictly before today. */
  function IsExpired(a: Account, today: Date): (r: bool)
    ensures r <==> Before(a.expirationDate, today)
  {
    OrdinalOrder(a.expirationDate, today);
    Ordinal(a.expirationDate) < Ordinal(today)
  }

  /**
   * `is_expiring_soon(days)`: the expiration date is on or before
   * `today + timedelta(days=days)`.  There is no lower bound.
   */
  function IsExpiringSoon(a: Account, today: Date, days: int := DEFAULT_DAYS): (r: bool)
    ensures r <==> DaysLeft(a, today) <= days
  {
    Ordinal(a.expirationDate) <= Ordinal(today) + days
  }

  /** `is_expired` says exactly that no days are left. */
  lemma ExpiredMeansNoDaysLeft(a: Account, today: Date)
    ensures IsExpired(a, today) <==> DaysLeft(a, today) < 0
  {
  }

  /** The missing lower bound: an expired account is also "expiring soon". */
  lemma ExpiredIsExpiringSoon(a: Account, today: Date, days: int)
    requires days >= 0
    requires IsExpired(a, today)
    ensures IsExpiringSoon(a, today, days)
  {
  }

  /** A longer look-ahead never drops an account. */
  lemma ExpiringSoonMonotone(a: Account, today: Date, days: int, more: int)
    requires days <= more
    requires IsExpiringSoon(a, today, days)
    ensures IsExpiringSoon(a, today, more)
  {
  }

  /** An account that expires today is not expired but is expiring soon. */
  lemma ExpiresToday(a: Account, today: Date)
    requires a.expirationDate == today
    ensures !IsExpired(a, today) && IsExpiringSoon(a, today, 0)
  {
  }
}
