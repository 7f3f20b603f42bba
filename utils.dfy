/** The two pure helpers of the app's utility file: the calendar-date prefix of a
    timestamp string and the icon name for a post's visibility status. */
module Utils {

  /** Number of characters of an ISO-8601 timestamp that make up its date
      ("YYYY-MM-DD"). */
  const DateLength: nat := 10

  function Min(a: nat, b: nat): nat
  {
    if a <= b then a else b
  }

  /** `inputString.slice(0, 10)`: the first ten characters, or the whole string
      when it is shorter. */
  function GetDate(s: string): (r: string)
    ensures |r| == Min(DateLength, |s|)
    ensures r == s[..|r|]
  {
    s[..Min(DateLength, |s|)]
  }

  /** A timestamp of at least ten characters yields exactly ten. */
  lemma GetDateOfTimestamp(s: string)
    requires |s| >= DateLength
    ensures |GetDate(s)| == DateLength
    ensures GetDate(s) == s[..DateLength]
  {
  }

  /** A string of at most ten characters is returned unchanged. */
  lemma GetDateOfShortString(s: string)
    requires |s| <= DateLength
    ensures GetDate(s) == s
  {
  }

  /** Taking the date of a date changes nothing. */
  lemma GetDateIdempotent(s: string)
    ensures GetDate(GetDate(s)) == GetDate(s)
  {
    GetDateOfShortString(GetDate(s));
  }

  /** Two strings that share their first ten characters have the same date. */
  lemma GetDateDependsOnPrefixOnly(s: string, t: string)
    requires |s| >= DateLength && |t| >= DateLength
    requires s[..DateLength] == t[..DateLength]
    ensures GetDate(s) == GetDate(t)
  {
  }

  /** The visibility status codes a post carries. */
  const Public: int := 1
  const FriendsOnly: int := 2
  const Private: int := 3

  /** The `switch` on a status code: one icon per known code, a fallback icon
      for every other value. */
  function GetStatusIcon(value: int): (r: string)
    ensures value == Public ==> r == "globe-outline"
    ensures value == FriendsOnly ==> r == "people-outline"
    ensures value == Private ==> r == "lock-closed-outline"
    ensures value !in {Public, FriendsOnly, Private} ==> r == "ellipsis-horizontal"
  {
    match value
    case 1 => "globe-outline"
    case 2 => "people-outline"
    case 3 => "lock-closed-outline"
    case _ => "ellipsis-horizontal"
  }

  /** The fallback icon is shown exactly for the codes the switch does not list,
      and the three known codes get three different icons. */
  lemma StatusIconFallbackExactlyForUnknown(value: int, other: int)
    ensures GetStatusIcon(value) == "ellipsis-horizontal" <==> value !in {Public, FriendsOnly, Private}
    ensures value in {Public, FriendsOnly, Private} && other in {Public, FriendsOnly, Private} && value != other
            ==> GetStatusIcon(value) != GetStatusIcon(other)
  {
  }
}
