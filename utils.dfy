/** `formatRelativeTime` of `client/src/lib/utils.ts`, taken as a function of the whole number of
    seconds between the date and now (the clock read and the date parsing are left out). */
module Utils {
  import opened Common

  datatype TimeUnit = Second | Minute | Hour | Day

  /** What the formatter says: "just now", or a count of some unit. */
  datatype RelativeTime = JustNow | Ago(count: nat, unit: TimeUnit)

  const SecondsPerMinute: nat := 60
  const SecondsPerHour: nat := 3600
  const SecondsPerDay: nat := 86400

  /** The branch of the if-chain a difference takes and the count it shows; the counts are
      `Math.floor` quotients of a positive difference, so Dafny's division agrees. */
  function Bucket(diffInSeconds: int): (t: RelativeTime)
    ensures t == JustNow <==> diffInSeconds < 5
    ensures t.Ago? && t.unit == Second <==> 5 <= diffInSeconds < SecondsPerMinute
    ensures t.Ago? && t.unit == Minute <==> SecondsPerMinute <= diffInSeconds < SecondsPerHour
    ensures t.Ago? && t.unit == Hour <==> SecondsPerHour <= diffInSeconds < SecondsPerDay
    ensures t.Ago? && t.unit == Day <==> SecondsPerDay <= diffInSeconds
    ensures t.Ago? ==> t.count >= 1
  {
    if diffInSeconds < 5 then JustNow
    else if diffInSeconds < SecondsPerMinute then Ago(diffInSeconds, Second)
    else if diffInSeconds < SecondsPerHour then Ago(diffInSeconds / SecondsPerMinute, Minute)
    else if diffInSeconds < SecondsPerDay then Ago(diffInSeconds / SecondsPerHour, Hour)
    else Ago(diffInSeconds / SecondsPerDay, Day)
  }

  function UnitSeconds(u: TimeUnit): (n: nat)
    ensures n >= 1
  {
    match u
    case Second => 1
    case Minute => SecondsPerMinute
    case Hour => SecondsPerHour
    case Day => SecondsPerDay
  }

  /** The count is the whole number of units in the difference, and it never reaches the next
      unit (5..59 seconds, 1..59 minutes, 1..23 hours). */
  lemma CountsAreWholeUnits(diffInSeconds: int)
    requires Bucket(diffInSeconds).Ago?
    ensures var t := Bucket(diffInSeconds);
      t.count * UnitSeconds(t.unit) <= diffInSeconds < (t.count + 1) * UnitSeconds(t.unit)
      && (t.unit == Second ==> 5 <= t.count <= 59)
      && (t.unit == Minute ==> t.count <= 59)
      && (t.unit == Hour ==> t.count <= 23)
  {
  }

  /** The rank of a unit, smallest first. */
  function UnitRank(u: TimeUnit): nat {
    match u
    case Second => 0
    case Minute => 1
    case Hour => 2
    case Day => 3
  }

  /** "Not later than": just now first, then by unit, then by count. */
  predicate NotLater(a: RelativeTime, b: RelativeTime) {
    a == JustNow || (b.Ago? && (UnitRank(a.unit) < UnitRank(b.unit) || (a.unit == b.unit && a.count <= b.count)))
  }

  /** An older date never reads as more recent. */
  lemma BucketMonotonic(d1: int, d2: int)
    requires d1 <= d2
    ensures NotLater(Bucket(d1), Bucket(d2))
  {
    var t1, t2 := Bucket(d1), Bucket(d2);
    if t1.Ago? && t1.unit == t2.unit {
      assert t1.count == d1 / UnitSeconds(t1.unit) && t2.count == d2 / UnitSeconds(t2.unit);
      DivMonotonic(d1, d2, UnitSeconds(t1.unit));
    }
  }

  lemma DivMonotonic(a: int, b: int, n: nat)
    requires 0 <= a <= b && n >= 1
    ensures a / n <= b / n
  {
    var qa, qb := a / n, b / n;
    assert n * qa <= a && b < n * qb + n;
    if qa > qb {
      MulMonotonic(n, qb + 1, qa);
      assert false;
    }
  }

  /** The unit's word: `seconds` always, the others with an `s` exactly when the count is above 1. */
  function UnitWord(u: TimeUnit, count: nat): string {
    match u
    case Second => "seconds"
    case Minute => if count > 1 then "minutes" else "minute"
    case Hour => if count > 1 then "hours" else "hour"
    case Day => if count > 1 then "days" else "day"
  }

  /** The words after the count. */
  function UnitPhrase(u: TimeUnit, count: nat): (p: string)
    ensures p != [] && p[0] == UnitWord(u, count)[0]
    ensures StartsWith(p, UnitWord(u, count)) && EndsWith(p, " ago") && |p| == |UnitWord(u, count)| + 4
  {
    var p := UnitWord(u, count) + " ago";
    StartsWithConcat(UnitWord(u, count), " ago");
    assert p[|p| - 4..] == " ago";
    p
  }

  /** The text of a bucket: `"just now"`, or `<count> <unit word> ago`. */
  function Render(t: RelativeTime): (s: string)
    ensures t.Ago? ==> StartsWith(s, NatToString(t.count) + " ") && EndsWith(s, " ago")
    ensures t.Ago? ==> s == NatToString(t.count) + " " + UnitWord(t.unit, t.count) + " ago"
  {
    match t
    case JustNow => "just now"
    case Ago(n, u) =>
      var s := NatToString(n) + " " + UnitPhrase(u, n);
      StartsWithConcat(NatToString(n) + " ", UnitPhrase(u, n));
      assert s == NatToString(n) + " " + UnitWord(u, n) + " ago";
      assert s[|s| - 4..] == " ago";
      s
  }

  /** `formatRelativeTime`. */
  function FormatRelativeTime(diffInSeconds: int): (s: string)
    ensures diffInSeconds < 5 <==> s == "just now"
    ensures diffInSeconds >= 5 ==> StartsWith(s, NatToString(Bucket(diffInSeconds).count) + " ") && EndsWith(s, " ago")
    ensures diffInSeconds >= 5 ==>
              s == NatToString(Bucket(diffInSeconds).count) + " " + UnitWord(Bucket(diffInSeconds).unit, Bucket(diffInSeconds).count) + " ago"
  {
    RenderFirstChar(Bucket(diffInSeconds));
    Render(Bucket(diffInSeconds))
  }

  /** The plural rule: a minute, hour or day word ends in `s` exactly when the count is above 1. */
  lemma PluralRule(u: TimeUnit, count: nat)
    requires u != Second
    ensures var w := UnitWord(u, count); (w[|w| - 1] == 's') <==> count > 1
  {
  }

  /** Between 5 and 59 seconds the text is `<n> seconds ago`. */
  lemma SecondsText(diffInSeconds: int)
    requires 5 <= diffInSeconds < SecondsPerMinute
    ensures FormatRelativeTime(diffInSeconds) == NatToString(diffInSeconds) + " seconds ago"
  {
    var t := Bucket(diffInSeconds);
    assert t.unit == Second && t.count == diffInSeconds;
  }

  /** A text `<head><word> ago` ends in `s ago` exactly when the word ends in `s`. */
  lemma EndsInSAgo(head: string, w: string)
    requires w != []
    ensures EndsWith(head + w + " ago", "s ago") <==> w[|w| - 1] == 's'
  {
    var s := head + w + " ago";
    var tail := [w[|w| - 1]] + " ago";
    assert s[|s| - 5..] == tail;
    if w[|w| - 1] == 's' {
      assert tail == "s ago";
    } else {
      assert tail[0] != "s ago"[0];
    }
  }

  /** From one minute on the text ends in `s ago` exactly when the count is above 1: `1 minute ago`
      but `2 minutes ago`, and likewise for hours and days. */
  lemma PluralInText(diffInSeconds: int)
    requires diffInSeconds >= SecondsPerMinute
    ensures EndsWith(FormatRelativeTime(diffInSeconds), "s ago") <==> Bucket(diffInSeconds).count > 1
  {
    var t := Bucket(diffInSeconds);
    assert t.Ago? && t.unit != Second;
    PluralRule(t.unit, t.count);
    EndsInSAgo(NatToString(t.count) + " ", UnitWord(t.unit, t.count));
  }

  /** Only "just now" starts with a letter; every other text starts with its count's digits. */
  lemma RenderFirstChar(t: RelativeTime)
    ensures Render(t) != [] && (Render(t)[0] == 'j' <==> t == JustNow)
  {
    if t.Ago? {
      assert Render(t)[0] == NatToString(t.count)[0];
    }
  }

  /** The first letter of the unit word names the unit. */
  lemma UnitPhraseInjective(u1: TimeUnit, u2: TimeUnit, count: nat)
    requires UnitPhrase(u1, count) == UnitPhrase(u2, count)
    ensures u1 == u2
  {
  }

  lemma AgoInjective(n1: nat, u1: TimeUnit, n2: nat, u2: TimeUnit)
    requires NatToString(n1) + " " + UnitPhrase(u1, n1) == NatToString(n2) + " " + UnitPhrase(u2, n2)
    ensures n1 == n2 && u1 == u2
  {
    DigitsAroundSeparator(NatToString(n1), UnitPhrase(u1, n1), NatToString(n2), UnitPhrase(u2, n2), ' ');
    NatToStringInjective(n1, n2);
    UnitPhraseInjective(u1, u2, n1);
  }

  /** Distinct buckets read differently, so the text names the bucket. */
  lemma RenderInjective(a: RelativeTime, b: RelativeTime)
    requires Render(a) == Render(b)
    ensures a == b
  {
    RenderFirstChar(a);
    RenderFirstChar(b);
    if a.Ago? && b.Ago? {
      AgoInjective(a.count, a.unit, b.count, b.unit);
    }
  }
}
