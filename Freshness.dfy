/**
 * The freshness classifier and relative-age text of `updateCurrentView`: pure
 * integer arithmetic on milliseconds, with the clock passed in as `now`.
 *
 * JavaScript's `Math.floor(x / d)` for a positive divisor `d` is Dafny's `x / d`
 * (both round towards minus infinity), so a receipt time in the future, which gives
 * a negative age, is modelled as the source computes it.
 */
module Freshness {
  import opened Optional
  import opened Text

  const FreshLimitMs: int := 30000
  const StaleLimitMs: int := 300000

  /** The three labels, ordered from the most to the least recent. */
  datatype Freshness = Fresh | Stale | Offline {

    function Rank(): nat {
      match this
      case Fresh => 0
      case Stale => 1
      case Offline => 2
    }

    /** The CSS class name the view uses for the label. */
    function Name(): string {
      match this
      case Fresh => "fresh"
      case Stale => "stale"
      case Offline => "offline"
    }
  }

  /** `data.receivedAt || Date.now()`: a missing or zero receipt time counts as now. */
  function ReceivedTime(receivedAt: Option<int>, now: int): int {
    if receivedAt.Some? && receivedAt.value != 0 then receivedAt.value else now
  }

  /** `Date.now() - receivedTime`. */
  function Age(receivedAt: Option<int>, now: int): (age: int)
    ensures receivedAt == None || receivedAt == Some(0) ==> age == 0
    ensures receivedAt.Some? && receivedAt.value != 0 ==> age + receivedAt.value == now
  {
    now - ReceivedTime(receivedAt, now)
  }

  /** The freshness label for an age in milliseconds. */
  function Classify(age: int): (f: Freshness)
    ensures f == Fresh <==> age < FreshLimitMs
    ensures f == Stale <==> FreshLimitMs <= age < StaleLimitMs
    ensures f == Offline <==> StaleLimitMs <= age
  {
    if age < FreshLimitMs then Fresh else if age < StaleLimitMs then Stale else Offline
  }

  /** An older reading is never labelled more recent. */
  lemma ClassifyMonotone(a1: int, a2: int)
    requires a1 <= a2
    ensures Classify(a1).Rank() <= Classify(a2).Rank()
  {
  }

  /** The boundary cases: 29 999 ms fresh, 30 000 and 299 999 ms stale, 300 000 ms offline. */
  lemma ClassifyBoundaries()
    ensures Classify(29999) == Fresh && Classify(30000) == Stale
    ensures Classify(299999) == Stale && Classify(300000) == Offline
  {
  }

  /** The unit the relative-age text is given in. */
  datatype AgeUnit = Seconds | Minutes | Hours {

    /** The Polish suffix after the number: "{n}s temu", "{n}min temu", "{n}h temu". */
    function Suffix(): string {
      match this
      case Seconds => "s temu"
      case Minutes => "min temu"
      case Hours => "h temu"
    }
  }

  /** A relative age: a whole number of units. */
  datatype AgeLabel = AgeLabel(count: int, unit: AgeUnit)

  /**
   * `timeAgo = Math.floor(age / 1000)`, then seconds below one minute, whole minutes
   * below one hour, whole hours otherwise. The count is the age rounded down to
   * a whole number of its unit.
   */
  function AgeInUnits(age: int): (l: AgeLabel)
    ensures l.unit == Seconds <==> age < 60000
    ensures l.unit == Minutes <==> 60000 <= age < 3600000
    ensures l.unit == Hours <==> 3600000 <= age
    ensures l.unit == Seconds ==> l.count * 1000 <= age < l.count * 1000 + 1000
    ensures l.unit == Minutes ==> 1 <= l.count < 60 && l.count * 60000 <= age < l.count * 60000 + 60000
    ensures l.unit == Hours ==> 1 <= l.count && l.count * 3600000 <= age < l.count * 3600000 + 3600000
  {
    var timeAgo := age / 1000;
    if timeAgo < 60 then AgeLabel(timeAgo, Seconds)
    else if timeAgo < 3600 then AgeLabel(timeAgo / 60, Minutes)
    else AgeLabel(timeAgo / 3600, Hours)
  }

  /** The relative-age text shown on the current-reading card. */
  function TimeText(age: int): string {
    var l := AgeInUnits(age);
    IntToDecimal(l.count) + l.unit.Suffix()
  }

  /** The dashboard's 45 s, 125 s and 7 200 s examples. */
  lemma TimeTextExamples()
    ensures TimeText(45000) == "45s temu"
    ensures TimeText(125000) == "2min temu"
    ensures TimeText(7200000) == "2h temu"
  {
  }

  /** The text determines the count and the unit: distinct labels read differently. */
  lemma TimeTextDeterminesLabel(a1: int, a2: int)
    ensures TimeText(a1) == TimeText(a2) ==> AgeInUnits(a1) == AgeInUnits(a2)
  {
    var l1, l2 := AgeInUnits(a1), AgeInUnits(a2);
    var d1, d2 := IntToDecimal(l1.count), IntToDecimal(l2.count);
    var t1, t2 := TimeText(a1), TimeText(a2);
    if t1 == t2 {
      assert t1[|t1| - 6] == UnitMark(l1.unit);
      assert t2[|t2| - 6] == UnitMark(l2.unit);
      assert l1.unit == l2.unit;
      assert d1 == t1[..|t1| - |l1.unit.Suffix()|];
      assert d2 == t2[..|t2| - |l2.unit.Suffix()|];
      IntToDecimalInjective(l1.count, l2.count);
    }
  }

  /** The character just before " temu". */
  function UnitMark(u: AgeUnit): char {
    match u
    case Seconds => 's'
    case Minutes => 'n'
    case Hours => 'h'
  }

  /** What the current-reading card shows about a reading's age at time `now`. */
  datatype Status = Status(freshness: Freshness, timeText: string)

  function StatusAt(receivedAt: Option<int>, now: int): Status {
    var age := Age(receivedAt, now);
    Status(Classify(age), TimeText(age))
  }

  /** A reading without a receipt time is shown as just received. */
  lemma UnstampedIsFresh(now: int)
    ensures StatusAt(None, now) == Status(Fresh, "0s temu")
  {
  }
}
