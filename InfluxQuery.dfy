/**
 * The query planner and the historical fetch of `fetchInfluxData`: the aggregation
 * bucket chosen from the look-back window, the Flux query text, and what the fetch
 * hands back for each kind of HTTP outcome.
 */
module InfluxQuery {
  import opened Optional
  import opened Text
  import opened CsvDecoder

  /** The aggregation windows the planner can choose. */
  datatype Bucket = FiveMinutes | TenMinutes | ThirtyMinutes | OneHour | TwoHours {

    /** The bucket's width in minutes. */
    function Minutes(): nat {
      match this
      case FiveMinutes => 5
      case TenMinutes => 10
      case ThirtyMinutes => 30
      case OneHour => 60
      case TwoHours => 120
    }

    /** The Flux duration literal for the bucket. */
    function Duration(): string {
      match this
      case FiveMinutes => "5m"
      case TenMinutes => "10m"
      case ThirtyMinutes => "30m"
      case OneHour => "1h"
      case TwoHours => "2h"
    }
  }

  /**
   * The bucket for a window of `hours` hours, first match wins: one week or more,
   * two days or more, one day or more, six hours or more, anything shorter.
   */
  function BucketFor(hours: int): (b: Bucket)
    ensures b == TwoHours <==> hours >= 168
    ensures b == OneHour <==> 48 <= hours < 168
    ensures b == ThirtyMinutes <==> 24 <= hours < 48
    ensures b == TenMinutes <==> 6 <= hours < 24
    ensures b == FiveMinutes <==> hours < 6
  {
    if hours >= 168 then TwoHours
    else if hours >= 48 then OneHour
    else if hours >= 24 then ThirtyMinutes
    else if hours >= 6 then TenMinutes
    else FiveMinutes
  }

  /** A longer window never gets a finer bucket. */
  lemma BucketMonotone(h1: int, h2: int)
    requires h1 <= h2
    ensures BucketFor(h1).Minutes() <= BucketFor(h2).Minutes()
  {
  }

  /** Distinct buckets have distinct widths and distinct duration literals. */
  lemma BucketWidthsDistinct(b1: Bucket, b2: Bucket)
    ensures b1 != b2 ==> b1.Minutes() != b2.Minutes() && b1.Duration() != b2.Duration()
  {
  }

  /** How many buckets a full window of `hours` hours spans. */
  function BucketsInWindow(hours: nat): nat {
    hours * 60 / BucketFor(hours).Minutes()
  }

  /**
   * From six hours up to a week the window spans between 36 and 167 buckets; from a
   * week on, one bucket per two hours, so the count grows with the window.
   */
  lemma BucketsInWindowBounds(hours: nat)
    ensures 6 <= hours < 168 ==> 36 <= BucketsInWindow(hours) < 168
    ensures hours >= 168 ==> BucketsInWindow(hours) == hours / 2
    ensures hours < 6 ==> BucketsInWindow(hours) == hours * 12
  {
  }

  /** The InfluxDB bucket (namespace) the dashboard is configured with. */
  const InfluxBucket: string := "weather_data"

  /** The one measurement the dashboard queries. */
  const Measurement: string := "weather_measurement"

  const MeasurementFilter: string := "|> filter(fn: (r) => r[\"_measurement\"] == \"" + Measurement + "\")"

  function FieldFilter(field: string): string {
    "|> filter(fn: (r) => r[\"_field\"] == \"" + field + "\")"
  }

  function RangeClause(hours: int): string {
    "|> range(start: -" + IntToDecimal(hours) + "h)"
  }

  function AggregateClause(hours: int): string {
    "|> aggregateWindow(every: " + BucketFor(hours).Duration() + ", fn: mean, createEmpty: false)"
  }

  const Indent: string := "\n        "

  /**
   * The Flux query `fetchInfluxData(stationId, field, hours)` posts. The station is
   * accepted but takes no part in the query.
   */
  function FluxQuery(stationId: string, field: string, hours: int): string {
    Indent + "from(bucket: \"" + InfluxBucket + "\")"
    + Indent + RangeClause(hours)
    + Indent + MeasurementFilter
    + Indent + FieldFilter(field)
    + Indent + AggregateClause(hours)
    + Indent + "|> yield(name: \"mean\")"
    + "\n    "
  }

  /** The text of the query around its four clauses. */
  const Head: string := Indent + "from(bucket: \"" + InfluxBucket + "\")" + Indent
  const Tail: string := Indent + "|> yield(name: \"mean\")" + "\n    "

  lemma QueryLayout(stationId: string, field: string, hours: int)
    ensures FluxQuery(stationId, field, hours)
         == Head + RangeClause(hours) + Indent + MeasurementFilter + Indent + FieldFilter(field)
            + Indent + AggregateClause(hours) + Tail
  {
  }

  /**
   * The query always restricts to the one measurement and the requested field, looks
   * back `hours` hours, and averages per bucket without inventing empty buckets.
   */
  lemma QueryClauses(stationId: string, field: string, hours: int)
    ensures Contains(FluxQuery(stationId, field, hours), MeasurementFilter)
    ensures Contains(FluxQuery(stationId, field, hours), FieldFilter(field))
    ensures Contains(FluxQuery(stationId, field, hours), RangeClause(hours))
    ensures Contains(FluxQuery(stationId, field, hours), AggregateClause(hours))
  {
    QueryLayout(stationId, field, hours);
    FourPiecesOccur(Head, RangeClause(hours), Indent, MeasurementFilter, Indent, FieldFilter(field), Indent, AggregateClause(hours), Tail);
  }

  /** Each of the four marked pieces occurs in their concatenation. */
  lemma FourPiecesOccur(p0: string, x1: string, p1: string, x2: string, p2: string, x3: string, p3: string, x4: string, p4: string)
    ensures var s := p0 + x1 + p1 + x2 + p2 + x3 + p3 + x4 + p4;
            Contains(s, x1) && Contains(s, x2) && Contains(s, x3) && Contains(s, x4)
  {
    var s := p0 + x1 + p1 + x2 + p2 + x3 + p3 + x4 + p4;
    assert s == p0 + x1 + (p1 + x2 + p2 + x3 + p3 + x4 + p4);
    ContainsInfix(p0, x1, p1 + x2 + p2 + x3 + p3 + x4 + p4);
    assert s == (p0 + x1 + p1) + x2 + (p2 + x3 + p3 + x4 + p4);
    ContainsInfix(p0 + x1 + p1, x2, p2 + x3 + p3 + x4 + p4);
    assert s == (p0 + x1 + p1 + x2 + p2) + x3 + (p3 + x4 + p4);
    ContainsInfix(p0 + x1 + p1 + x2 + p2, x3, p3 + x4 + p4);
    ContainsInfix(p0 + x1 + p1 + x2 + p2 + x3 + p3, x4, p4);
  }

  /** The aggregation clause names the bucket the planner chose. */
  lemma AggregateNamesBucket(hours: int)
    ensures Contains(AggregateClause(hours), BucketFor(hours).Duration())
  {
    ContainsInfix("|> aggregateWindow(every: ", BucketFor(hours).Duration(), ", fn: mean, createEmpty: false)");
  }

  /** The range clause determines the window: different windows give different clauses. */
  lemma RangeClauseInjective(h1: int, h2: int)
    ensures RangeClause(h1) == RangeClause(h2) ==> h1 == h2
  {
    var pre := "|> range(start: -";
    if RangeClause(h1) == RangeClause(h2) {
      var d1, d2 := IntToDecimal(h1), IntToDecimal(h2);
      assert |d1| == |d2|;
      assert d1 == RangeClause(h1)[|pre|..|pre| + |d1|];
      assert d2 == RangeClause(h2)[|pre|..|pre| + |d2|];
      IntToDecimalInjective(h1, h2);
    }
  }

  /** The query text does not depend on the station asked for. */
  lemma QueryIgnoresStation(s1: string, s2: string, field: string, hours: int)
    ensures FluxQuery(s1, field, hours) == FluxQuery(s2, field, hours)
  {
  }

  /** The outcome of the HTTP POST: a response with its status and body, or a transport failure. */
  datatype HttpOutcome = Response(status: int, body: string) | TransportFailure

  /** `response.ok`: a 2xx status. */
  predicate IsOk(status: int) {
    200 <= status <= 299
  }

  /**
   * `fetchInfluxData`: the network is the parameter `send`, the answer to a query text.
   * A non-2xx status or a transport failure yields `null` (here `None`); a success
   * yields the decoded body.
   */
  function FetchInfluxData(stationId: string, field: string, hours: int,
                           send: string -> HttpOutcome, parse: FloatParser): (r: Option<seq<Point>>)
    ensures r.None? <==> send(FluxQuery(stationId, field, hours)).TransportFailure?
                         || !IsOk(send(FluxQuery(stationId, field, hours)).status)
    ensures r.Some? ==> r.value == Decode(send(FluxQuery(stationId, field, hours)).body, parse)
  {
    match send(FluxQuery(stationId, field, hours))
    case TransportFailure => None
    case Response(status, body) => if IsOk(status) then Some(Decode(body, parse)) else None
  }
}
