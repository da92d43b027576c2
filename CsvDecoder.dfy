/**
 * The dashboard's decoder for InfluxDB's annotated CSV (`parseInfluxCSV`).
 *
 * The response is trimmed and split at line feeds; each line is then, in order,
 * skipped as an annotation (`#...`), skipped as the column-name header, skipped
 * as blank, dropped as too short, or read by fixed position: `_time` is field 5
 * and `_value` field 6. A row whose time is empty or whose value does not parse
 * is dropped. Nothing here ever fails.
 */
module CsvDecoder {
  import opened Optional
  import opened Text

  /** A point of a time series: the `_time` text as the backend sent it and the parsed value. */
  datatype Point = Point(time: string, value: real)

  /**
   * JavaScript's `parseFloat` followed by the `isNaN` test: `None` stands for NaN.
   * It is a parameter of the decoder; no property of it is assumed.
   */
  type FloatParser = string -> Option<real>

  const TimeIndex: nat := 5
  const ValueIndex: nat := 6
  const MinFields: nat := 7

  /** What the decoder does with one line. */
  datatype LineKind = Comment | Header | Blank | TooShort | Dropped | Row(point: Point)

  /** The treatment of one line, given whether a header line has been seen before it. */
  function ClassifyLine(line: string, headerFound: bool, parse: FloatParser): LineKind {
    if StartsWith(line, '#') then Comment
    else if Contains(line, "_time") && Contains(line, "_value") then Header
    else if !headerFound && Contains(line, ",result,") then Header
    else if Trim(line) == "" then Blank
    else RowKind(line, parse)
  }

  /** The treatment of a non-blank line that is neither annotation nor header. */
  function RowKind(line: string, parse: FloatParser): LineKind {
    var parts := Split(line, ',');
    if |parts| < MinFields then TooShort
    else
      var time := parts[TimeIndex];
      match parse(parts[ValueIndex])
      case Some(v) => if time != "" then Row(Point(time, v)) else Dropped
      case None => Dropped
  }

  function NextHeaderFound(kind: LineKind, headerFound: bool): bool {
    headerFound || kind == Header
  }

  function PointsOf(kind: LineKind): seq<Point> {
    if kind.Row? then [kind.point] else []
  }

  /** A line-by-line decision procedure: the decoder's body, given the header flag. */
  type Classifier = (string, bool) -> LineKind

  /** The decoder's own decision procedure for a given `parseFloat`. */
  function LineClassifier(parse: FloatParser): Classifier {
    (line: string, headerFound: bool) => ClassifyLine(line, headerFound, parse)
  }

  /**
   * The header flag just before line `i` is looked at: unset at the start, set by
   * the first header line and never cleared.
   */
  function HeaderFoundAt(lines: seq<string>, classify: Classifier, i: nat): bool
    requires i <= |lines|
    decreases i, 0
  {
    if i == 0 then false
    else NextHeaderFound(KindAt(lines, classify, i - 1), HeaderFoundAt(lines, classify, i - 1))
  }

  /** The treatment of line `i`, under the flag left by the lines before it. */
  function KindAt(lines: seq<string>, classify: Classifier, i: nat): LineKind
    requires i < |lines|
    decreases i, 1
  {
    classify(lines[i], HeaderFoundAt(lines, classify, i))
  }

  /** The points decoded from lines `i` onwards. */
  function DecodeFrom(lines: seq<string>, classify: Classifier, i: nat): seq<Point>
    requires i <= |lines|
    decreases |lines| - i
  {
    if i == |lines| then [] else PointsOf(KindAt(lines, classify, i)) + DecodeFrom(lines, classify, i + 1)
  }

  /** `csv.trim().split('\n')`. */
  function Lines(csv: string): seq<string> {
    Split(Trim(csv), '\n')
  }

  /** What `parseInfluxCSV(csv)` returns. */
  function Decode(csv: string, parse: FloatParser): seq<Point> {
    DecodeFrom(Lines(csv), LineClassifier(parse), 0)
  }

  /** `parseInfluxCSV`: the loop over the lines, with its header flag and output array. */
  method ParseInfluxCSV(csv: string, parse: FloatParser) returns (data: seq<Point>)
    ensures data == Decode(csv, parse)
  {
    var lines := Split(Trim(csv), '\n');
    ghost var classify := LineClassifier(parse);
    data := [];
    var headerFound := false;
    for i := 0 to |lines|
      invariant headerFound == HeaderFoundAt(lines, classify, i)
      invariant DecodeFrom(lines, classify, 0) == data + DecodeFrom(lines, classify, i)
    {
      ghost var kind := KindAt(lines, classify, i);
      assert kind == ClassifyLine(lines[i], headerFound, parse);
      assert HeaderFoundAt(lines, classify, i + 1) == NextHeaderFound(kind, headerFound);
      assert DecodeFrom(lines, classify, i) == PointsOf(kind) + DecodeFrom(lines, classify, i + 1);
      var emitted;
      emitted, headerFound := ReadLine(lines[i], headerFound, parse);
      data := data + emitted;
    }
  }

  /** One pass of the loop body of `parseInfluxCSV`: what the line adds and the new header flag. */
  method ReadLine(line: string, headerFound: bool, parse: FloatParser) returns (emitted: seq<Point>, found: bool)
    ensures emitted == PointsOf(ClassifyLine(line, headerFound, parse))
    ensures found == NextHeaderFound(ClassifyLine(line, headerFound, parse), headerFound)
  {
    emitted, found := [], headerFound;
    if StartsWith(line, '#') {
      return;
    }
    if Contains(line, "_time") && Contains(line, "_value") {
      found := true;
      return;
    }
    if !headerFound && Contains(line, ",result,") {
      found := true;
      return;
    }
    if Trim(line) == "" {
      return;
    }
    var parts := Split(line, ',');
    if |parts| < MinFields {
      return;
    }
    var time := parts[TimeIndex];
    var value := parse(parts[ValueIndex]);
    if time != "" && value.Some? {
      emitted := [Point(time, value.value)];
    }
  }

  /** The facts that make `line` the source of point `pt`. */
  ghost predicate IsDataRowFor(line: string, pt: Point, parse: FloatParser) {
    var parts := Split(line, ',');
    && !StartsWith(line, '#')
    && !(Contains(line, "_time") && Contains(line, "_value"))
    && Trim(line) != ""
    && |parts| >= MinFields
    && pt.time == parts[TimeIndex]
    && pt.time != ""
    && parse(parts[ValueIndex]) == Some(pt.value)
  }

  /** A line yields a point only as a data row, with time and value read at offsets 5 and 6. */
  lemma RowOrigin(line: string, headerFound: bool, parse: FloatParser)
    ensures ClassifyLine(line, headerFound, parse).Row? ==>
              IsDataRowFor(line, ClassifyLine(line, headerFound, parse).point, parse)
  {
  }

  /**
   * Conversely, a data row is read as its point, unless it is a `,result,` line met
   * before any header.
   */
  lemma RowAccepted(line: string, headerFound: bool, pt: Point, parse: FloatParser)
    requires IsDataRowFor(line, pt, parse)
    requires headerFound || !Contains(line, ",result,")
    ensures ClassifyLine(line, headerFound, parse) == Row(pt)
  {
  }

  /** An annotation line is skipped, whatever the header flag. */
  lemma CommentSkipped(line: string, headerFound: bool, parse: FloatParser)
    requires StartsWith(line, '#')
    ensures ClassifyLine(line, headerFound, parse) == Comment
    ensures NextHeaderFound(ClassifyLine(line, headerFound, parse), headerFound) == headerFound
  {
  }

  /** A non-annotation line naming both `_time` and `_value` is a header and sets the flag. */
  lemma HeaderLineSkipped(line: string, headerFound: bool, parse: FloatParser)
    requires !StartsWith(line, '#')
    requires Contains(line, "_time") && Contains(line, "_value")
    ensures ClassifyLine(line, headerFound, parse) == Header
    ensures NextHeaderFound(ClassifyLine(line, headerFound, parse), headerFound)
  {
  }

  /**
   * A line containing `,result,` (and not otherwise a header) is skipped as a header
   * only while no header has been found; afterwards it is read as a data row.
   */
  lemma ResultLineOnlyBeforeHeader(line: string, parse: FloatParser)
    requires !StartsWith(line, '#')
    requires !(Contains(line, "_time") && Contains(line, "_value"))
    requires Contains(line, ",result,")
    ensures ClassifyLine(line, false, parse) == Header
    ensures ClassifyLine(line, true, parse) == RowKind(line, parse)
  {
  }

  /** Once the header flag is set it stays set. */
  lemma {:induction false} HeaderStaysFound(lines: seq<string>, classify: Classifier, i: nat, j: nat)
    requires i <= j <= |lines|
    requires HeaderFoundAt(lines, classify, i)
    ensures HeaderFoundAt(lines, classify, j)
  {
    if i < j {
      HeaderStaysFound(lines, classify, i, j - 1);
    }
  }

  /** At most one point per line. */
  lemma {:induction false} DecodeLength(lines: seq<string>, classify: Classifier, i: nat)
    requires i <= |lines|
    ensures |DecodeFrom(lines, classify, i)| <= |lines| - i
    decreases |lines| - i
  {
    if i < |lines| {
      DecodeLength(lines, classify, i + 1);
    }
  }

  /** The indices, from `i` on, of the lines that yield a point, in increasing order. */
  ghost function OriginsFrom(lines: seq<string>, classify: Classifier, i: nat): seq<nat>
    requires i <= |lines|
    decreases |lines| - i
  {
    if i == |lines| then []
    else (if KindAt(lines, classify, i).Row? then [i] else []) + OriginsFrom(lines, classify, i + 1)
  }

  /**
   * The k-th point comes from line `OriginsFrom[k]`, the origins increase strictly (so
   * the points keep the order of their lines), and every line that yields a point is
   * among them.
   */
  lemma {:induction false} DecodeOrigins(lines: seq<string>, classify: Classifier, i: nat)
    requires i <= |lines|
    ensures |OriginsFrom(lines, classify, i)| == |DecodeFrom(lines, classify, i)|
    ensures forall k :: 0 <= k < |OriginsFrom(lines, classify, i)| ==>
              i <= OriginsFrom(lines, classify, i)[k] < |lines| &&
              KindAt(lines, classify, OriginsFrom(lines, classify, i)[k]) == Row(DecodeFrom(lines, classify, i)[k])
    ensures forall k1, k2 :: 0 <= k1 < k2 < |OriginsFrom(lines, classify, i)| ==>
              OriginsFrom(lines, classify, i)[k1] < OriginsFrom(lines, classify, i)[k2]
    ensures forall j :: i <= j < |lines| && KindAt(lines, classify, j).Row? ==> j in OriginsFrom(lines, classify, i)
    decreases |lines| - i
  {
    if i < |lines| {
      DecodeOrigins(lines, classify, i + 1);
    }
  }

  /**
   * Every decoded point comes from a distinct data row of at least seven fields, in the
   * order of the rows: its time is field 5 (non-empty) and its value the parse of field 6.
   */
  lemma PointProvenance(lines: seq<string>, parse: FloatParser)
    ensures forall k :: 0 <= k < |DecodeFrom(lines, LineClassifier(parse), 0)| ==>
              k < |OriginsFrom(lines, LineClassifier(parse), 0)| &&
              OriginsFrom(lines, LineClassifier(parse), 0)[k] < |lines| &&
              IsDataRowFor(lines[OriginsFrom(lines, LineClassifier(parse), 0)[k]],
                           DecodeFrom(lines, LineClassifier(parse), 0)[k], parse)
    ensures forall k1, k2 :: 0 <= k1 < k2 < |OriginsFrom(lines, LineClassifier(parse), 0)| ==>
              OriginsFrom(lines, LineClassifier(parse), 0)[k1] < OriginsFrom(lines, LineClassifier(parse), 0)[k2]
  {
    var classify := LineClassifier(parse);
    DecodeOrigins(lines, classify, 0);
    var o := OriginsFrom(lines, classify, 0);
    forall k | 0 <= k < |o| {
      RowOrigin(lines[o[k]], HeaderFoundAt(lines, classify, o[k]), parse);
    }
  }

  /**
   * Every data row of the response is decoded: line `j` contributes its point, at the
   * position its origin index gives.
   */
  lemma DataRowDecoded(lines: seq<string>, parse: FloatParser, j: nat, pt: Point)
    requires j < |lines|
    requires IsDataRowFor(lines[j], pt, parse)
    requires HeaderFoundAt(lines, LineClassifier(parse), j) || !Contains(lines[j], ",result,")
    ensures exists k :: 0 <= k < |DecodeFrom(lines, LineClassifier(parse), 0)| &&
              k < |OriginsFrom(lines, LineClassifier(parse), 0)| &&
              OriginsFrom(lines, LineClassifier(parse), 0)[k] == j &&
              DecodeFrom(lines, LineClassifier(parse), 0)[k] == pt
  {
    var classify := LineClassifier(parse);
    RowAccepted(lines[j], HeaderFoundAt(lines, classify, j), pt, parse);
    DecodeOrigins(lines, classify, 0);
    var o := OriginsFrom(lines, classify, 0);
    assert j in o;
    var k :| 0 <= k < |o| && o[k] == j;
    assert KindAt(lines, classify, o[k]) == Row(DecodeFrom(lines, classify, 0)[k]);
  }

  /** The decoder returns the empty sequence exactly when no line is a readable data row. */
  lemma NoRowsNoPoints(lines: seq<string>, classify: Classifier)
    ensures DecodeFrom(lines, classify, 0) == [] <==> forall j :: 0 <= j < |lines| ==> !KindAt(lines, classify, j).Row?
  {
    DecodeOrigins(lines, classify, 0);
    var o := OriginsFrom(lines, classify, 0);
    if DecodeFrom(lines, classify, 0) != [] {
      assert KindAt(lines, classify, o[0]).Row?;
    }
    if j :| 0 <= j < |lines| && KindAt(lines, classify, j).Row? {
      assert j in o;
    }
  }

  /** An empty (or all-whitespace) response decodes to no points rather than an error. */
  lemma EmptyResponse(csv: string, parse: FloatParser)
    requires forall i :: 0 <= i < |csv| ==> IsJsWhitespace(csv[i])
    ensures Decode(csv, parse) == []
  {
  }
}
