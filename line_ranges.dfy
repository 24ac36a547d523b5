/**
 * The `highlight_lines` decorator: a comma-separated list of line numbers
 * and `start-end` ranges ("1,3-5"). The Lumis adapter expands it into a list
 * of line numbers; the Autumnus adapter keeps it as a list of inclusive
 * ranges. Segments that do not parse are skipped, and a range whose start
 * exceeds its end is kept but covers no line.
 */
module LineRanges {
  import opened Wrappers
  import opened Text

  /** `RangeInclusive<usize>`: the lines `start..=end`. */
  datatype LineRange = LineRange(start: nat, end: nat)

  /** The numbers `s..=e` in increasing order; none when `s > e`. */
  function Interval(s: nat, e: nat): (r: seq<nat>)
    ensures |r| == if s <= e then e - s + 1 else 0
    ensures forall i :: 0 <= i < |r| ==> r[i] == s + i
    decreases e + 1 - s
  {
    if s > e then [] else [s] + Interval(s + 1, e)
  }

  function Expand(r: LineRange): seq<nat> {
    Interval(r.start, r.end)
  }

  /** The lines covered by a list of ranges, range by range. */
  function ExpandAll(rs: seq<LineRange>): seq<nat>
    decreases |rs|
  {
    if |rs| == 0 then [] else ExpandAll(rs[..|rs| - 1]) + Expand(rs[|rs| - 1])
  }

  /** The Lumis reading of one comma-separated segment. */
  function SegmentLines(part: string): seq<nat> {
    var part := Trim(part);
    match SplitOnce(part, '-')
    case Some((start, end)) =>
      (match (ParseUsize(Trim(start)), ParseUsize(Trim(end)))
       case (Some(s), Some(e)) => Interval(s, e)
       case _ => [])
    case None =>
      (match ParseUsize(part)
       case Some(n) => [n]
       case None => [])
  }

  function LinesOfSegments(parts: seq<string>): seq<nat>
    decreases |parts|
  {
    if |parts| == 0 then [] else LinesOfSegments(parts[..|parts| - 1]) + SegmentLines(parts[|parts| - 1])
  }

  /** The line numbers a `highlight_lines` value selects, as the Lumis adapter reads it. */
  function HighlightLines(spec: string): seq<nat> {
    LinesOfSegments(Split(spec, ','))
  }

  /** The Lumis adapter's `parse_highlight_lines`. */
  method ParseHighlightLines(lineSpec: string) returns (lines: seq<nat>)
    ensures lines == HighlightLines(lineSpec)
  {
    var parts := Split(lineSpec, ',');
    lines := [];
    var i := 0;
    while i < |parts|
      invariant 0 <= i <= |parts|
      invariant lines == LinesOfSegments(parts[..i])
    {
      assert parts[..i + 1][..i] == parts[..i];
      lines := PushSegment(lines, parts[i]);
      i := i + 1;
    }
    assert parts[..i] == parts;
  }

  /** One iteration of `parse_highlight_lines`: the lines of one segment pushed in order. */
  method PushSegment(lines: seq<nat>, part: string) returns (r: seq<nat>)
    ensures r == lines + SegmentLines(part)
  {
    r := lines;
    var part := Trim(part);
    match SplitOnce(part, '-') {
      case Some((start, end)) =>
        var s, e := ParseUsize(Trim(start)), ParseUsize(Trim(end));
        if s.Some? && e.Some? {
          r := PushInterval(r, s.value, e.value);
        }
      case None =>
        var n := ParseUsize(part);
        if n.Some? {
          r := r + [n.value];
        }
    }
  }

  /** `for line in s..=e { lines.push(line) }`. */
  method PushInterval(lines: seq<nat>, s: nat, e: nat) returns (r: seq<nat>)
    ensures r == lines + Interval(s, e)
  {
    r := lines;
    var line := s;
    while line <= e
      invariant s <= line && (line <= e + 1 || line == s)
      invariant |r| == |lines| + (line - s)
      invariant r[..|lines|] == lines
      invariant forall k :: |lines| <= k < |r| ==> r[k] == s + (k - |lines|)
      decreases e + 1 - line
    {
      r := r + [line];
      line := line + 1;
    }
    assert r == lines + Interval(s, e);
  }

  /** The Autumnus reading of one segment: a range, or nothing when it does not parse. */
  function SegmentRange(part: string): Option<LineRange> {
    var part := Trim(part);
    match SplitOnce(part, '-')
    case Some((start, end)) =>
      (match (ParseUsize(Trim(start)), ParseUsize(Trim(end)))
       case (Some(s), Some(e)) => Some(LineRange(s, e))
       case _ => None)
    case None =>
      (match ParseUsize(part)
       case Some(n) => Some(LineRange(n, n))
       case None => None)
  }

  function RangesOfSegments(parts: seq<string>): seq<LineRange>
    decreases |parts|
  {
    if |parts| == 0 then []
    else
      var last := SegmentRange(parts[|parts| - 1]);
      RangesOfSegments(parts[..|parts| - 1]) + (if last.Some? then [last.value] else [])
  }

  /** The Autumnus adapter's `parse_highlight_lines`: one range per segment that parses. */
  function HighlightRanges(spec: string): seq<LineRange> {
    RangesOfSegments(Split(spec, ','))
  }

  lemma SegmentAgrees(part: string)
    ensures SegmentLines(part) == (if SegmentRange(part).Some? then Expand(SegmentRange(part).value) else [])
  {
  }

  /** Both adapters select the same lines from the same decorator value. */
  lemma {:induction false} RangesCoverHighlightLines(parts: seq<string>)
    ensures ExpandAll(RangesOfSegments(parts)) == LinesOfSegments(parts)
    decreases |parts|
  {
    if |parts| > 0 {
      var init := parts[..|parts| - 1];
      var last := parts[|parts| - 1];
      RangesCoverHighlightLines(init);
      SegmentAgrees(last);
      var rs := RangesOfSegments(init);
      var r := SegmentRange(last);
      if r.Some? {
        assert RangesOfSegments(parts) == rs + [r.value];
        assert (rs + [r.value])[..|rs|] == rs;
      } else {
        assert RangesOfSegments(parts) == rs;
      }
    }
  }

  lemma HighlightRangesAgree(spec: string)
    ensures ExpandAll(HighlightRanges(spec)) == HighlightLines(spec)
  {
    RangesCoverHighlightLines(Split(spec, ','));
  }

  /** The canonical text of a range: `n` for a single line, `s-e` otherwise. */
  function RangeText(r: LineRange): string {
    if r.start == r.end then NatToString(r.start)
    else NatToString(r.start) + "-" + NatToString(r.end)
  }

  function RangesText(rs: seq<LineRange>): string
    decreases |rs|
  {
    if |rs| == 0 then ""
    else if |rs| == 1 then RangeText(rs[0])
    else RangesText(rs[..|rs| - 1]) + "," + RangeText(rs[|rs| - 1])
  }

  predicate InUsize(rs: seq<LineRange>) {
    forall i :: 0 <= i < |rs| ==> rs[i].start <= USIZE_MAX && rs[i].end <= USIZE_MAX
  }

  lemma SegmentOfRangeText(r: LineRange)
    requires r.start <= USIZE_MAX && r.end <= USIZE_MAX
    ensures ',' !in RangeText(r)
    ensures SegmentRange(RangeText(r)) == Some(r)
  {
    var s, e := NatToString(r.start), NatToString(r.end);
    DigitsOfNatToString(r.start);
    DigitsOfNatToString(r.end);
    DigitsLackChar(s, ',');
    DigitsLackChar(s, '-');
    DigitsLackChar(e, ',');
    ParseNatToString(r.start);
    ParseNatToString(r.end);
    TrimDigits(s);
    TrimDigits(e);
    if r.start == r.end {
      SplitOnceSpec(s, '-');
    } else {
      var t := s + "-" + e;
      SplitOnceAt(s, e, '-');
      assert t == s + ['-'] + e;
      assert IsDigit(t[0]) && t[|t| - 1] == e[|e| - 1] && IsDigit(e[|e| - 1]);
      TrimNoop(t);
    }
  }

  function RangeTexts(rs: seq<LineRange>): seq<string> {
    seq(|rs|, i requires 0 <= i < |rs| => RangeText(rs[i]))
  }

  lemma {:induction false} RangesTextIsJoin(rs: seq<LineRange>)
    requires |rs| >= 1
    ensures RangesText(rs) == Join(RangeTexts(rs), ',')
    decreases |rs|
  {
    if |rs| > 1 {
      var init := rs[..|rs| - 1];
      RangesTextIsJoin(init);
      JoinSnoc(RangeTexts(init), RangeText(rs[|rs| - 1]), ',');
      assert RangeTexts(rs) == RangeTexts(init) + [RangeText(rs[|rs| - 1])];
    }
  }

  lemma {:induction false} JoinSnoc(parts: seq<string>, last: string, c: char)
    requires |parts| >= 1
    ensures Join(parts + [last], c) == Join(parts, c) + [c] + last
    decreases |parts|
  {
    if |parts| > 1 {
      JoinSnoc(parts[1..], last, c);
      assert (parts + [last])[1..] == parts[1..] + [last];
    }
  }

  lemma RangeTextsSnoc(rs: seq<LineRange>, r: LineRange)
    ensures RangeTexts(rs + [r]) == RangeTexts(rs) + [RangeText(r)]
  {
  }

  lemma RangesOfSegmentsSnoc(parts: seq<string>, part: string, r: LineRange)
    requires SegmentRange(part) == Some(r)
    ensures RangesOfSegments(parts + [part]) == RangesOfSegments(parts) + [r]
  {
    assert (parts + [part])[..|parts|] == parts;
  }

  lemma RangesOfRangeTextsSnoc(rs: seq<LineRange>, r: LineRange)
    requires r.start <= USIZE_MAX && r.end <= USIZE_MAX
    ensures RangesOfSegments(RangeTexts(rs + [r])) == RangesOfSegments(RangeTexts(rs)) + [r]
  {
    RangeTextsSnoc(rs, r);
    SegmentOfRangeText(r);
    RangesOfSegmentsSnoc(RangeTexts(rs), RangeText(r), r);
  }

  lemma {:induction false} RangesOfRangeTexts(rs: seq<LineRange>)
    requires InUsize(rs)
    ensures RangesOfSegments(RangeTexts(rs)) == rs
    decreases |rs|
  {
    if |rs| > 0 {
      var init, last := rs[..|rs| - 1], rs[|rs| - 1];
      assert InUsize(init);
      RangesOfRangeTexts(init);
      assert init + [last] == rs;
      RangesOfRangeTextsSnoc(init, last);
    }
  }

  /**
   * Writing ranges in their canonical form and reading them back with the
   * Autumnus parser gives the same ranges; the Lumis parser then gives the
   * lines they cover.
   */
  lemma RangesRoundTrip(rs: seq<LineRange>)
    requires InUsize(rs)
    ensures HighlightRanges(RangesText(rs)) == rs
    ensures HighlightLines(RangesText(rs)) == ExpandAll(rs)
  {
    if |rs| == 0 {
      assert Split("", ',') == [""];
      assert SegmentRange("").None?;
    } else {
      RangesTextIsJoin(rs);
      var texts := RangeTexts(rs);
      forall i | 0 <= i < |texts|
        ensures ',' !in texts[i]
      {
        SegmentOfRangeText(rs[i]);
      }
      SplitJoin(texts, ',');
      RangesOfRangeTexts(rs);
    }
    HighlightRangesAgree(RangesText(rs));
  }
}
