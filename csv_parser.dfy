/** The line parser: blank lines dropped, each remaining line classified by
    its `H|`, `R|` or `T|` prefix and decoded, fail-fast in file order. */
module CsvParser {
  import opened Text
  import opened CsvModel

  const Delimiter: char := '|'
  const HeaderPrefix: string := "H"
  const RecordPrefix: string := "R"
  const TrailerPrefix: string := "T"

  datatype LineKind = HeaderLine | RecordLine | TrailerLine | Unrecognized

  /** The `when` of `parse`: exact prefixes only, tried in the order H, R, T. */
  function Classify(line: string): LineKind {
    if StartsWith(line, HeaderPrefix + [Delimiter]) then HeaderLine
    else if StartsWith(line, RecordPrefix + [Delimiter]) then RecordLine
    else if StartsWith(line, TrailerPrefix + [Delimiter]) then TrailerLine
    else Unrecognized
  }

  /** A line's kind is decided by its first two characters alone. */
  lemma ClassifyByFirstTwo(line: string)
    ensures Classify(line) == HeaderLine <==> |line| >= 2 && line[0] == 'H' && line[1] == '|'
    ensures Classify(line) == RecordLine <==> |line| >= 2 && line[0] == 'R' && line[1] == '|'
    ensures Classify(line) == TrailerLine <==> |line| >= 2 && line[0] == 'T' && line[1] == '|'
  {
    if |line| >= 2 {
      assert line[..2] == [line[0], line[1]];
    }
  }

  /** The lines that survive `filter { it.isNotBlank() }`, in file order. */
  function KeptLines(lines: seq<string>): (kept: seq<string>)
    ensures |kept| <= |lines|
    ensures forall i :: 0 <= i < |kept| ==> !IsBlank(kept[i])
    ensures |kept| == 0 <==> forall i :: 0 <= i < |lines| ==> IsBlank(lines[i])
    decreases |lines|
  {
    if |lines| == 0 then []
    else (if IsBlank(lines[0]) then [] else [lines[0]]) + KeptLines(lines[1..])
  }

  /** The filter on one line: a blank line is dropped, any other is kept.
      With `KeptLinesAppend` this fixes the filter on every file: each
      non-blank line survives, in file order. */
  lemma KeptLinesOfOne(line: string)
    ensures KeptLines([line]) == if IsBlank(line) then [] else [line]
  {
    assert [line][1..] == [];
  }

  /** Filtering a concatenation filters each part, in order. */
  lemma {:induction false} KeptLinesAppend(a: seq<string>, b: seq<string>)
    ensures KeptLines(a + b) == KeptLines(a) + KeptLines(b)
    decreases |a|
  {
    if |a| > 0 {
      KeptLinesAppend(a[1..], b);
      assert (a + b)[1..] == a[1..] + b;
    } else {
      assert a + b == b;
    }
  }

  /** `parseHeader`: exactly two parts, the trimmed second is the server id. */
  function ParseHeader(line: string): (r: Result<Header>)
    ensures |Split(line, Delimiter)| != 2 ==>
      r == Failure(InvalidFileFormat("Header line must have exactly 2 parts: " + line))
    ensures |Split(line, Delimiter)| == 2 && IsBlank(Trim(Split(line, Delimiter)[1])) ==>
      r == Failure(MissingField("ServerID cannot be empty"))
    ensures |Split(line, Delimiter)| == 2 && !IsBlank(Trim(Split(line, Delimiter)[1])) ==>
      r == Success(Header(Trim(Split(line, Delimiter)[1])))
  {
    var parts := Split(line, Delimiter);
    if |parts| != 2 then Failure(InvalidFileFormat("Header line must have exactly 2 parts: " + line))
    else
      var serverID := Trim(parts[1]);
      if IsBlank(serverID) then Failure(MissingField("ServerID cannot be empty"))
      else Success(Header(serverID))
  }

  /** A trimmed part of a split is a field as the parser keeps it, unless blank. */
  lemma TrimmedPartWellFormed(line: string, i: nat)
    requires i < |Split(line, Delimiter)| && !IsBlank(Trim(Split(line, Delimiter)[i]))
    ensures WellFormedField(Trim(Split(line, Delimiter)[i]))
  {
    var f := Trim(Split(line, Delimiter)[i]);
    SplitPartsFree(line, Delimiter, i);
    if Delimiter in f { TrimKeepsChars(Split(line, Delimiter)[i], Delimiter); }
  }

  /** What a successful parse of an H, R or T line yields is normalised. */
  lemma ParsedFieldsWellFormed(line: string)
    ensures ParseHeader(line).Success? ==> WellFormedField(ParseHeader(line).value.serverID)
    ensures ParseRecord(line).Success? ==> WellFormedLine(ParseRecord(line).value)
  {
    var parts := Split(line, Delimiter);
    if ParseHeader(line).Success? { TrimmedPartWellFormed(line, 1); }
    if ParseRecord(line).Success? {
      TrimmedPartWellFormed(line, 1);
      TrimmedPartWellFormed(line, 2);
      TrimmedPartWellFormed(line, 3);
      TrimmedPartWellFormed(line, 4);
    }
  }

  /** `parseRecord`: exactly five parts, parts 2-5 trimmed and non-blank. */
  function ParseRecord(line: string): (r: Result<DeviceLine>)
    ensures |Split(line, Delimiter)| != 5 ==>
      r == Failure(InvalidFileFormat("Record line must have exactly 5 parts: " + line))
    ensures var parts := Split(line, Delimiter);
      |parts| == 5 ==>
        if IsBlank(Trim(parts[1])) || IsBlank(Trim(parts[2])) || IsBlank(Trim(parts[3])) || IsBlank(Trim(parts[4]))
        then r == Failure(MissingField("All record fields must be non-empty: " + line))
        else r == Success(DeviceLine(Trim(parts[1]), Trim(parts[2]), Trim(parts[3]), Trim(parts[4])))
  {
    var parts := Split(line, Delimiter);
    if |parts| != 5 then Failure(InvalidFileFormat("Record line must have exactly 5 parts: " + line))
    else
      var imei1 := Trim(parts[1]);
      var imei2 := Trim(parts[2]);
      var serialNumber := Trim(parts[3]);
      var deviceName := Trim(parts[4]);
      if IsBlank(imei1) || IsBlank(imei2) || IsBlank(serialNumber) || IsBlank(deviceName) then
        Failure(MissingField("All record fields must be non-empty: " + line))
      else Success(DeviceLine(imei1, imei2, serialNumber, deviceName))
  }

  /** `parseTrailer`: exactly two parts, the trimmed second read as an Int. */
  function ParseTrailer(line: string): (r: Result<Trailer>)
    ensures |Split(line, Delimiter)| != 2 ==>
      r == Failure(InvalidFileFormat("Trailer line must have exactly 2 parts: " + line))
    ensures var parts := Split(line, Delimiter);
      |parts| == 2 ==>
        var countStr := Trim(parts[1]);
        && (IsBlank(countStr) ==> r == Failure(MissingField("Record count cannot be empty")))
        && (!IsBlank(countStr) && ParseInt32(countStr).None? ==>
              r == Failure(InvalidFileFormat("Invalid record count format: " + countStr)))
        && (!IsBlank(countStr) && ParseInt32(countStr).Some? ==>
              r == Success(Trailer(ParseInt32(countStr).value)))
  {
    var parts := Split(line, Delimiter);
    if |parts| != 2 then Failure(InvalidFileFormat("Trailer line must have exactly 2 parts: " + line))
    else
      var countStr := Trim(parts[1]);
      if IsBlank(countStr) then Failure(MissingField("Record count cannot be empty"))
      else match ParseInt32(countStr)
        case None => Failure(InvalidFileFormat("Invalid record count format: " + countStr))
        case Some(count) => Success(Trailer(count))
  }

  /** A field as the parser leaves it: non-empty, trimmed, free of `|`. */
  predicate WellFormedField(s: string) {
    s != [] && IsTrimmed(s) && Delimiter !in s
  }

  predicate WellFormedLine(d: DeviceLine) {
    WellFormedField(d.imei1) && WellFormedField(d.imei2) &&
    WellFormedField(d.serialNumber) && WellFormedField(d.deviceName)
  }

  // ---------------------------------------------------------------------
  // The loop of `parse`, as a function over the kept lines.

  /** A kept line as the loop body sees it: its prefix, and what the
      helper for that prefix returns on it. The helpers are pure, so
      decoding a line before the duplicate check comes to the same. */
  datatype LineView =
    | HeaderView(header: Result<Header>)
    | RecordView(record: Result<DeviceLine>)
    | TrailerView(trailer: Result<Trailer>)
    | OtherView(text: string)

  function View(line: string): (v: LineView)
    ensures v.OtherView? ==> v.text == line
  {
    match Classify(line)
    case HeaderLine => HeaderView(ParseHeader(line))
    case RecordLine => RecordView(ParseRecord(line))
    case TrailerLine => TrailerView(ParseTrailer(line))
    case Unrecognized => OtherView(line)
  }

  function Views(kept: seq<string>): (vs: seq<LineView>)
    ensures |vs| == |kept| && forall i :: 0 <= i < |kept| ==> vs[i] == View(kept[i])
  {
    seq(|kept|, i requires 0 <= i < |kept| => View(kept[i]))
  }

  /** The three local variables of `parse`. */
  datatype ScanState = ScanState(header: Option<Header>, deviceLines: seq<DeviceLine>, trailer: Option<Trailer>)

  /** One pass of the `forEachIndexed` body on the line at 0-based `index`. */
  function Step(st: ScanState, index: nat, v: LineView): Result<ScanState> {
    match v
    case HeaderView(h) =>
      if st.header.Some? then Failure(InvalidFileFormat("Multiple header lines found"))
      else (match h
            case Success(x) => Success(st.(header := Some(x)))
            case Failure(e) => Failure(e))
    case RecordView(d) =>
      (match d
       case Success(x) => Success(st.(deviceLines := st.deviceLines + [x]))
       case Failure(e) => Failure(e))
    case TrailerView(t) =>
      if st.trailer.Some? then Failure(InvalidFileFormat("Multiple trailer lines found"))
      else (match t
            case Success(x) => Success(st.(trailer := Some(x)))
            case Failure(e) => Failure(e))
    case OtherView(line) =>
      Failure(InvalidFileFormat("Invalid line format at line " + IntToString(index + 1) + ": " + line))
  }

  /** The state after the first `n` lines, or the first exception. */
  function Scan(vs: seq<LineView>, n: nat): Result<ScanState>
    requires n <= |vs|
    decreases n
  {
    if n == 0 then Success(ScanState(None, [], None))
    else match Scan(vs, n - 1)
      case Failure(e) => Failure(e)
      case Success(st) => Step(st, n - 1, vs[n - 1])
  }

  /** The `ParseResult(...)` constructor call: header checked before trailer. */
  function Finish(st: ScanState): Result<ParseResult> {
    if st.header.None? then Failure(InvalidFileFormat("Header line is missing"))
    else if st.trailer.None? then Failure(InvalidFileFormat("Trailer line is missing"))
    else Success(ParseResult(st.header.value, st.deviceLines, st.trailer.value))
  }

  /** What `parse` returns or throws for a file with these lines. */
  function ParseOutcome(lines: seq<string>): Result<ParseResult> {
    var kept := KeptLines(lines);
    if |kept| == 0 then Failure(InvalidFileFormat("File is empty"))
    else match Scan(Views(kept), |kept|)
      case Failure(e) => Failure(e)
      case Success(st) => Finish(st)
  }

  /** A blank line anywhere in the file is invisible to the parser. */
  lemma ParseIgnoresBlankLine(before: seq<string>, blank: string, after: seq<string>)
    requires IsBlank(blank)
    ensures ParseOutcome(before + [blank] + after) == ParseOutcome(before + after)
  {
    KeptLinesAppend(before + [blank], after);
    KeptLinesAppend(before, [blank]);
    KeptLinesAppend(before, after);
    assert KeptLines([blank]) == [] + KeptLines([]) by { assert [blank][1..] == []; }
    assert KeptLines(before + [blank]) == KeptLines(before);
    assert KeptLines(before + [blank] + after) == KeptLines(before + after);
  }

  lemma {:induction false} ScanFailureSticks(vs: seq<LineView>, n: nat, m: nat)
    requires n <= m <= |vs| && Scan(vs, n).Failure?
    ensures Scan(vs, m) == Scan(vs, n)
    decreases m - n
  {
    if n < m { ScanFailureSticks(vs, n, m - 1); }
  }

  /** The body of the `forEachIndexed` loop of `parse` on one kept line:
      the new values of `header`, `deviceLines` and `trailer`, or the
      exception it throws. */
  method ParseLine(header: Option<Header>, deviceLines: seq<DeviceLine>, trailer: Option<Trailer>,
                   index: nat, line: string)
    returns (r: Result<ScanState>)
    ensures r == Step(ScanState(header, deviceLines, trailer), index, View(line))
  {
    if StartsWith(line, HeaderPrefix + [Delimiter]) {
      if header.Some? {
        return Failure(InvalidFileFormat("Multiple header lines found"));
      }
      var h := ParseHeader(line);
      if h.Failure? { return Failure(h.error); }
      r := Success(ScanState(Some(h.value), deviceLines, trailer));
    } else if StartsWith(line, RecordPrefix + [Delimiter]) {
      var d := ParseRecord(line);
      if d.Failure? { return Failure(d.error); }
      r := Success(ScanState(header, deviceLines + [d.value], trailer));
    } else if StartsWith(line, TrailerPrefix + [Delimiter]) {
      if trailer.Some? {
        return Failure(InvalidFileFormat("Multiple trailer lines found"));
      }
      var t := ParseTrailer(line);
      if t.Failure? { return Failure(t.error); }
      r := Success(ScanState(header, deviceLines, Some(t.value)));
    } else {
      r := Failure(InvalidFileFormat("Invalid line format at line " + IntToString(index + 1) + ": " + line));
    }
  }

  /** `parse`, imperatively: the blank-line filter, then one loop over the
      kept lines that updates `header`, `deviceLines` and `trailer`. */
  method Parse(lines: seq<string>) returns (r: Result<ParseResult>)
    ensures r == ParseOutcome(lines)
  {
    var kept := KeptLines(lines);
    if |kept| == 0 {
      return Failure(InvalidFileFormat("File is empty"));
    }
    ghost var vs := Views(kept);
    var header: Option<Header> := None;
    var deviceLines: seq<DeviceLine> := [];
    var trailer: Option<Trailer> := None;
    var index := 0;
    while index < |kept|
      invariant 0 <= index <= |kept|
      invariant Scan(vs, index) == Success(ScanState(header, deviceLines, trailer))
    {
      var next := ParseLine(header, deviceLines, trailer, index, kept[index]);
      assert Scan(vs, index + 1) == next;
      if next.Failure? {
        ScanFailureSticks(vs, index + 1, |kept|);
        return Failure(next.error);
      }
      header, deviceLines, trailer := next.value.header, next.value.deviceLines, next.value.trailer;
      index := index + 1;
    }
    if header.None? {
      return Failure(InvalidFileFormat("Header line is missing"));
    }
    if trailer.None? {
      return Failure(InvalidFileFormat("Trailer line is missing"));
    }
    r := Success(ParseResult(header.value, deviceLines, trailer.value));
  }

  // ---------------------------------------------------------------------
  // A declarative reading of the same loop.

  function KindOf(v: LineView): LineKind {
    match v
    case HeaderView(_) => HeaderLine
    case RecordView(_) => RecordLine
    case TrailerView(_) => TrailerLine
    case OtherView(_) => Unrecognized
  }

  /** How many of the lines are of kind `k`. */
  function CountKind(vs: seq<LineView>, k: LineKind): nat
    decreases |vs|
  {
    if |vs| == 0 then 0
    else CountKind(vs[..|vs| - 1], k) + (if KindOf(vs[|vs| - 1]) == k then 1 else 0)
  }

  /** The header decoded from the last decodable H line, if any. */
  function HeaderIn(vs: seq<LineView>): Option<Header>
    decreases |vs|
  {
    if |vs| == 0 then None
    else
      var last := vs[|vs| - 1];
      if last.HeaderView? && last.header.Success? then Some(last.header.value)
      else HeaderIn(vs[..|vs| - 1])
  }

  /** The trailer decoded from the last decodable T line, if any. */
  function TrailerIn(vs: seq<LineView>): Option<Trailer>
    decreases |vs|
  {
    if |vs| == 0 then None
    else
      var last := vs[|vs| - 1];
      if last.TrailerView? && last.trailer.Success? then Some(last.trailer.value)
      else TrailerIn(vs[..|vs| - 1])
  }

  /** Every decodable R line, decoded, in file order. */
  function RecordsIn(vs: seq<LineView>): seq<DeviceLine>
    decreases |vs|
  {
    if |vs| == 0 then []
    else
      var last := vs[|vs| - 1];
      RecordsIn(vs[..|vs| - 1]) +
      (if last.RecordView? && last.record.Success? then [last.record.value] else [])
  }

  function ErrorOf<T>(r: Result<T>): Option<CsvError> {
    match r
    case Success(_) => None
    case Failure(e) => Some(e)
  }

  /** The exception the line at 0-based `i` raises, given the lines before
      it: an unknown prefix, a second H or T line (before its content is
      looked at), or a malformed H, R or T line. */
  function LineError(vs: seq<LineView>, i: nat): Option<CsvError>
    requires i < |vs|
  {
    match vs[i]
    case HeaderView(h) =>
      if CountKind(vs[..i], HeaderLine) > 0 then Some(InvalidFileFormat("Multiple header lines found"))
      else ErrorOf(h)
    case RecordView(d) => ErrorOf(d)
    case TrailerView(t) =>
      if CountKind(vs[..i], TrailerLine) > 0 then Some(InvalidFileFormat("Multiple trailer lines found"))
      else ErrorOf(t)
    case OtherView(line) =>
      Some(InvalidFileFormat("Invalid line format at line " + IntToString(i + 1) + ": " + line))
  }

  predicate NoLineErrors(vs: seq<LineView>) {
    forall i :: 0 <= i < |vs| ==> LineError(vs, i).None?
  }

  predicate FirstLineError(vs: seq<LineView>, i: nat) {
    && i < |vs|
    && LineError(vs, i).Some?
    && forall j :: 0 <= j < i ==> LineError(vs, j).None?
  }

  lemma PrefixOfPrefix(vs: seq<LineView>, n: nat)
    requires n < |vs|
    ensures vs[..n + 1][..n] == vs[..n]
    ensures vs[..n + 1][n] == vs[n]
    ensures |vs[..n + 1]| == n + 1
  {
  }

  /** With no failing line among the first `n`, at most one H and one T line
      occur there, and the decoded header/trailer is present exactly when
      such a line is. */
  lemma {:induction false} SectionsInPrefix(vs: seq<LineView>, n: nat)
    requires n <= |vs|
    requires forall j :: 0 <= j < n ==> LineError(vs, j).None?
    ensures CountKind(vs[..n], HeaderLine) <= 1 && CountKind(vs[..n], TrailerLine) <= 1
    ensures HeaderIn(vs[..n]).Some? <==> CountKind(vs[..n], HeaderLine) > 0
    ensures TrailerIn(vs[..n]).Some? <==> CountKind(vs[..n], TrailerLine) > 0
    decreases n
  {
    if n > 0 {
      SectionsInPrefix(vs, n - 1);
      PrefixOfPrefix(vs, n - 1);
      assert LineError(vs, n - 1).None?;
    }
  }

  /** The loop state after `n` lines is the declarative one while no line
      has failed, and the first failure once one has. */
  lemma {:induction false} ScanMatchesSpec(vs: seq<LineView>, n: nat)
    requires n <= |vs|
    ensures (forall j :: 0 <= j < n ==> LineError(vs, j).None?) ==>
      Scan(vs, n) == Success(ScanState(HeaderIn(vs[..n]), RecordsIn(vs[..n]), TrailerIn(vs[..n])))
    ensures forall i :: 0 <= i < n && FirstLineError(vs, i) ==> Scan(vs, n) == Failure(LineError(vs, i).value)
    decreases n
  {
    if n > 0 {
      ScanMatchesSpec(vs, n - 1);
      PrefixOfPrefix(vs, n - 1);
      if forall j :: 0 <= j < n - 1 ==> LineError(vs, j).None? {
        SectionsInPrefix(vs, n - 1);
        var p, q := vs[..n - 1], vs[..n];
        assert Scan(vs, n) == Step(ScanState(HeaderIn(p), RecordsIn(p), TrailerIn(p)), n - 1, vs[n - 1]);
        assert HeaderIn(q) == (if vs[n - 1].HeaderView? && vs[n - 1].header.Success? then Some(vs[n - 1].header.value) else HeaderIn(p));
        assert TrailerIn(q) == (if vs[n - 1].TrailerView? && vs[n - 1].trailer.Success? then Some(vs[n - 1].trailer.value) else TrailerIn(p));
        assert RecordsIn(q) == RecordsIn(p) + (if vs[n - 1].RecordView? && vs[n - 1].record.Success? then [vs[n - 1].record.value] else []);
        if LineError(vs, n - 1).None? {
          match vs[n - 1]
          case HeaderView(h) =>
            assert CountKind(p, HeaderLine) == 0 && h.Success?;
            assert HeaderIn(p).None? && RecordsIn(q) == RecordsIn(p);
          case RecordView(d) =>
            assert d.Success?;
          case TrailerView(t) =>
            assert CountKind(p, TrailerLine) == 0 && t.Success?;
            assert TrailerIn(p).None? && RecordsIn(q) == RecordsIn(p);
          case OtherView(_) =>
        }
        forall i | 0 <= i < n && FirstLineError(vs, i)
          ensures Scan(vs, n) == Failure(LineError(vs, i).value)
        {
          assert i == n - 1;
        }
      }
    }
  }

  /** Fail-fast: the first failing kept line decides the outcome, and the
      lines after it are never looked at. */
  lemma ParseStopsAtFirstBadLine(lines: seq<string>, i: nat)
    requires FirstLineError(Views(KeptLines(lines)), i)
    ensures ParseOutcome(lines) == Failure(LineError(Views(KeptLines(lines)), i).value)
  {
    var vs := Views(KeptLines(lines));
    ScanMatchesSpec(vs, |vs|);
  }

  /** When no kept line fails: a missing header is reported before a missing
      trailer, and otherwise the result holds the one header, the one
      trailer and every record line in file order. */
  lemma ParseWithoutLineErrors(lines: seq<string>)
    requires |KeptLines(lines)| > 0 && NoLineErrors(Views(KeptLines(lines)))
    ensures var vs := Views(KeptLines(lines));
      && CountKind(vs, HeaderLine) <= 1 && CountKind(vs, TrailerLine) <= 1
      && (CountKind(vs, HeaderLine) == 0 ==>
           ParseOutcome(lines) == Failure(InvalidFileFormat("Header line is missing")))
      && (CountKind(vs, HeaderLine) == 1 && CountKind(vs, TrailerLine) == 0 ==>
           ParseOutcome(lines) == Failure(InvalidFileFormat("Trailer line is missing")))
      && (CountKind(vs, HeaderLine) == 1 && CountKind(vs, TrailerLine) == 1 ==>
           HeaderIn(vs).Some? && TrailerIn(vs).Some? &&
           ParseOutcome(lines) == Success(ParseResult(HeaderIn(vs).value, RecordsIn(vs), TrailerIn(vs).value)))
  {
    var vs := Views(KeptLines(lines));
    ScanMatchesSpec(vs, |vs|);
    SectionsInPrefix(vs, |vs|);
    assert vs[..|vs|] == vs;
  }

  /** The input shape `parse` accepts. */
  predicate WellFormedLines(vs: seq<LineView>) {
    && |vs| > 0
    && NoLineErrors(vs)
    && CountKind(vs, HeaderLine) == 1
    && CountKind(vs, TrailerLine) == 1
  }

  lemma FindFirstLineError(vs: seq<LineView>) returns (i: nat)
    requires !NoLineErrors(vs)
    ensures FirstLineError(vs, i)
  {
    var j :| 0 <= j < |vs| && LineError(vs, j).Some?;
    i := 0;
    while LineError(vs, i).None?
      invariant i <= j
      invariant forall k :: 0 <= k < i ==> LineError(vs, k).None?
      decreases j - i
    {
      i := i + 1;
    }
  }

  /** `parse` returns normally exactly on well-formed input, and then with
      the declaratively described result. */
  lemma ParseSucceedsIff(lines: seq<string>)
    ensures ParseOutcome(lines).Success? <==> WellFormedLines(Views(KeptLines(lines)))
    ensures var vs := Views(KeptLines(lines));
      ParseOutcome(lines).Success? ==>
        HeaderIn(vs).Some? && TrailerIn(vs).Some? &&
        ParseOutcome(lines).value == ParseResult(HeaderIn(vs).value, RecordsIn(vs), TrailerIn(vs).value)
  {
    var vs := Views(KeptLines(lines));
    if |vs| > 0 {
      if NoLineErrors(vs) {
        ParseWithoutLineErrors(lines);
      } else {
        var i := FindFirstLineError(vs);
        ParseStopsAtFirstBadLine(lines, i);
      }
    }
  }

  /** Without failing lines, one record is collected per R line. */
  lemma {:induction false} RecordsInCount(vs: seq<LineView>, n: nat)
    requires n <= |vs|
    requires forall j :: 0 <= j < n ==> LineError(vs, j).None?
    ensures |RecordsIn(vs[..n])| == CountKind(vs[..n], RecordLine)
    decreases n
  {
    if n > 0 {
      RecordsInCount(vs, n - 1);
      PrefixOfPrefix(vs, n - 1);
      assert LineError(vs, n - 1).None?;
    }
  }

  /** Records depend only on the R lines: any other line, wherever it
      stands, leaves the collected records as they are. */
  lemma {:induction false} RecordsInAppend(a: seq<LineView>, b: seq<LineView>)
    ensures RecordsIn(a + b) == RecordsIn(a) + RecordsIn(b)
    decreases |b|
  {
    if |b| == 0 {
      assert a + b == a;
    } else {
      RecordsInAppend(a, b[..|b| - 1]);
      assert (a + b)[..|a + b| - 1] == a + b[..|b| - 1];
    }
  }

  lemma RecordsInIgnoresOtherLines(a: seq<LineView>, v: LineView, b: seq<LineView>)
    requires !v.RecordView?
    ensures RecordsIn(a + [v] + b) == RecordsIn(a + b)
  {
    RecordsInAppend(a + [v], b);
    RecordsInAppend(a, [v]);
    RecordsInAppend(a, b);
    assert RecordsIn([v]) == RecordsIn([]) by { assert [v][..0] == []; }
  }

  // ---------------------------------------------------------------------
  // What the parser hands on is normalised.

  /** Every value decoded from a line is trimmed, non-empty and `|`-free. */
  predicate ViewsNormalised(vs: seq<LineView>) {
    forall i :: 0 <= i < |vs| ==>
      && (vs[i].HeaderView? && vs[i].header.Success? ==> WellFormedField(vs[i].header.value.serverID))
      && (vs[i].RecordView? && vs[i].record.Success? ==> WellFormedLine(vs[i].record.value))
  }

  lemma ViewsOfKeptNormalised(kept: seq<string>)
    ensures ViewsNormalised(Views(kept))
  {
    forall i | 0 <= i < |kept| {
      ParsedFieldsWellFormed(kept[i]);
    }
  }

  lemma {:induction false} SectionsNormalised(vs: seq<LineView>)
    requires ViewsNormalised(vs)
    ensures HeaderIn(vs).Some? ==> WellFormedField(HeaderIn(vs).value.serverID)
    ensures forall j :: 0 <= j < |RecordsIn(vs)| ==> WellFormedLine(RecordsIn(vs)[j])
    decreases |vs|
  {
    if |vs| > 0 {
      var p := vs[..|vs| - 1];
      assert ViewsNormalised(p) by {
        forall i | 0 <= i < |p| ensures p[i] == vs[i] { }
      }
      SectionsNormalised(p);
    }
  }

  /** A header, and every field of every device line, that `parse` returns
      is non-blank and trimmed: the validator's blank checks cannot fire on
      what the parser produced. */
  lemma ParsedResultNormalised(lines: seq<string>)
    requires ParseOutcome(lines).Success?
    ensures WellFormedField(ParseOutcome(lines).value.header.serverID)
    ensures forall j :: 0 <= j < |ParseOutcome(lines).value.deviceLines| ==>
      WellFormedLine(ParseOutcome(lines).value.deviceLines[j])
  {
    ParseSucceedsIff(lines);
    ViewsOfKeptNormalised(KeptLines(lines));
    SectionsNormalised(Views(KeptLines(lines)));
  }
}
