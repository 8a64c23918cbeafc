/** The file format written out: the inverse of the parser. A parse result
    whose fields are as the parser leaves them is printed as one H line,
    one R line per device line, and one T line, and parses back to itself. */
module CsvFormat {
  import opened Text
  import opened CsvModel
  import opened CsvParser

  function HeaderText(h: Header): string {
    HeaderPrefix + [Delimiter] + h.serverID
  }

  function RecordText(d: DeviceLine): string {
    RecordPrefix + [Delimiter] + d.imei1 + [Delimiter] + d.imei2 + [Delimiter] +
    d.serialNumber + [Delimiter] + d.deviceName
  }

  function TrailerText(t: Trailer): string {
    TrailerPrefix + [Delimiter] + IntToString(t.recordCount as int)
  }

  function RecordTexts(ds: seq<DeviceLine>): (ls: seq<string>)
    ensures |ls| == |ds| && forall i :: 0 <= i < |ds| ==> ls[i] == RecordText(ds[i])
  {
    seq(|ds|, i requires 0 <= i < |ds| => RecordText(ds[i]))
  }

  /** The lines of a file holding `pr`, header first and trailer last. */
  function FileLines(pr: ParseResult): seq<string> {
    [HeaderText(pr.header)] + RecordTexts(pr.deviceLines) + [TrailerText(pr.trailer)]
  }

  /** A parse result the format can carry: fields as the parser leaves them. */
  predicate Printable(pr: ParseResult) {
    && WellFormedField(pr.header.serverID)
    && forall j :: 0 <= j < |pr.deviceLines| ==> WellFormedLine(pr.deviceLines[j])
  }

  lemma WellFormedNotBlank(s: string)
    requires WellFormedField(s)
    ensures !IsBlank(s) && Trim(s) == s
  {
    assert !IsWhitespace(s[0]);
    TrimOfTrimmed(s);
  }

  lemma HeaderTextSplits(h: Header)
    requires WellFormedField(h.serverID)
    ensures Split(HeaderText(h), Delimiter) == ["H", h.serverID]
  {
    SplitJoin(["H", h.serverID], Delimiter);
  }

  lemma HeaderLineView(h: Header)
    requires WellFormedField(h.serverID)
    ensures View(HeaderText(h)) == HeaderView(Success(h))
  {
    var line := HeaderText(h);
    assert line[0] == 'H' && line[1] == '|';
    ClassifyByFirstTwo(line);
    HeaderTextSplits(h);
    WellFormedNotBlank(h.serverID);
  }

  lemma RecordTextSplits(d: DeviceLine)
    requires WellFormedLine(d)
    ensures Split(RecordText(d), Delimiter) == ["R", d.imei1, d.imei2, d.serialNumber, d.deviceName]
  {
    var parts := ["R", d.imei1, d.imei2, d.serialNumber, d.deviceName];
    assert Join(parts[4..], Delimiter) == d.deviceName;
    assert Join(parts[3..], Delimiter) == d.serialNumber + [Delimiter] + d.deviceName;
    assert Join(parts[2..], Delimiter) == d.imei2 + [Delimiter] + d.serialNumber + [Delimiter] + d.deviceName;
    assert Join(parts[1..], Delimiter) == d.imei1 + [Delimiter] + d.imei2 + [Delimiter] + d.serialNumber + [Delimiter] + d.deviceName;
    assert Join(parts, Delimiter) == RecordText(d);
    SplitJoin(parts, Delimiter);
  }

  lemma RecordLineView(d: DeviceLine)
    requires WellFormedLine(d)
    ensures View(RecordText(d)) == RecordView(Success(d))
  {
    var line := RecordText(d);
    assert line[0] == 'R' && line[1] == '|';
    ClassifyByFirstTwo(line);
    RecordTextSplits(d);
    WellFormedNotBlank(d.imei1);
    WellFormedNotBlank(d.imei2);
    WellFormedNotBlank(d.serialNumber);
    WellFormedNotBlank(d.deviceName);
  }

  lemma TrailerTextSplits(t: Trailer)
    ensures Split(TrailerText(t), Delimiter) == ["T", IntToString(t.recordCount as int)]
  {
    var count := IntToString(t.recordCount as int);
    IntToStringShape(t.recordCount as int);
    assert Delimiter !in count;
    SplitJoin(["T", count], Delimiter);
  }

  lemma TrailerLineView(t: Trailer)
    ensures View(TrailerText(t)) == TrailerView(Success(t))
  {
    var line := TrailerText(t);
    var count := IntToString(t.recordCount as int);
    assert line[0] == 'T' && line[1] == '|';
    ClassifyByFirstTwo(line);
    TrailerTextSplits(t);
    IntToStringShape(t.recordCount as int);
    TrimOfTrimmed(count);
    assert !IsWhitespace(count[0]);
    IntToStringRoundTrip(t.recordCount);
  }

  lemma {:induction false} KeptLinesOfNonBlank(ls: seq<string>)
    requires forall i :: 0 <= i < |ls| ==> !IsBlank(ls[i])
    ensures KeptLines(ls) == ls
    decreases |ls|
  {
    if |ls| > 0 {
      KeptLinesOfNonBlank(ls[1..]);
      assert [ls[0]] + ls[1..] == ls;
    }
  }

  /** A record line of a printed file is its record's text, not blank. */
  lemma FileRecordLine(pr: ParseResult, j: nat)
    requires Printable(pr) && 1 <= j <= |pr.deviceLines|
    ensures FileLines(pr)[j] == RecordText(pr.deviceLines[j - 1])
    ensures !IsBlank(FileLines(pr)[j])
  {
    assert RecordText(pr.deviceLines[j - 1])[0] == 'R';
  }

  lemma FileLinesNotBlank(pr: ParseResult)
    requires Printable(pr)
    ensures forall i :: 0 <= i < |FileLines(pr)| ==> !IsBlank(FileLines(pr)[i])
  {
    var ls := FileLines(pr);
    forall i | 0 <= i < |ls| ensures !IsBlank(ls[i]) {
      if i == 0 {
        assert ls[0] == HeaderText(pr.header);
        assert ls[0][0] == 'H';
      } else if i == |ls| - 1 {
        assert ls[i] == TrailerText(pr.trailer);
        assert ls[i][0] == 'T';
      } else {
        FileRecordLine(pr, i);
      }
    }
  }

  /** The views of a printed file: the header, the records, the trailer. */
  lemma FileViews(pr: ParseResult)
    requires Printable(pr)
    ensures KeptLines(FileLines(pr)) == FileLines(pr)
    ensures var vs := Views(FileLines(pr)); var k := |pr.deviceLines|;
      && |vs| == k + 2
      && vs[0] == HeaderView(Success(pr.header))
      && (forall j :: 1 <= j <= k ==> vs[j] == RecordView(Success(pr.deviceLines[j - 1])))
      && vs[k + 1] == TrailerView(Success(pr.trailer))
  {
    var ls := FileLines(pr);
    HeaderLineView(pr.header);
    TrailerLineView(pr.trailer);
    forall j | 1 <= j <= |pr.deviceLines| ensures View(ls[j]) == RecordView(Success(pr.deviceLines[j - 1])) {
      FileRecordLine(pr, j);
      RecordLineView(pr.deviceLines[j - 1]);
    }
    FileLinesNotBlank(pr);
    KeptLinesOfNonBlank(ls);
  }

  lemma {:induction false} ScanOfRecords(vs: seq<LineView>, h: Header, ds: seq<DeviceLine>, n: nat)
    requires 1 <= n <= |ds| + 1 <= |vs|
    requires vs[0] == HeaderView(Success(h))
    requires forall j :: 1 <= j <= |ds| ==> vs[j] == RecordView(Success(ds[j - 1]))
    ensures Scan(vs, n) == Success(ScanState(Some(h), ds[..n - 1], None))
    decreases n
  {
    if n > 1 {
      ScanOfRecords(vs, h, ds, n - 1);
      assert ds[..n - 2] + [ds[n - 2]] == ds[..n - 1];
    }
  }

  lemma ParseOfShapedLines(lines: seq<string>, pr: ParseResult)
    requires KeptLines(lines) == lines
    requires var vs := Views(lines); var k := |pr.deviceLines|;
      && |vs| == k + 2
      && vs[0] == HeaderView(Success(pr.header))
      && (forall j :: 1 <= j <= k ==> vs[j] == RecordView(Success(pr.deviceLines[j - 1])))
      && vs[k + 1] == TrailerView(Success(pr.trailer))
    ensures ParseOutcome(lines) == Success(pr)
  {
    var vs := Views(lines);
    var k := |pr.deviceLines|;
    ScanOfRecords(vs, pr.header, pr.deviceLines, k + 1);
    assert pr.deviceLines[..k] == pr.deviceLines;
  }

  /** Printing and parsing again gives the parse result back. */
  lemma ParseOfPrinted(pr: ParseResult)
    requires Printable(pr)
    ensures ParseOutcome(FileLines(pr)) == Success(pr)
  {
    FileViews(pr);
    ParseOfShapedLines(FileLines(pr), pr);
  }

  /** Whatever `parse` returns can be printed, and the printed file parses
      to the same result. */
  lemma ReprintParsed(lines: seq<string>)
    requires ParseOutcome(lines).Success?
    ensures Printable(ParseOutcome(lines).value)
    ensures ParseOutcome(FileLines(ParseOutcome(lines).value)) == ParseOutcome(lines)
  {
    ParsedResultNormalised(lines);
    ParseOfPrinted(ParseOutcome(lines).value);
  }

  /** The smallest accepted file: a header and a zero trailer, no records. */
  lemma SmallestFile()
    ensures ParseOutcome(["H|SERVER123", "T|0"]) == Success(ParseResult(Header("SERVER123"), [], Trailer(0)))
  {
    var pr := ParseResult(Header("SERVER123"), [], Trailer(0));
    assert IsTrimmed("SERVER123");
    assert Delimiter !in "SERVER123";
    assert HeaderText(pr.header) == "H|SERVER123";
    assert RecordTexts([]) == [];
    assert IntToString(0) == "0";
    assert TrailerText(pr.trailer) == "T|0";
    assert FileLines(pr) == ["H|SERVER123"] + [] + ["T|0"];
    ParseOfPrinted(pr);
  }
}
