/** The checks run on a parsed file: header and trailer sanity, every device
    line in order, and last the trailer's record count. */
module CsvValidator {
  import opened Text
  import opened CsvModel

  /** The regular expression `\d{n}` matched against the whole of `s`, one
      quantified atom at a time. Java's `\d` is the ASCII digits only. */
  function MatchesDigits(s: string, n: nat): (r: bool)
    ensures r <==> |s| == n && AllDigits(s)
    decreases n
  {
    if n == 0 then s == []
    else |s| > 0 && IsDigit(s[0]) && MatchesDigits(s[1..], n - 1)
  }

  /** `isValidImei`: the whole string matches `\d{15}`. */
  function IsValidImei(imei: string): bool {
    MatchesDigits(imei, 15)
  }

  /** What a valid device line is, independently of the order of the checks. */
  predicate IsValidDeviceLine(d: DeviceLine) {
    && |d.imei1| == 15 && AllDigits(d.imei1)
    && |d.imei2| == 15 && AllDigits(d.imei2)
    && !IsBlank(d.serialNumber)
    && !IsBlank(d.deviceName)
  }

  /** A blank string is never fifteen digits: the blank checks only decide
      which message an invalid IMEI gets. */
  lemma BlankIsNoImei(s: string)
    requires IsBlank(s)
    ensures !(|s| == 15 && AllDigits(s))
  {
    if |s| == 15 { assert IsWhitespace(s[0]); }
  }

  /** The message `validateDeviceLine` throws with, or None when it returns.
      The blank checks come first, field by field, then the two formats. */
  function DeviceLineProblem(d: DeviceLine): (r: Option<string>)
    ensures r.None? <==> IsValidDeviceLine(d)
    ensures IsBlank(d.imei1) ==> r == Some("IMEI1 cannot be blank")
    ensures !IsBlank(d.imei1) && IsBlank(d.imei2) ==> r == Some("IMEI2 cannot be blank")
    ensures !IsBlank(d.imei1) && !IsBlank(d.imei2) && IsBlank(d.serialNumber) ==>
      r == Some("Serial number cannot be blank")
    ensures !IsBlank(d.imei1) && !IsBlank(d.imei2) && !IsBlank(d.serialNumber) && IsBlank(d.deviceName) ==>
      r == Some("Device name cannot be blank")
    ensures (!IsBlank(d.imei1) && !IsBlank(d.imei2) && !IsBlank(d.serialNumber) && !IsBlank(d.deviceName)
             && !IsValidImei(d.imei1)) ==>
      r == Some("Invalid IMEI1 format: " + d.imei1)
    ensures (!IsBlank(d.imei1) && !IsBlank(d.imei2) && !IsBlank(d.serialNumber) && !IsBlank(d.deviceName)
             && IsValidImei(d.imei1) && !IsValidImei(d.imei2)) ==>
      r == Some("Invalid IMEI2 format: " + d.imei2)
  {
    if IsBlank(d.imei1) then BlankIsNoImei(d.imei1); Some("IMEI1 cannot be blank")
    else if IsBlank(d.imei2) then BlankIsNoImei(d.imei2); Some("IMEI2 cannot be blank")
    else if IsBlank(d.serialNumber) then Some("Serial number cannot be blank")
    else if IsBlank(d.deviceName) then Some("Device name cannot be blank")
    else if !IsValidImei(d.imei1) then Some("Invalid IMEI1 format: " + d.imei1)
    else if !IsValidImei(d.imei2) then Some("Invalid IMEI2 format: " + d.imei2)
    else None
  }


  /** The wrapped message of the device line at 0-based `index`. */
  function PositionMessage(index: nat, problem: string): string {
    "Invalid device line at position " + IntToString(index + 1) + ": " + problem
  }

  /** The `forEachIndexed` over the device lines from 0-based `k` on: the
      first failing line is reported with its 1-based position. */
  function CheckLinesFrom(ls: seq<DeviceLine>, k: nat): (r: Outcome)
    requires k <= |ls|
    ensures r.Pass? <==> forall j :: k <= j < |ls| ==> IsValidDeviceLine(ls[j])
    ensures r.Fail? ==> r.error.Validation?
    decreases |ls| - k
  {
    if k == |ls| then Pass
    else match DeviceLineProblem(ls[k])
      case Some(problem) => Fail(Validation(PositionMessage(k, problem)))
      case None => CheckLinesFrom(ls, k + 1)
  }

  /** `validateDataIntegrity`: server id, then the sign of the count, then the lines. */
  function ValidateDataIntegrity(pr: ParseResult): (r: Outcome)
    ensures r.Pass? <==>
      && !IsBlank(pr.header.serverID)
      && pr.trailer.recordCount >= 0
      && forall j :: 0 <= j < |pr.deviceLines| ==> IsValidDeviceLine(pr.deviceLines[j])
    ensures r.Fail? ==> r.error.Validation?
    ensures IsBlank(pr.header.serverID) ==> r == Fail(Validation("Server ID cannot be blank"))
    ensures !IsBlank(pr.header.serverID) && pr.trailer.recordCount < 0 ==>
      r == Fail(Validation("Record count cannot be negative"))
  {
    if IsBlank(pr.header.serverID) then Fail(Validation("Server ID cannot be blank"))
    else if pr.trailer.recordCount < 0 then Fail(Validation("Record count cannot be negative"))
    else CheckLinesFrom(pr.deviceLines, 0)
  }

  /** `validateRecordCount`: the trailer's count against the lines collected. */
  function ValidateRecordCount(pr: ParseResult): (r: Outcome)
    ensures r.Pass? <==> |pr.deviceLines| == pr.trailer.recordCount as int
    ensures r.Fail? ==>
      r.error == TrailerCountMismatch(pr.trailer.recordCount as int, |pr.deviceLines|)
  {
    if |pr.deviceLines| != pr.trailer.recordCount as int then
      Fail(TrailerCountMismatch(pr.trailer.recordCount as int, |pr.deviceLines|))
    else Pass
  }

  /** `validate`: data integrity first, the count check only after it. */
  function Validate(pr: ParseResult): Outcome {
    match ValidateDataIntegrity(pr)
    case Fail(e) => Fail(e)
    case Pass => ValidateRecordCount(pr)
  }

  /** What a file the validator accepts looks like. */
  predicate IsValidReport(pr: ParseResult) {
    && !IsBlank(pr.header.serverID)
    && pr.trailer.recordCount >= 0
    && (forall j :: 0 <= j < |pr.deviceLines| ==> IsValidDeviceLine(pr.deviceLines[j]))
    && |pr.deviceLines| == pr.trailer.recordCount as int
  }

  /** `validate` returns normally exactly on valid reports, and otherwise
      throws one of the two exception kinds it declares. */
  lemma ValidateSucceedsIff(pr: ParseResult)
    ensures Validate(pr).Pass? <==> IsValidReport(pr)
    ensures Validate(pr).Fail? ==> Validate(pr).error.Validation? || Validate(pr).error.TrailerCountMismatch?
  {
  }

  lemma {:induction false} CheckLinesFromFirstBad(ls: seq<DeviceLine>, k: nat, i: nat)
    requires k <= i < |ls|
    requires forall j :: k <= j < i ==> IsValidDeviceLine(ls[j])
    requires !IsValidDeviceLine(ls[i])
    ensures CheckLinesFrom(ls, k) == Fail(Validation(PositionMessage(i, DeviceLineProblem(ls[i]).value)))
    decreases i - k
  {
    var p := DeviceLineProblem(ls[k]);
    if k < i {
      assert IsValidDeviceLine(ls[k]);
      assert p.None?;
      CheckLinesFromFirstBad(ls, k + 1, i);
    } else {
      assert p.Some?;
    }
  }

  /** Fail-fast over the lines: with a sound header and trailer, the first
      invalid device line is reported with its 1-based position and its own
      message, whatever comes after it and whatever the count says. */
  lemma ValidateReportsFirstBadLine(pr: ParseResult, i: nat)
    requires !IsBlank(pr.header.serverID) && pr.trailer.recordCount >= 0
    requires i < |pr.deviceLines| && !IsValidDeviceLine(pr.deviceLines[i])
    requires forall j :: 0 <= j < i ==> IsValidDeviceLine(pr.deviceLines[j])
    ensures Validate(pr) == Fail(Validation(PositionMessage(i, DeviceLineProblem(pr.deviceLines[i]).value)))
  {
    CheckLinesFromFirstBad(pr.deviceLines, 0, i);
  }

  /** The count mismatch is the last check: it is reported only when every
      other check passes, and then with both numbers. */
  lemma ValidateMismatchLast(pr: ParseResult)
    requires ValidateDataIntegrity(pr).Pass?
    ensures Validate(pr).Pass? || Validate(pr) == Fail(TrailerCountMismatch(pr.trailer.recordCount as int, |pr.deviceLines|))
    ensures Validate(pr).Fail? <==> |pr.deviceLines| != pr.trailer.recordCount as int
  {
  }

  /** A negative count is refused as such, before any line is looked at and
      even when there are no lines. */
  lemma NegativeCountRefused(pr: ParseResult)
    requires !IsBlank(pr.header.serverID) && pr.trailer.recordCount < 0
    ensures Validate(pr) == Fail(Validation("Record count cannot be negative"))
  {
  }
}
