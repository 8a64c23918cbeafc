/** `CsvProcessingService`: parse, then validate, then write or render. An
    exception from a stage ends the pipeline and reaches the caller as it is. */
module CsvService {
  import opened Text
  import opened CsvModel
  import opened CsvParser
  import opened CsvValidator
  import opened OutputWriter
  import opened CsvFormat

  datatype OutputFormat = JSON | XML

  /** `createOutputWriter`. */
  function CreateOutputWriter(format: OutputFormat): (w: Writer)
    ensures w.FormatOf() == (if format == JSON then Json else Xml)
  {
    match format
    case JSON => JsonOutputWriter
    case XML => XmlOutputWriter
  }

  /** The parse and validate stages both entry points share: the parse
      result, or the first exception. */
  function Checked(lines: seq<string>): (r: Result<ParseResult>)
    ensures r.Success? ==> r == ParseOutcome(lines) && IsValidReport(r.value)
  {
    match ParseOutcome(lines)
    case Failure(e) => Failure(e)
    case Success(pr) =>
      match Validate(pr)
      case Fail(e) => Failure(e)
      case Pass => ValidateSucceedsIff(pr); Success(pr)
  }

  /** `processFile`: the file the chosen writer writes, or the exception. */
  function ProcessFile(lines: seq<string>, outputPath: string, format: OutputFormat): Result<FileWrite> {
    match Checked(lines)
    case Failure(e) => Failure(e)
    case Success(pr) => Success(Write(CreateOutputWriter(format), pr, outputPath))
  }

  /** `processFileToString`: the rendered document, or the exception. */
  function ProcessFileToString(lines: seq<string>, format: OutputFormat): Result<Rendered> {
    match Checked(lines)
    case Failure(e) => Failure(e)
    case Success(pr) =>
      match format
      case JSON => Success(ToJsonString(pr))
      case XML => Success(ToXmlString(pr))
  }

  /** End to end: the pipeline succeeds exactly when parsing succeeds and
      the result validates; the document then holds the parse result as is,
      in the format asked for. */
  lemma ProcessSucceedsIff(lines: seq<string>, outputPath: string, format: OutputFormat)
    ensures ProcessFile(lines, outputPath, format).Success? <==>
      ParseOutcome(lines).Success? && Validate(ParseOutcome(lines).value).Pass?
    ensures ProcessFile(lines, outputPath, format).Success? ==>
      ProcessFile(lines, outputPath, format).value ==
        FileWrite(outputPath, Rendered(if format == JSON then Json else Xml,
                                       WrapperNode(Wrap(ParseOutcome(lines).value))))
  {
  }

  /** Errors propagate unchanged: a parse error is the pipeline's error, and
      so is a validation error of a parsed file; no output is produced. */
  lemma ErrorsPropagate(lines: seq<string>, outputPath: string, format: OutputFormat)
    ensures ParseOutcome(lines).Failure? ==>
      && ProcessFile(lines, outputPath, format) == Failure(ParseOutcome(lines).error)
      && ProcessFileToString(lines, format) == Failure(ParseOutcome(lines).error)
    ensures ParseOutcome(lines).Success? && Validate(ParseOutcome(lines).value).Fail? ==>
      && ProcessFile(lines, outputPath, format) == Failure(Validate(ParseOutcome(lines).value).error)
      && ProcessFileToString(lines, format) == Failure(Validate(ParseOutcome(lines).value).error)
  {
  }

  /** The two entry points agree: the same error, or the same rendering,
      the one written to the file and the other returned. */
  lemma EntryPointsAgree(lines: seq<string>, outputPath: string, format: OutputFormat)
    ensures ProcessFile(lines, outputPath, format).Success? <==> ProcessFileToString(lines, format).Success?
    ensures ProcessFile(lines, outputPath, format).Failure? ==>
      ProcessFile(lines, outputPath, format).error == ProcessFileToString(lines, format).error
    ensures ProcessFile(lines, outputPath, format).Success? ==>
      ProcessFile(lines, outputPath, format).value == FileWrite(outputPath, ProcessFileToString(lines, format).value)
  {
    if Checked(lines).Success? {
      WritersAgree(Checked(lines).value, outputPath);
    }
  }

  /** On a parsed file only the IMEI formats, the sign of the count and the
      count itself can fail validation: the blank checks never fire. */
  lemma ParsedFilesFailOnlyOnFormatOrCount(lines: seq<string>)
    requires ParseOutcome(lines).Success?
    ensures var pr := ParseOutcome(lines).value;
      Validate(pr).Pass? <==>
        && pr.trailer.recordCount >= 0
        && (forall j :: 0 <= j < |pr.deviceLines| ==>
              IsValidImei(pr.deviceLines[j].imei1) && IsValidImei(pr.deviceLines[j].imei2))
        && |pr.deviceLines| == pr.trailer.recordCount as int
  {
    var pr := ParseOutcome(lines).value;
    ParsedResultNormalised(lines);
    ValidateSucceedsIff(pr);
    assert !IsBlank(pr.header.serverID) by { assert !IsWhitespace(pr.header.serverID[0]); }
    forall j | 0 <= j < |pr.deviceLines|
      ensures !IsBlank(pr.deviceLines[j].serialNumber) && !IsBlank(pr.deviceLines[j].deviceName)
    {
      assert !IsWhitespace(pr.deviceLines[j].serialNumber[0]);
      assert !IsWhitespace(pr.deviceLines[j].deviceName[0]);
    }
  }

  /** The smallest file, `H|SERVER123` and `T|0`, is accepted, and its
      document keeps the empty list of device lines. */
  lemma SmallestFileProcessed(format: OutputFormat)
    ensures var r := ProcessFileToString(["H|SERVER123", "T|0"], format);
      && r.Success?
      && ReadWrapper(r.value.document) == Some(DeviceReportWrapper([DeviceReport("SERVER123", [])]))
  {
    var pr := ParseResult(Header("SERVER123"), [], Trailer(0));
    SmallestFile();
    assert !IsBlank("SERVER123") by { assert !IsWhitespace("SERVER123"[0]); }
    assert Validate(pr) == Pass;
    DocumentRoundTrip(Wrap(pr));
  }
}
