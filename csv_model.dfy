/** The records of a device report file and the errors the pipeline reports. */
module CsvModel {
  import opened Text

  /** `H|ServerID` */
  datatype Header = Header(serverID: string)

  /** `R|IMEI1|IMEI2|SerialNumber|DeviceName` */
  datatype DeviceLine = DeviceLine(imei1: string, imei2: string, serialNumber: string, deviceName: string)

  /** `T|RecordCount`; the count is a Kotlin Int. */
  datatype Trailer = Trailer(recordCount: int32)

  /** What the parser hands to the validator and the writers. */
  datatype ParseResult = ParseResult(header: Header, deviceLines: seq<DeviceLine>, trailer: Trailer)

  /** The sealed exception hierarchy: each subclass is one variant. */
  datatype CsvError =
    | InvalidFileFormat(message: string)
    | Validation(message: string)
    | MissingField(message: string)
    | TrailerCountMismatch(expected: int, actual: int)
  {
    /** The exception's message text. */
    function Message(): string {
      match this
      case InvalidFileFormat(msg) => msg
      case Validation(msg) => msg
      case MissingField(msg) => msg
      case TrailerCountMismatch(e, a) =>
        "Trailer count mismatch: expected " + IntToString(e) + ", but found " + IntToString(a) + " records"
    }
  }

  /** A value, or the exception that would have been thrown. */
  datatype Result<+T> = Success(value: T) | Failure(error: CsvError)

  /** A check that returns normally, or throws. */
  datatype Outcome = Pass | Fail(error: CsvError)
}
