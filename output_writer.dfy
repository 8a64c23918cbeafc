/** The two output writers. Both project a parse result onto the same
    document, a wrapper holding one device report; the JSON or XML text
    Jackson renders from it is not modelled, so an output is the document
    together with the format it is rendered in. */
module OutputWriter {
  import opened Text
  import opened CsvModel

  /** `DeviceReport(serverID, deviceLines)`. */
  datatype DeviceReport = DeviceReport(serverID: string, deviceLines: seq<DeviceLine>)

  /** `DeviceReportWrapper(deviceDetails)`, the root of the document. */
  datatype DeviceReportWrapper = DeviceReportWrapper(deviceDetails: seq<DeviceReport>)

  /** The names the `@JsonProperty` annotations give the fields. */
  const DeviceDetailsName: string := "Devicedetails"
  const ServerIdName: string := "ServerID"
  const DeviceLinesName: string := "deviceLines"
  const Imei1Name: string := "IMEI1"
  const Imei2Name: string := "IMEI2"
  const SerialNumberName: string := "Serialnumber"
  const DeviceNameName: string := "DeviceName"

  /** A serialised document: objects with named fields, lists, and text. */
  datatype Node =
    | Object(fields: seq<(string, Node)>)
    | List(items: seq<Node>)
    | Leaf(text: string)

  function LineNode(d: DeviceLine): Node {
    Object([(Imei1Name, Leaf(d.imei1)), (Imei2Name, Leaf(d.imei2)),
            (SerialNumberName, Leaf(d.serialNumber)), (DeviceNameName, Leaf(d.deviceName))])
  }

  function LinesNode(ls: seq<DeviceLine>): (n: Node)
    ensures n.List? && |n.items| == |ls|
    ensures forall i :: 0 <= i < |ls| ==> n.items[i] == LineNode(ls[i])
  {
    List(seq(|ls|, i requires 0 <= i < |ls| => LineNode(ls[i])))
  }

  function ReportNode(r: DeviceReport): Node {
    Object([(ServerIdName, Leaf(r.serverID)), (DeviceLinesName, LinesNode(r.deviceLines))])
  }

  function WrapperNode(w: DeviceReportWrapper): (n: Node)
    ensures n.Object? && |n.fields| == 1 && n.fields[0].0 == DeviceDetailsName
    ensures n.fields[0].1.List? && |n.fields[0].1.items| == |w.deviceDetails|
  {
    Object([(DeviceDetailsName,
             List(seq(|w.deviceDetails|, i requires 0 <= i < |w.deviceDetails| => ReportNode(w.deviceDetails[i]))))])
  }

  // ---------------------------------------------------------------------
  // Reading a document back, field by field, by name.

  /** The value of the first field called `name`, if any. */
  function FieldOf(fields: seq<(string, Node)>, name: string): Option<Node>
    decreases |fields|
  {
    if |fields| == 0 then None
    else if fields[0].0 == name then Some(fields[0].1)
    else FieldOf(fields[1..], name)
  }

  function TextOf(n: Option<Node>): Option<string> {
    if n.Some? && n.value.Leaf? then Some(n.value.text) else None
  }

  function ReadLine(n: Node): Option<DeviceLine> {
    if !n.Object? then None
    else
      var a := TextOf(FieldOf(n.fields, Imei1Name));
      var b := TextOf(FieldOf(n.fields, Imei2Name));
      var c := TextOf(FieldOf(n.fields, SerialNumberName));
      var d := TextOf(FieldOf(n.fields, DeviceNameName));
      if a.Some? && b.Some? && c.Some? && d.Some? then Some(DeviceLine(a.value, b.value, c.value, d.value))
      else None
  }

  function ReadLines(items: seq<Node>): Option<seq<DeviceLine>>
    decreases |items|
  {
    if |items| == 0 then Some([])
    else match (ReadLine(items[0]), ReadLines(items[1..]))
      case (Some(d), Some(ds)) => Some([d] + ds)
      case _ => None
  }

  function ReadReport(n: Node): Option<DeviceReport> {
    if !n.Object? then None
    else
      var id := TextOf(FieldOf(n.fields, ServerIdName));
      var ls := FieldOf(n.fields, DeviceLinesName);
      if id.None? || ls.None? || !ls.value.List? then None
      else match ReadLines(ls.value.items)
        case None => None
        case Some(ds) => Some(DeviceReport(id.value, ds))
  }

  function ReadReports(items: seq<Node>): Option<seq<DeviceReport>>
    decreases |items|
  {
    if |items| == 0 then Some([])
    else match (ReadReport(items[0]), ReadReports(items[1..]))
      case (Some(r), Some(rs)) => Some([r] + rs)
      case _ => None
  }

  function ReadWrapper(n: Node): Option<DeviceReportWrapper> {
    if !n.Object? then None
    else
      var ds := FieldOf(n.fields, DeviceDetailsName);
      if ds.None? || !ds.value.List? then None
      else match ReadReports(ds.value.items)
        case None => None
        case Some(rs) => Some(DeviceReportWrapper(rs))
  }

  /** Lookup passes over fields of other names. */
  lemma {:induction false} FieldOfSkip(fields: seq<(string, Node)>, k: nat, name: string)
    requires k < |fields| && forall j :: 0 <= j < k ==> fields[j].0 != name
    ensures FieldOf(fields, name) == FieldOf(fields[k..], name)
    decreases k
  {
    if k > 0 {
      FieldOfSkip(fields[1..], k - 1, name);
      assert fields[1..][k - 1..] == fields[k..];
    }
  }

  lemma ReadLineOfLineNode(d: DeviceLine)
    ensures ReadLine(LineNode(d)) == Some(d)
  {
    var f := LineNode(d).fields;
    assert Imei1Name[4] != Imei2Name[4];
    FieldOfSkip(f, 1, Imei2Name);
    FieldOfSkip(f, 2, SerialNumberName);
    FieldOfSkip(f, 3, DeviceNameName);
  }

  lemma {:induction false} ReadLinesOfLinesNode(ls: seq<DeviceLine>)
    ensures ReadLines(LinesNode(ls).items) == Some(ls)
    decreases |ls|
  {
    if |ls| > 0 {
      ReadLineOfLineNode(ls[0]);
      ReadLinesOfLinesNode(ls[1..]);
      assert LinesNode(ls).items[1..] == LinesNode(ls[1..]).items;
      assert [ls[0]] + ls[1..] == ls;
    }
  }

  lemma ReadReportOfReportNode(r: DeviceReport)
    ensures ReadReport(ReportNode(r)) == Some(r)
  {
    FieldOfSkip(ReportNode(r).fields, 1, DeviceLinesName);
    ReadLinesOfLinesNode(r.deviceLines);
  }

  lemma {:induction false} ReadReportsOfNodes(rs: seq<DeviceReport>, items: seq<Node>)
    requires |items| == |rs| && forall i :: 0 <= i < |rs| ==> items[i] == ReportNode(rs[i])
    ensures ReadReports(items) == Some(rs)
    decreases |rs|
  {
    if |rs| > 0 {
      ReadReportOfReportNode(rs[0]);
      ReadReportsOfNodes(rs[1..], items[1..]);
      assert [rs[0]] + rs[1..] == rs;
    }
  }

  /** The document keeps everything: reading it back by the annotated field
      names gives the wrapper it was made from. */
  lemma DocumentRoundTrip(w: DeviceReportWrapper)
    ensures ReadWrapper(WrapperNode(w)) == Some(w)
  {
    var n := WrapperNode(w);
    ReadReportsOfNodes(w.deviceDetails, n.fields[0].1.items);
  }

  // ---------------------------------------------------------------------
  // The writers.

  datatype Format = Json | Xml

  /** What a writer produces: the document and the format it is rendered in. */
  datatype Rendered = Rendered(format: Format, document: Node)

  /** What `write` leaves behind: the target path and what it holds. */
  datatype FileWrite = FileWrite(path: string, content: Rendered)

  /** `JsonOutputWriter` and `XmlOutputWriter`. */
  datatype Writer = JsonOutputWriter | XmlOutputWriter {
    function FormatOf(): Format {
      if JsonOutputWriter? then Json else Xml
    }
  }

  /** The wrapper every method of both writers builds. */
  function Wrap(pr: ParseResult): DeviceReportWrapper {
    DeviceReportWrapper([DeviceReport(pr.header.serverID, pr.deviceLines)])
  }

  /** `toJsonString`. */
  function ToJsonString(pr: ParseResult): Rendered {
    Rendered(Json, WrapperNode(Wrap(pr)))
  }

  /** `toXmlString`. */
  function ToXmlString(pr: ParseResult): Rendered {
    Rendered(Xml, WrapperNode(Wrap(pr)))
  }

  /** `write` of either writer: the same wrapper, into the file at `outputPath`. */
  function Write(w: Writer, pr: ParseResult, outputPath: string): FileWrite {
    FileWrite(outputPath, Rendered(w.FormatOf(), WrapperNode(Wrap(pr))))
  }

  /** The document of `pr` carries exactly one device report, whose server
      id is the header's and whose device lines are the parsed ones, in
      length and order; the writers check nothing, so this holds for every
      parse result. */
  lemma ProjectionFaithful(pr: ParseResult)
    ensures var read := ReadWrapper(ToJsonString(pr).document);
      && read.Some? && |read.value.deviceDetails| == 1
      && read.value.deviceDetails[0].serverID == pr.header.serverID
      && read.value.deviceDetails[0].deviceLines == pr.deviceLines
  {
    DocumentRoundTrip(Wrap(pr));
  }

  /** File mode and string mode write the same thing, and the JSON and XML
      writers project onto the same document. */
  lemma WritersAgree(pr: ParseResult, outputPath: string)
    ensures Write(JsonOutputWriter, pr, outputPath) == FileWrite(outputPath, ToJsonString(pr))
    ensures Write(XmlOutputWriter, pr, outputPath) == FileWrite(outputPath, ToXmlString(pr))
    ensures ToJsonString(pr).document == ToXmlString(pr).document
    ensures ToJsonString(pr).format == Json && ToXmlString(pr).format == Xml
  {
  }

  /** An empty list of device lines stays in the document, as an empty list. */
  lemma EmptyLinesKept(pr: ParseResult)
    requires pr.deviceLines == []
    ensures var report := ToJsonString(pr).document.fields[0].1.items[0];
      && report.Object?
      && FieldOf(report.fields, DeviceLinesName) == Some(List([]))
  {
  }
}
