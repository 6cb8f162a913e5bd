/** The scanner status message: the two enumerations with their wire-name
    tables, the immutable `ScanStatus` snapshot, and its decoding from a
    status document. The document is modelled after XML parsing: either the
    parse failed, or the root element is reduced to a map from child tag to
    the child's text. */
module StatusMessage {
  import opened Wrappers
  import opened MessageError

  datatype ScannerState = Idle | BusyWithScanJob

  /** The text the device sends for each scanner state. */
  function ScannerStateName(s: ScannerState): string {
    match s
    case Idle => "Idle"
    case BusyWithScanJob => "BusyWithScanJob"
  }

  /** Decodes a scanner state: exactly the wire names are accepted, and any
      other text is an error carrying the type name and the raw text. */
  function ScannerStateFromStr(s: string): (r: Result<ScannerState, ParseError>)
    ensures r.Success? ==> ScannerStateName(r.value) == s
    ensures r.Failure? ==> r.error == UnknownEnumValue("ScannerState", s)
    ensures r.Failure? ==> forall x :: ScannerStateName(x) != s
  {
    if s == "Idle" then Success(Idle)
    else if s == "BusyWithScanJob" then Success(BusyWithScanJob)
    else Failure(UnknownEnumValue("ScannerState", s))
  }

  datatype AdfState = Empty | Loaded

  /** The text the device sends for each feeder state. */
  function AdfStateName(a: AdfState): string {
    match a
    case Empty => "Empty"
    case Loaded => "Loaded"
  }

  /** Decodes a feeder state, with the same table discipline as
      `ScannerStateFromStr`. */
  function AdfStateFromStr(s: string): (r: Result<AdfState, ParseError>)
    ensures r.Success? ==> AdfStateName(r.value) == s
    ensures r.Failure? ==> r.error == UnknownEnumValue("AdfState", s)
    ensures r.Failure? ==> forall x :: AdfStateName(x) != s
  {
    if s == "Empty" then Success(Empty)
    else if s == "Loaded" then Success(Loaded)
    else Failure(UnknownEnumValue("AdfState", s))
  }

  lemma ScannerStateRoundTrip(x: ScannerState, s: string)
    ensures ScannerStateFromStr(ScannerStateName(x)) == Success(x)
    ensures ScannerStateFromStr(s) == Success(x) <==> s == ScannerStateName(x)
  {
  }

  lemma AdfStateRoundTrip(x: AdfState, s: string)
    ensures AdfStateFromStr(AdfStateName(x)) == Success(x)
    ensures AdfStateFromStr(s) == Success(x) <==> s == AdfStateName(x)
  {
  }

  /** An immutable snapshot of the device: never partially populated. */
  datatype ScanStatus = ScanStatus(scannerState: ScannerState, adfState: AdfState) {

    /** The device accepts a new job. */
    predicate IsIdle() {
      scannerState == Idle
    }
  }

  function NewScanStatus(scannerState: ScannerState, adfState: AdfState): (r: ScanStatus)
    ensures r.scannerState == scannerState && r.adfState == adfState
    ensures r.IsIdle() <==> scannerState != BusyWithScanJob
  {
    ScanStatus(scannerState, adfState)
  }

  /** The root element of a parsed document, as a map from child tag to text. */
  datatype Element = Element(children: map<string, string>)

  /** A status document after the XML parser has run over its bytes. */
  datatype Document = Malformed(reason: string) | Parsed(root: Element)

  /** Looks up the child with the given tag and decodes its text. */
  function ParseChildValue<T>(e: Element, tag: string, fromStr: string -> Result<T, ParseError>): Result<T, ParseError> {
    if tag in e.children then fromStr(e.children[tag]) else Failure(MissingChild(tag))
  }

  /** The element carries exactly the wire names of `st`'s two fields. */
  predicate Describes(e: Element, st: ScanStatus) {
    && "ScannerState" in e.children
    && e.children["ScannerState"] == ScannerStateName(st.scannerState)
    && "AdfState" in e.children
    && e.children["AdfState"] == AdfStateName(st.adfState)
  }

  /** Decodes a status document: the scanner state child first, the feeder
      state child second, propagating the first error met. */
  function ReadXml(doc: Document): (r: Result<ScanStatus, ParseError>)
    ensures r.Success? ==> doc.Parsed? && Describes(doc.root, r.value)
    ensures forall st :: doc.Parsed? && Describes(doc.root, st) ==> r == Success(st)
    ensures doc.Malformed? ==> r == Failure(Xml(doc.reason))
  {
    match doc
    case Malformed(reason) => Failure(Xml(reason))
    case Parsed(root) =>
      var scannerState :- ParseChildValue(root, "ScannerState", ScannerStateFromStr);
      var adfState :- ParseChildValue(root, "AdfState", AdfStateFromStr);
      Success(NewScanStatus(scannerState, adfState))
  }

  /** The error of the scanner state child decides the outcome whenever there
      is one, whatever the feeder state child holds; only once the scanner
      state decodes does the feeder state child's error surface. */
  lemma ReadXmlErrorOrder(e: Element)
    ensures "ScannerState" !in e.children
      ==> ReadXml(Parsed(e)) == Failure(MissingChild("ScannerState"))
    ensures ("ScannerState" in e.children && ScannerStateFromStr(e.children["ScannerState"]).Failure?)
      ==> ReadXml(Parsed(e)) == Failure(UnknownEnumValue("ScannerState", e.children["ScannerState"]))
    ensures ("ScannerState" in e.children && ScannerStateFromStr(e.children["ScannerState"]).Success?
             && "AdfState" !in e.children)
      ==> ReadXml(Parsed(e)) == Failure(MissingChild("AdfState"))
    ensures ("ScannerState" in e.children && ScannerStateFromStr(e.children["ScannerState"]).Success?
             && "AdfState" in e.children && AdfStateFromStr(e.children["AdfState"]).Failure?)
      ==> ReadXml(Parsed(e)) == Failure(UnknownEnumValue("AdfState", e.children["AdfState"]))
  {
  }

  /** The element a device sends for a status snapshot. */
  function StatusElement(st: ScanStatus): (e: Element)
    ensures Describes(e, st)
  {
    Element(map["ScannerState" := ScannerStateName(st.scannerState), "AdfState" := AdfStateName(st.adfState)])
  }

  lemma ReadXmlRoundTrip(st: ScanStatus)
    ensures ReadXml(Parsed(StatusElement(st))) == Success(st)
  {
  }

  /** The three status documents of the module's tests, after parsing. */
  const IdleFixture: Document := Parsed(Element(map["ScannerState" := "Idle", "AdfState" := "Empty"]))
  const BusyFixture: Document := Parsed(Element(map["ScannerState" := "BusyWithScanJob", "AdfState" := "Empty"]))
  const LoadedFixture: Document := Parsed(Element(map["ScannerState" := "Idle", "AdfState" := "Loaded"]))

  lemma ReadXmlFixtures()
    ensures ReadXml(IdleFixture) == Success(ScanStatus(Idle, Empty))
    ensures ReadXml(BusyFixture) == Success(ScanStatus(BusyWithScanJob, Empty))
    ensures ReadXml(LoadedFixture) == Success(ScanStatus(Idle, Loaded))
  {
  }
}
