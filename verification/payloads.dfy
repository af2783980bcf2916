/**
 Model of SickLDMRS::setData: the application's single entry point for data
 delivered by the device manager. The call reads the payload's datatype tag,
 builds a summary label from counts specific to that datatype, reads the
 source id, and logs. A scan additionally logs the start timestamp of every
 scanner head that contributed to it, before the summary line.

 Log lines are modelled as structured events; their text formatting is not.
 */
module Payloads {

  /** A timestamp as the scanner reports it (NTP time); it is only copied. */
  datatype Time = Time(ntp: nat)

  /** What a scan says about one scanner head; only its start timestamp is read. */
  datatype ScannerInfo = ScannerInfo(startTimestamp: Time)

  /** One evaluation field of a field set; only whether it is valid is read. */
  datatype Field = Field(valid: bool)

  /** The tag BasicData::getDatatype reports, which the dispatch switches on. */
  datatype Datatype =
    | DatatypeScan
    | DatatypeObjects
    | DatatypeFields
    | DatatypeEvalCases
    | DatatypeEvalCaseResults
    | DatatypeMsg
    | DatatypeMeasurementList
    | DatatypeOther(code: int)

  /**
   A payload as the application receives it: one variant per datatype the
   dispatch knows, each with what the dispatch reads from it, plus a variant
   for any other tag. Every payload has a source id.
   */
  datatype Payload =
    | Scan(sourceId: nat, numPoints: nat, scannerInfos: seq<ScannerInfo>)
    | ObjectList(sourceId: nat, objects: nat)
    | Fields(sourceId: nat, fields: seq<Field>)
    | EvalCases(sourceId: nat, cases: nat)
    | EvalCaseResults(sourceId: nat, results: nat)
    | Msg(sourceId: nat, text: string)
    | MeasurementList(sourceId: nat, entries: nat)
    | Unknown(sourceId: nat, code: int)
  {
    /** The datatype tag of this payload. */
    function Datatype(): Datatype {
      match this
      case Scan(_, _, _) => DatatypeScan
      case ObjectList(_, _) => DatatypeObjects
      case Fields(_, _) => DatatypeFields
      case EvalCases(_, _) => DatatypeEvalCases
      case EvalCaseResults(_, _) => DatatypeEvalCaseResults
      case Msg(_, _) => DatatypeMsg
      case MeasurementList(_, _) => DatatypeMeasurementList
      case Unknown(_, code) => DatatypeOther(code)
    }
  }

  /** The summary label the dispatch builds, one form per datatype. */
  datatype Label =
    | ScanLabel(points: nat)
    | ObjectsLabel(objects: nat)
    | FieldsLabel(fields: nat, validFields: nat)
    | EvalCasesLabel(cases: nat)
    | EvalCaseResultsLabel(caseResults: nat)
    | MsgLabel(text: string)
    | MeasurementListLabel(entries: nat)
    | UnknownLabel

  /** The word a label's text starts with. */
  function Word(l: Label): string {
    match l
    case ScanLabel(_) => "Scan"
    case ObjectsLabel(_) => "Objects"
    case FieldsLabel(_, _) => "Fields"
    case EvalCasesLabel(_) => "EvalCases"
    case EvalCaseResultsLabel(_) => "EvalCaseResults"
    case MsgLabel(_) => "Msg"
    case MeasurementListLabel(_) => "MeasurementList"
    case UnknownLabel => "(unknown)"
  }

  /** Two payloads fall into the same case of the dispatch switch. */
  predicate SameCase(p: Payload, q: Payload) {
    p.Datatype() == q.Datatype() || (p.Unknown? && q.Unknown?)
  }

  /** The number of valid fields in a field set. */
  function ValidFieldCount(fs: seq<Field>): (n: nat)
    ensures n <= |fs|
    ensures n == |fs| <==> forall i :: 0 <= i < |fs| ==> fs[i].valid
    ensures n == 0 <==> forall i :: 0 <= i < |fs| ==> !fs[i].valid
  {
    if fs == [] then 0
    else (if fs[0].valid then 1 else 0) + ValidFieldCount(fs[1..])
  }

  /** The summary label of a payload; total over every payload, including an unknown tag. */
  function Classify(p: Payload): (l: Label)
    ensures l.UnknownLabel? <==> p.Unknown?
    ensures Word(l) == "(unknown)" <==> p.Unknown?
    ensures p.Scan? ==> l.ScanLabel? && l.points == p.numPoints
    ensures p.ObjectList? ==> l == ObjectsLabel(p.objects)
    ensures p.Fields? ==> l.FieldsLabel? && l.fields == |p.fields|
                          && l.validFields == ValidFieldCount(p.fields) <= l.fields
    ensures p.EvalCases? ==> l == EvalCasesLabel(p.cases)
    ensures p.EvalCaseResults? ==> l == EvalCaseResultsLabel(p.results)
    ensures p.Msg? ==> l == MsgLabel(p.text)
    ensures p.MeasurementList? ==> l == MeasurementListLabel(p.entries)
  {
    match p
    case Scan(_, n, _) => ScanLabel(n)
    case ObjectList(_, n) => ObjectsLabel(n)
    case Fields(_, fs) => FieldsLabel(|fs|, ValidFieldCount(fs))
    case EvalCases(_, n) => EvalCasesLabel(n)
    case EvalCaseResults(_, n) => EvalCaseResultsLabel(n)
    case Msg(_, text) => MsgLabel(text)
    case MeasurementList(_, n) => MeasurementListLabel(n)
    case Unknown(_, _) => UnknownLabel
  }

  /**
   Each case of the dispatch has its own label word: two payloads get the
   same word exactly when they fall into the same case, and every tag outside
   the seven known ones shares the default word.
   */
  lemma ClassifySeparatesCases(p: Payload, q: Payload)
    ensures Word(Classify(p)) == Word(Classify(q)) <==> SameCase(p, q)
  {
  }

  /** One line the dispatch logs. */
  datatype LogEvent =
    | ScanStartTime(time: Time)
    | DataReceived(summary: Label, sourceId: nat)

  /**
   The log of one dispatch: for a scan, one start-time line per scanner head
   in the order the scan lists them; then, for every payload, exactly one
   summary line carrying the label and the source id.
   */
  method SetData(p: Payload) returns (log: seq<LogEvent>)
    ensures p.Scan? ==> |log| == |p.scannerInfos| + 1
    ensures p.Scan? ==> forall i :: 0 <= i < |p.scannerInfos| ==>
                          log[i] == ScanStartTime(p.scannerInfos[i].startTimestamp)
    ensures !p.Scan? ==> |log| == 1
    ensures |log| >= 1 && log[|log| - 1] == DataReceived(Classify(p), p.sourceId)
    ensures forall i :: 0 <= i < |log| ==> (log[i].DataReceived? <==> i == |log| - 1)
  {
    var summary := Classify(p);
    log := [];
    if p.Scan? {
      var infos := p.scannerInfos;
      var i := 0;
      while i < |infos|
        invariant 0 <= i <= |infos|
        invariant |log| == i
        invariant forall j :: 0 <= j < i ==> log[j] == ScanStartTime(infos[j].startTimestamp)
      {
        log := log + [ScanStartTime(infos[i].startTimestamp)];
        i := i + 1;
      }
    }
    log := log + [DataReceived(summary, p.sourceId)];
  }
}
