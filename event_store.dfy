/**
 * Admission of an event into the event store (`EventListDB`): durable events
 * are checked for missing identifying fields (warned, never rejected) and
 * their parameters are serialised to a string, with a blank serialisation
 * normalised to "no parameters". Every failure is caught and logged.
 *
 * The store keeps no state of its own: the normalised parameter string is
 * computed and then dropped, so admission is a pure function of the event.
 */
module EventStore {
  import opened Common

  /**
   * What `GetParamsAsXml()` and the XML's `ToString()` give for an event:
   * no XML (null), the XML's text, or an exception from either call.
   */
  datatype XmlParams = NoXml | Xml(text: string) | XmlFault

  /** .NET `Char.IsWhiteSpace`: the Unicode separators and the control characters it treats as white space. */
  predicate IsWhiteSpace(c: char)
  {
    || c == ' ' || ('\t' <= c <= '\r') || c == '\U{0085}' || c == '\U{00A0}'
    || c == '\U{1680}' || ('\U{2000}' <= c <= '\U{200A}') || c == '\U{2028}' || c == '\U{2029}'
    || c == '\U{202F}' || c == '\U{205F}' || c == '\U{3000}'
  }

  /** `string.IsNullOrWhiteSpace` on a non-null string. */
  predicate IsBlank(s: string)
  {
    forall i :: 0 <= i < |s| ==> IsWhiteSpace(s[i])
  }

  /** The warnings logged for an event whose subject or source computer is the empty GUID. */
  function FieldWarnings(e: Event): (ws: seq<LogEntry>)
    ensures MissingSubject(e.kind) in ws <==> e.subject == EmptyGuid
    ensures MissingSource(e.kind) in ws <==> e.source == EmptyGuid
    ensures forall w :: w in ws ==> w == MissingSubject(e.kind) || w == MissingSource(e.kind)
    ensures |ws| == (if e.subject == EmptyGuid then 1 else 0) + (if e.source == EmptyGuid then 1 else 0)
    ensures e.subject == EmptyGuid ==> ws[0] == MissingSubject(e.kind)
  {
    (if e.subject == EmptyGuid then [MissingSubject(e.kind)] else [])
    + (if e.source == EmptyGuid then [MissingSource(e.kind)] else [])
  }

  /** The parameter string of a serialisation that did not throw: null for no XML or a blank text. */
  function ParamsString(x: XmlParams): (r: Option<string>)
    requires !x.XmlFault?
    ensures r.None? <==> x.NoXml? || IsBlank(x.text)
    ensures r.Some? ==> r.value == x.text && exists i :: 0 <= i < |r.value| && !IsWhiteSpace(r.value[i])
  {
    match x
    case NoXml => None
    case Xml(text) => if IsBlank(text) then None else Some(text)
  }

  /** The end of `AddObject`: it returns normally, or throws after its warnings were logged. */
  datatype ObjectResult =
    | Completed(warnings: seq<LogEntry>, paramsString: Option<string>)
    | Threw(warnings: seq<LogEntry>)

  /** `AddObject`: warn on missing fields, then serialise and normalise the parameters. */
  function AddObject(e: Event, xmlOf: Event -> XmlParams): (r: ObjectResult)
    ensures r.warnings == FieldWarnings(e)
    ensures r.Threw? <==> xmlOf(e).XmlFault?
    ensures r.Completed? ==> r.paramsString == ParamsString(xmlOf(e))
  {
    var ws := FieldWarnings(e);
    match xmlOf(e)
    case XmlFault => Threw(ws)
    case x => Completed(ws, ParamsString(x))
  }

  /** What `AddEvent` did; it has no exceptional outcome. */
  datatype StoreOutcome =
    | NotDurable
    | Admitted(log: seq<LogEntry>, paramsString: Option<string>)
    | Swallowed(log: seq<LogEntry>)
  {
    /** Everything the store's logger received. */
    function Logged(): seq<LogEntry>
    {
      if NotDurable? then [] else log
    }
  }

  /**
   * `AddEvent`: a non-durable event is returned at once; a durable one goes
   * through `AddObject`, and an exception from it is logged and swallowed.
   */
  function AddEvent(e: Event, xmlOf: Event -> XmlParams): (r: StoreOutcome)
    ensures r.NotDurable? <==> !e.publishToDataBase
    ensures r.Swallowed? <==> e.publishToDataBase && xmlOf(e).XmlFault?
    ensures e.publishToDataBase ==>
              (MissingSubject(e.kind) in r.Logged() <==> e.subject == EmptyGuid) &&
              (MissingSource(e.kind) in r.Logged() <==> e.source == EmptyGuid)
    ensures StoreFailed(e.kind) in r.Logged() <==> r.Swallowed?
    ensures r.Swallowed? ==> r.log == FieldWarnings(e) + [StoreFailed(e.kind)]
    ensures r.Admitted? ==> r.log == FieldWarnings(e) && r.paramsString == ParamsString(xmlOf(e))
  {
    if !e.publishToDataBase then NotDurable
    else
      match AddObject(e, xmlOf)
      case Completed(ws, p) => Admitted(ws, p)
      case Threw(ws) => Swallowed(ws + [StoreFailed(e.kind)])
  }
}
