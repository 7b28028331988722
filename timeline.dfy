/**
 * components/shared/Timeline.tsx: a popover listing the document's events.
 * Each event's type picks an icon and a colour; the list is fetched only
 * while the popover is open, from the component's canned event list.
 */
module Timeline {
  import opened Types
  import opened Strings

  /** A timeline event; `kind` is the event's `type` field, and either it
      or `eventType` names the event. */
  datatype Event = Event(
    kind: Option<string>,
    eventType: Option<string>,
    description: string,
    timestamp: string,
    details: Option<string>)

  /** `(event.type || event.event_type).split('_')[0]`. None stands for an
      event with neither field, on which the expression throws. */
  function EventKey(e: Event): (k: Option<string>)
    ensures k.None? <==> !Truthy(e.kind) && e.eventType.None?
    ensures Truthy(e.kind) ==> k == Some(BeforeFirst(e.kind.value, '_'))
    ensures !Truthy(e.kind) && e.eventType.Some? ==> k == Some(BeforeFirst(e.eventType.value, '_'))
    ensures k.Some? ==> forall i :: 0 <= i < |k.value| ==> k.value[i] != '_'
  {
    if Truthy(e.kind) then Some(BeforeFirst(e.kind.value, '_'))
    else if e.eventType.Some? then Some(BeforeFirst(e.eventType.value, '_'))
    else None
  }

  /** A suffix after '_' does not change the key: "upload_started" and
      "upload" pick the same config. */
  lemma {:induction false} KeyIgnoresSuffix(base: string, suffix: string)
    requires forall i :: 0 <= i < |base| ==> base[i] != '_'
    ensures BeforeFirst(base + "_" + suffix, '_') == base
    ensures BeforeFirst(base, '_') == base
    decreases |base|
  {
    if base != [] {
      assert (base + "_" + suffix)[1..] == base[1..] + "_" + suffix;
      KeyIgnoresSuffix(base[1..], suffix);
    }
  }

  datatype Config = Config(icon: string, color: string)

  const DefaultConfig: Config := Config("Info", "slate")

  /** The event config of a key; any other key gets the default. */
  function ConfigOf(key: string): (c: Config)
    ensures ColorsOf(c.color).Some?
    ensures c == DefaultConfig <==> key !in {"upload", "analysis", "negotiate", "ghost", "export", "edit"}
  {
    if key == "upload" then Config("UploadCloud", "blue")
    else if key == "analysis" then Config("FileCheck", "green")
    else if key == "negotiate" then Config("MessageSquare", "yellow")
    else if key == "ghost" then Config("Ghost", "purple")
    else if key == "export" then Config("FileDown", "indigo")
    else if key == "edit" then Config("Pencil", "orange")
    else DefaultConfig
  }

  datatype Colors = Colors(bg: string, text: string)

  /** `colorClasses[color]`; None where the table has no entry. */
  function ColorsOf(color: string): Option<Colors> {
    if color == "blue" then Some(Colors("bg-blue-500/10", "text-blue-400"))
    else if color == "green" then Some(Colors("bg-green-500/10", "text-green-400"))
    else if color == "yellow" then Some(Colors("bg-yellow-500/10", "text-yellow-400"))
    else if color == "purple" then Some(Colors("bg-purple-500/10", "text-purple-400"))
    else if color == "indigo" then Some(Colors("bg-indigo-500/10", "text-indigo-400"))
    else if color == "orange" then Some(Colors("bg-orange-500/10", "text-orange-400"))
    else if color == "slate" then Some(Colors("bg-slate-700/50", "text-slate-400"))
    else None
  }

  /** The six named types have six different colours. */
  lemma ConfigColorsDistinct(a: string, b: string)
    requires a in {"upload", "analysis", "negotiate", "ghost", "export", "edit"}
    requires b in {"upload", "analysis", "negotiate", "ghost", "export", "edit"}
    requires a != b
    ensures ConfigOf(a).color != ConfigOf(b).color
    ensures ConfigOf(a).color != DefaultConfig.color
  {
  }

  /** The parts of the popover body that render. */
  datatype Body = Body(loader: bool, failure: bool, empty: bool, list: bool)

  function BodyOf(isLoading: bool, failed: bool, timeline: Option<seq<Event>>): (b: Body)
    ensures b.loader == isLoading && b.failure == failed
    ensures b.empty <==> !isLoading && !failed && timeline.Some? && |timeline.value| == 0
    ensures b.list <==> !isLoading && !failed && timeline.Some? && |timeline.value| > 0
    ensures !(b.empty && b.list) && !(b.list && (b.loader || b.failure))
  {
    var settled := !isLoading && !failed && timeline.Some?;
    Body(isLoading, failed, settled && |timeline.value| == 0, settled && |timeline.value| > 0)
  }

  /** The text of an event's details box: none unless the event has
      non-empty details, and then exactly those details. */
  function DetailBox(e: Event): (box: Option<string>)
    ensures box.Some? <==> e.details.Some? && e.details.value != ""
    ensures box.Some? ==> box == e.details
  {
    if Truthy(e.details) then e.details else None
  }

  /** How long before the present each canned event happened, in ms. */
  const MockAges: seq<nat> := [3600000, 7200000, 10800000, 86400000, 87400000]

  /** The `event_type` of each canned event. */
  const MockTypes: seq<string> := ["export", "negotiate", "ghost", "analysis", "upload"]

  /** The canned events, given the ISO timestamps of those ages. */
  function MockEvents(stamps: seq<string>): (events: seq<Event>)
    requires |stamps| == 5
    ensures |events| == 5
    ensures forall i :: 0 <= i < 5 ==>
      events[i].kind == None && events[i].eventType == Some(MockTypes[i]) && events[i].timestamp == stamps[i]
  {
    [ Event(None, Some(MockTypes[0]), "Document exported as PDF.", stamps[0], None),
      Event(None, Some(MockTypes[1]), "Negotiation suggestion generated for \"Liability Clause\".", stamps[1], Some("Tone: Firm")),
      Event(None, Some(MockTypes[2]), "Missing \"Dispute Resolution\" clause added.", stamps[2], None),
      Event(None, Some(MockTypes[3]), "Initial document analysis completed.", stamps[3], Some("3 High-risk clauses found.")),
      Event(None, Some(MockTypes[4]), "Document \"Service Agreement v2.pdf\" uploaded.", stamps[4], None) ]
  }

  /** An event named by `event_type` alone, without '_', is keyed by it. */
  lemma KeyOfNamedEvent(e: Event)
    requires e.kind == None && e.eventType.Some?
    requires forall i :: 0 <= i < |e.eventType.value| ==> e.eventType.value[i] != '_'
    ensures EventKey(e) == e.eventType
  {
    KeyIgnoresSuffix(e.eventType.value, "");
  }

  /** No canned type contains '_'. */
  lemma MockTypesPlain(i: nat)
    requires i < 5
    ensures Avoids(MockTypes[i], '_')
  {
  }

  /** Every canned event is keyed by its own type. */
  lemma MockEventKeys(stamps: seq<string>)
    requires |stamps| == 5
    ensures forall i :: 0 <= i < 5 ==> EventKey(MockEvents(stamps)[i]) == Some(MockTypes[i])
  {
    var events := MockEvents(stamps);
    forall i | 0 <= i < 5
      ensures EventKey(events[i]) == Some(MockTypes[i])
    {
      MockTypesPlain(i);
      KeyOfNamedEvent(events[i]);
    }
  }

  /** Only the canned negotiation and analysis show a details box, and the
      list runs newest first. */
  lemma MockEventDetails(stamps: seq<string>)
    requires |stamps| == 5
    ensures forall i :: 0 <= i < 5 ==> (DetailBox(MockEvents(stamps)[i]).Some? <==> i == 1 || i == 3)
    ensures DetailBox(MockEvents(stamps)[1]) == Some("Tone: Firm")
    ensures DetailBox(MockEvents(stamps)[3]) == Some("3 High-risk clauses found.")
    ensures forall i, j :: 0 <= i < j < 5 ==> MockAges[i] < MockAges[j]
  {
  }

  datatype FetchKey = FetchKey(name: string, uid: string)

  class Popover {
    const uid: string
    var isOpen: bool

    constructor (uid: string)
      ensures this.uid == uid && !isOpen
    {
      this.uid := uid;
      isOpen := false;
    }

    /** The SWR key: null while the popover is closed, so nothing is
        fetched then. */
    function Key(): (k: Option<FetchKey>)
      reads this
      ensures k.Some? <==> isOpen
      ensures k.Some? ==> k.value == FetchKey("timeline", uid)
    {
      if isOpen then Some(FetchKey("timeline", uid)) else None
    }

    /** The Timeline button. */
    method Toggle()
      modifies this
      ensures isOpen == !old(isOpen)
    {
      isOpen := !isOpen;
    }

    /** The close button. */
    method Close()
      modifies this
      ensures !isOpen && Key().None?
    {
      isOpen := false;
    }

    /** A mouse press anywhere in the page closes the popover unless it
        lands inside it. */
    method MouseDown(inside: bool)
      modifies this
      ensures isOpen == (old(isOpen) && inside)
    {
      if !inside {
        isOpen := false;
      }
    }
  }

  /** Two clicks on the button leave the popover as it was. */
  method ToggleTwice(p: Popover)
    modifies p
    ensures p.isOpen == old(p.isOpen) && p.Key() == old(p.Key())
  {
    p.Toggle();
    p.Toggle();
  }
}
