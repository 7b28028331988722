/**
 * components/shared/SessionsSidebar.tsx: the list of stored chat sessions.
 * A row selects its session; its arrow expands it to preview the last
 * three messages of its history, and at most one session is expanded.
 */
module SessionsSidebar {
  import opened Types
  import Api

  /** `history.slice(-3)`: the last three messages, or all of fewer. */
  function LastThree<T>(history: seq<T>): (r: seq<T>)
    ensures |r| == if |history| < 3 then |history| else 3
    ensures r == history[|history| - |r|..]
  {
    if |history| <= 3 then history else history[|history| - 3..]
  }

  /** The preview can be kept up to date message by message: the last
      three of a longer history are the last three of the previous preview
      followed by the new message. */
  lemma LastThreeAppend<T>(history: seq<T>, m: T)
    ensures LastThree(history + [m]) == LastThree(LastThree(history) + [m])
  {
    var h := history + [m];
    var p := LastThree(history) + [m];
    if |history| >= 3 {
      assert p == history[|history| - 3..] + [m];
      assert LastThree(p) == p[1..];
      assert h[|h| - 3..] == history[|history| - 2..] + [m];
    } else {
      assert p == h;
    }
  }

  datatype HistoryKey = HistoryKey(name: string, sessionId: string)

  /** The callback of a row: its session id; "New Session" passes none. */
  datatype SelectEvent = Select(sessionId: Option<string>)

  datatype Row = Row(sessionId: string, title: string, highlighted: bool, expanded: bool, preview: Option<seq<HistoryEntry>>)

  /** The rows of the list, one per session in order. A row is highlighted
      exactly when it is the selected session, and shows a preview only
      when it is expanded and the history has arrived. */
  function Rows(sessions: seq<SessionSummary>, selected: Option<string>, expanded: Option<string>,
                history: Option<seq<HistoryEntry>>): (rows: seq<Row>)
    ensures |rows| == |sessions|
    ensures forall i :: 0 <= i < |rows| ==>
      && rows[i].sessionId == sessions[i].sessionId && rows[i].title == sessions[i].title
      && (rows[i].highlighted <==> selected == Some(sessions[i].sessionId))
      && (rows[i].expanded <==> expanded == Some(sessions[i].sessionId))
      && (rows[i].preview.Some? <==> rows[i].expanded && history.Some?)
      && (rows[i].preview.Some? ==> rows[i].preview.value == LastThree(history.value))
  {
    if sessions == [] then []
    else
      var s := sessions[0];
      var open := expanded == Some(s.sessionId);
      [Row(s.sessionId, s.title, selected == Some(s.sessionId), open,
           if open && history.Some? then Some(LastThree(history.value)) else None)]
      + Rows(sessions[1..], selected, expanded, history)
  }

  datatype ListView = LoadingSessions | NoSessions | SessionRows(rows: seq<Row>)
  datatype View = Hidden | Shown(list: ListView)

  class Sidebar {
    var expanded: Option<string>

    constructor ()
      ensures expanded == None
    {
      expanded := None;
    }

    /** `handleToggleExpand`: the expanded row collapses, any other row
        expands in its place. */
    method ToggleExpand(sessionId: string)
      modifies this
      ensures old(expanded) == Some(sessionId) ==> expanded == None
      ensures old(expanded) != Some(sessionId) ==> expanded == Some(sessionId)
    {
      expanded := if expanded == Some(sessionId) then None else Some(sessionId);
    }

    /** The history is fetched only for the expanded session. */
    function Key(): (k: Option<HistoryKey>)
      reads this
      ensures k.Some? <==> Truthy(expanded)
      ensures k.Some? ==> k.value == HistoryKey("session-history", expanded.value)
    {
      if Truthy(expanded) then Some(HistoryKey("session-history", expanded.value)) else None
    }

    /** The request behind the key. */
    function HistoryRequest(): (op: Option<Api.Operation>)
      reads this
      ensures op.Some? <==> Key().Some?
      ensures op.Some? ==> op.value == Api.GetSessionHistory(Key().value.sessionId)
    {
      if Truthy(expanded) then Some(Api.GetSessionHistory(expanded.value)) else None
    }

    /** What renders: nothing while closed; otherwise a loading line until
        the list arrives, a notice for an empty list, or the rows. */
    function ViewOf(isOpen: bool, sessions: Option<seq<SessionSummary>>, selected: Option<string>,
                    history: Option<seq<HistoryEntry>>): (v: View)
      reads this
      ensures v == Hidden <==> !isOpen
      ensures isOpen && sessions.None? ==> v == Shown(LoadingSessions)
      ensures isOpen && sessions == Some([]) ==> v == Shown(NoSessions)
      ensures isOpen && sessions.Some? && |sessions.value| > 0 ==>
        v == Shown(SessionRows(Rows(sessions.value, selected, expanded, history)))
    {
      if !isOpen then Hidden
      else if sessions.None? then Shown(LoadingSessions)
      else if |sessions.value| == 0 then Shown(NoSessions)
      else Shown(SessionRows(Rows(sessions.value, selected, expanded, history)))
    }
  }

  /** A row click selects the row's session. */
  function SessionClick(sessionId: string): (e: SelectEvent)
    ensures e.sessionId == Some(sessionId)
  {
    Select(Some(sessionId))
  }

  /** "New Session" clears the selection. */
  function NewSession(): (e: SelectEvent)
    ensures e.sessionId == None
  {
    Select(None)
  }
}
