/**
 * components/analysis/AnalysisDashboard.tsx: the grid of clause cards. A
 * clause rated "ghost" gets a missing-clause card, every other clause a
 * normal card, one card per clause in order, keyed by the clause's id.
 */
module AnalysisDashboard {
  import opened Types
  import ClauseCard
  import GhostClauseCard

  /** One grid cell. The dashboard passes no selection to the normal cards
      and no loading flag to the ghost cards. */
  datatype Slot =
    | Normal(key: string, card: ClauseCard.CardView)
    | Missing(key: string, missing: GhostClauseCard.GhostView)

  function SlotOf(c: Clause): (s: Slot)
    ensures s.key == c.id
    ensures s.Missing? <==> c.risk == Ghost
    ensures s.Normal? ==> s.card == ClauseCard.ViewOf(c, false)
    ensures s.Missing? ==> s.missing == GhostClauseCard.ViewOf(c, false)
  {
    if c.risk == Ghost then Missing(c.id, GhostClauseCard.ViewOf(c, false))
    else Normal(c.id, ClauseCard.ViewOf(c, false))
  }

  /** On a risk read from the backend's string, the dispatch is exactly the
      source's `clause.risk === "ghost"`. (An unnamed risk never carries one
      of the four names, see `Risk.WellFormed`.) */
  lemma GhostDispatchOnString(c: Clause, s: string)
    requires c.risk == ParseRisk(s)
    ensures SlotOf(c).Missing? <==> s == "ghost"
    ensures Activate(c).GhostAdded? <==> s == "ghost"
  {
    assert RiskName(c.risk) == s;
  }

  function Slots(clauses: seq<Clause>): (slots: seq<Slot>)
    ensures |slots| == |clauses|
    ensures forall i :: 0 <= i < |slots| ==> slots[i] == SlotOf(clauses[i])
  {
    if clauses == [] then [] else [SlotOf(clauses[0])] + Slots(clauses[1..])
  }

  /** What the page is told when a cell is used: a clicked clause's id, or
      the text of a missing clause to add. */
  datatype Event = ClauseClicked(clauseId: string) | GhostAdded(clauseText: string)

  function Activate(c: Clause): (e: Event)
    ensures e.GhostAdded? <==> c.risk == Ghost
    ensures e.ClauseClicked? ==> e.clauseId == ClauseCard.Click(c)
    ensures e.GhostAdded? ==> Some(e.clauseText) == GhostClauseCard.Add(c, false)
  {
    if c.risk == Ghost then GhostAdded(c.text) else ClauseClicked(c.id)
  }

  function CountGhosts(clauses: seq<Clause>): nat {
    if clauses == [] then 0 else (if clauses[0].risk == Ghost then 1 else 0) + CountGhosts(clauses[1..])
  }

  function CountMissingSlots(slots: seq<Slot>): nat {
    if slots == [] then 0 else (if slots[0].Missing? then 1 else 0) + CountMissingSlots(slots[1..])
  }

  /** The grid has exactly as many missing-clause cards as there are
      ghost clauses. */
  lemma {:induction false} GhostCardsCounted(clauses: seq<Clause>)
    ensures CountMissingSlots(Slots(clauses)) == CountGhosts(clauses)
  {
    if clauses != [] {
      assert Slots(clauses)[1..] == Slots(clauses[1..]);
      GhostCardsCounted(clauses[1..]);
    }
  }

  /** The two clauses of the dashboard's own example: a green clause "1"
      and a ghost clause with text "Clause 2". */
  const Example: seq<Clause> := [
    Clause("1", "doc1", "Clause 1", Green, "Explanation 1", ["Alt 1"], [LegalAid("Aid 1", "url1")]),
    Clause("2", "doc1", "Clause 2", Ghost, "Explanation 2", [], [])
  ]

  /** Both clauses render; clicking the first reports "1" and adding from
      the second reports "Clause 2". */
  lemma ExampleInteractions()
    ensures Slots(Example)[0].Normal? && Slots(Example)[0].card.text == "Clause 1"
    ensures Slots(Example)[1].Missing? && Slots(Example)[1].missing.text == "Clause 2"
    ensures Activate(Example[0]) == ClauseClicked("1")
    ensures Activate(Example[1]) == GhostAdded("Clause 2")
  {
  }
}
