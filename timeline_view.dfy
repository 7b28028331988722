/**
 * components/analysis/TimelineView.tsx: the dialog listing a document's
 * changes, one item per change with its affected clause ids joined by
 * ", ".
 */
module TimelineView {
  import opened Types
  import opened Strings

  const IdSeparator: string := ", "

  /** One list item. */
  datatype Item = Item(key: string, title: string, timestamp: string, affected: string, riskImpact: string)

  /** `affectedClauseIds.join(", ")`. */
  function AffectedText(ids: seq<string>): string {
    Join(ids, IdSeparator)
  }

  function ItemOf(c: Change): (item: Item)
    ensures item.key == c.id && item.title == c.changeType && item.timestamp == c.timestamp
    ensures item.affected == AffectedText(c.affectedClauseIds) && item.riskImpact == c.riskImpact
  {
    Item(c.id, c.changeType, c.timestamp, AffectedText(c.affectedClauseIds), c.riskImpact)
  }

  function Items(changes: seq<Change>): (items: seq<Item>)
    ensures |items| == |changes|
    ensures forall i :: 0 <= i < |items| ==> items[i] == ItemOf(changes[i])
  {
    if changes == [] then [] else [ItemOf(changes[0])] + Items(changes[1..])
  }

  /** The joined text loses nothing: for ids without a comma, splitting it
      at ", " gives the ids back. */
  lemma AffectedRoundTrip(ids: seq<string>)
    requires |ids| > 0
    requires forall k :: 0 <= k < |ids| ==> Avoids(ids[k], ',')
    ensures Split(AffectedText(ids), IdSeparator) == ids
  {
    SplitJoin(ids, IdSeparator);
  }

  /** Two ids read "c2, c3" and a single id appears alone; no ids and one
      empty id render alike. */
  lemma AffectedExamples()
    ensures AffectedText(["c2", "c3"]) == "c2, c3"
    ensures forall id :: AffectedText([id]) == id
    ensures AffectedText([]) == AffectedText([""])
  {
    var two := ["c2", "c3"];
    assert two[1..] == ["c3"];
  }

  // The close button calls `onClose` once per click; the dialog keeps no
  // state of its own, so there is nothing further to model there.
}
