/**
 * components/analysis/GhostClauseCard.tsx: the card of a clause the
 * document is missing, with a button that adds the standard clause.
 */
module GhostClauseCard {
  import opened Types

  /** What the card renders: the clause's text, the reason line if there is
      an explanation, and the add button. */
  datatype GhostView = GhostView(text: string, reason: Option<string>, buttonDisabled: bool, buttonLabel: string)

  /** `isLoading` is optional; an absent flag is false. */
  function ViewOf(clause: Clause, isLoading: bool): (v: GhostView)
    ensures v.text == clause.text
    ensures v.reason.Some? <==> clause.explanation != ""
    ensures v.reason.Some? ==> v.reason.value == clause.explanation
    ensures v.buttonDisabled <==> isLoading
    ensures v.buttonLabel == (if isLoading then "Adding..." else "Add Standard Clause")
  {
    GhostView(clause.text, if clause.explanation != "" then Some(clause.explanation) else None,
              isLoading, if isLoading then "Adding..." else "Add Standard Clause")
  }

  /** The add button reports the clause's text, and only when enabled. */
  function Add(clause: Clause, isLoading: bool): (r: Option<string>)
    ensures r.Some? <==> !ViewOf(clause, isLoading).buttonDisabled
    ensures r.Some? ==> r.value == clause.text
  {
    if isLoading then None else Some(clause.text)
  }
}
