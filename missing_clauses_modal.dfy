/**
 * components/analysis/MissingClausesModal.tsx: asks the backend which
 * standard clauses the document lacks and lists its suggestions.
 */
module MissingClausesModal {
  import opened Types
  import Api

  /** One suggestion card: its heading, its description and the line that
      says why it matters. */
  datatype Card = Card(title: string, description: string, whyItMatters: string)

  function Cards(missing: seq<MissingClause>): (cards: seq<Card>)
    ensures |cards| == |missing|
    ensures forall i :: 0 <= i < |cards| ==>
      cards[i] == Card(missing[i].clauseName, missing[i].description, "Why it matters: " + missing[i].reason)
  {
    if missing == [] then []
    else [Card(missing[0].clauseName, missing[0].description, "Why it matters: " + missing[0].reason)] + Cards(missing[1..])
  }

  /** The content pane: the start screen until an analysis has succeeded,
      then the result heading's count and the cards. */
  datatype View = StartScreen(buttonDisabled: bool, buttonLabel: string) | Results(count: nat, cards: seq<Card>)

  function ViewOf(loading: bool, hasAnalyzed: bool, missing: seq<MissingClause>): (v: View)
    ensures v.Results? <==> hasAnalyzed
    ensures v.StartScreen? ==> v.buttonDisabled == loading
    ensures v.StartScreen? ==> v.buttonLabel == (if loading then "Analyzing..." else "Start Analysis")
    ensures v.Results? ==> v.count == |missing| == |v.cards| && v.cards == Cards(missing)
  {
    if !hasAnalyzed then StartScreen(loading, if loading then "Analyzing..." else "Start Analysis")
    else Results(|missing|, Cards(missing))
  }

  /** Appending a suggestion to the list adds exactly its card at the end. */
  lemma {:induction false} CardsAppend(missing: seq<MissingClause>, m: MissingClause)
    ensures Cards(missing + [m]) == Cards(missing) + Cards([m])
  {
    var l, r := Cards(missing + [m]), Cards(missing) + Cards([m]);
    assert |l| == |r|;
    forall i | 0 <= i < |l| ensures l[i] == r[i] {
      if i == |missing| {
        assert (missing + [m])[i] == [m][0];
      } else {
        assert (missing + [m])[i] == missing[i];
      }
    }
  }

  class Analysis {
    const uid: string
    var missing: seq<MissingClause>
    var loading: bool
    var hasAnalyzed: bool

    constructor (uid: string)
      ensures this.uid == uid && missing == [] && !loading && !hasAnalyzed
    {
      this.uid := uid;
      missing := [];
      loading := false;
      hasAnalyzed := false;
    }

    function View(): View
      reads this
    {
      ViewOf(loading, hasAnalyzed, missing)
    }

    /** `handleAnalyze` up to its `await`. */
    method BeginAnalyze() returns (call: Api.Operation)
      modifies this
      ensures loading && call == Api.InsertGhostClause(uid)
      ensures missing == old(missing) && hasAnalyzed == old(hasAnalyzed)
    {
      loading := true;
      call := Api.InsertGhostClause(uid);
    }

    /** The continuation, given the `missing_clauses` field of the result.
        Success shows the results; failure empties the list without leaving
        the start screen; loading ends either way. */
    method EndAnalyze(outcome: Outcome<Option<seq<MissingClause>>>)
      modifies this
      ensures !loading
      ensures outcome.Success? ==>
        missing == (if outcome.payload.Some? then outcome.payload.value else []) && hasAnalyzed
      ensures outcome.Failure? ==> missing == [] && hasAnalyzed == old(hasAnalyzed)
    {
      match outcome {
        case Success(result) =>
          missing := if result.Some? then result.value else [];
          hasAnalyzed := true;
        case Failure(_) =>
          missing := [];
      }
      loading := false;
    }

    /** `resetAnalysis` ("Run Again"), and the delayed reset after closing. */
    method ResetAnalysis()
      modifies this
      ensures missing == [] && !hasAnalyzed && loading == old(loading)
      ensures View().StartScreen?
    {
      missing := [];
      hasAnalyzed := false;
    }
  }

  /** A successful analysis from the start screen ends on the results, with
      one card per suggestion in order. */
  method AnalyzeOnce(a: Analysis, suggestions: seq<MissingClause>)
    modifies a
    ensures a.View() == Results(|suggestions|, Cards(suggestions))
    ensures !a.loading
  {
    var call := a.BeginAnalyze();
    a.EndAnalyze(Success(Some(suggestions)));
  }
}
