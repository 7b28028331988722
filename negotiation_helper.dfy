/**
 * components/analysis/NegotiationHelper.tsx: a tone selector and a button
 * that asks for a rewritten clause in that tone. The component calls its
 * own canned generator, which always answers with a fixed text naming the
 * tone.
 */
module NegotiationHelper {
  import opened Types

  const Apology: string := "Sorry, an error occurred while generating a suggestion."
  const Revision: string :=
    " approach, we propose the following revision: \"Each party agrees to be responsible for damages arising directly from its own negligence or willful misconduct, with liability capped at the total value of this contract.\""

  /** The canned generator's suggestion for a tone. */
  function MockSuggestion(tone: Tone): (s: string)
    ensures |s| == 11 + |ToneName(tone)| + |Revision|
    ensures s[..11] == "Based on a " && s[11..11 + |ToneName(tone)|] == ToneName(tone)
  {
    "Based on a " + ToneName(tone) + Revision
  }

  /** Different tones give different suggestions. */
  lemma MockSuggestionInjective(a: Tone, b: Tone)
    requires a != b
    ensures MockSuggestion(a) != MockSuggestion(b)
  {
    // The three tone names have different lengths.
    assert |ToneName(a)| != |ToneName(b)|;
  }

  /** The button's label. */
  function ButtonLabel(loading: bool): string {
    if loading then "Generating Suggestion..." else "Generate AI Suggestion"
  }

  class Helper {
    const uid: string
    const clauseId: string
    var tone: Tone
    var suggestion: Option<string>
    var loading: bool

    constructor (uid: string, clauseId: string)
      ensures this.uid == uid && this.clauseId == clauseId
      ensures tone == Friendly && suggestion == None && !loading
    {
      this.uid := uid;
      this.clauseId := clauseId;
      tone := Friendly;
      suggestion := None;
      loading := false;
    }

    /** The generate button is disabled while a suggestion is being made. */
    predicate GenerateDisabled()
      reads this
    {
      loading
    }

    /** A tone button. */
    method SetTone(t: Tone)
      modifies this
      ensures tone == t && suggestion == old(suggestion) && loading == old(loading)
    {
      tone := t;
    }

    /** `handleNegotiate` up to its `await`: loading starts and the previous
        suggestion goes; the tone the generator is asked with is returned. */
    method BeginNegotiate() returns (asked: Tone)
      modifies this
      ensures loading && suggestion == None
      ensures asked == tone && tone == old(tone)
      ensures GenerateDisabled() && ButtonLabel(loading) == "Generating Suggestion..."
    {
      loading := true;
      suggestion := None;
      asked := tone;
    }

    /** A click on the generate button, which is disabled while loading:
        no second request starts while one is pending. */
    method ClickGenerate() returns (asked: Option<Tone>)
      modifies this
      ensures old(GenerateDisabled()) ==> unchanged(this) && asked == None
      ensures !old(GenerateDisabled()) ==> asked == Some(tone) && loading && suggestion == None
      ensures tone == old(tone)
    {
      if GenerateDisabled() {
        asked := None;
      } else {
        var t := BeginNegotiate();
        asked := Some(t);
      }
    }

    /** The continuation: the generator's answer, or the apology; loading
        ends either way. */
    method EndNegotiate(outcome: Outcome<string>)
      modifies this
      ensures !loading
      ensures suggestion == Some(if outcome.Success? then outcome.payload else Apology)
      ensures tone == old(tone)
      ensures !GenerateDisabled() && ButtonLabel(loading) == "Generate AI Suggestion"
    {
      match outcome {
        case Success(s) => suggestion := Some(s);
        case Failure(_) => suggestion := Some(Apology);
      }
      loading := false;
    }
  }

  /** With the canned generator a click always ends with the suggestion for
      the tone selected when it was made. */
  method Generate(h: Helper)
    modifies h
    ensures !h.loading && h.tone == old(h.tone)
    ensures h.suggestion == Some(MockSuggestion(old(h.tone)))
  {
    var asked := h.BeginNegotiate();
    h.EndNegotiate(Success(MockSuggestion(asked)));
  }
}
