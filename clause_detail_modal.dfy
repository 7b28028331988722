/**
 * components/analysis/ClauseDetailModal.tsx: the modal for one clause. When
 * a clause is shown, the negotiation result and the error are reset and the
 * clause's detail is fetched and written into the clause object itself;
 * the three tone buttons ask for a rewritten clause.
 */
module ClauseDetailModal {
  import opened Types
  import opened Strings
  import Api

  const NoExplanation: string := "No simplified explanation available."
  const DetailError: string := "Could not load detailed clause explanation."
  const NegotiateError: string := "Negotiation failed. Please try again."

  /** The clause object the modal is given. The modal writes into it, and
      the page that owns it sees the writes. */
  class ClauseObject {
    var id: string
    var documentId: string
    var text: string
    var risk: Risk
    var explanation: string
    var alternatives: seq<string>
    var legalAids: seq<LegalAid>

    constructor (c: Clause)
      ensures Value() == c
    {
      id := c.id;
      documentId := c.documentId;
      text := c.text;
      risk := c.risk;
      explanation := c.explanation;
      alternatives := c.alternatives;
      legalAids := c.legalAids;
    }

    function Value(): Clause
      reads this
    {
      Clause(id, documentId, text, risk, explanation, alternatives, legalAids)
    }
  }

  /** The fields of the detail response the modal reads. */
  datatype Detail = Detail(explanation: Option<string>, alternatives: Option<seq<string>>)

  /** The clause after a successful detail fetch: only the explanation (a
      falsy one replaced by the fixed text) and the alternatives change. */
  function WithDetail(c: Clause, d: Detail): (r: Clause)
    ensures r.id == c.id && r.documentId == c.documentId && r.text == c.text
    ensures r.risk == c.risk && r.legalAids == c.legalAids
    ensures r.explanation == (if Truthy(d.explanation) then d.explanation.value else NoExplanation)
    ensures r.alternatives == (if d.alternatives.Some? then d.alternatives.value else [])
    ensures r.explanation != ""
  {
    c.(explanation := if Truthy(d.explanation) then d.explanation.value else NoExplanation,
       alternatives := if d.alternatives.Some? then d.alternatives.value else [])
  }

  /** Applying a second detail overrides the first entirely. */
  lemma WithDetailLastWins(c: Clause, d1: Detail, d2: Detail)
    ensures WithDetail(WithDetail(c, d1), d2) == WithDetail(c, d2)
  {
  }

  /** The detail request: the modal removes the first ".txt" from the id
      and `getClauseDetail` removes the next one. */
  function DetailRequest(c: Clause): (op: Api.Operation)
    ensures op.GetClauseDetail? && op.uid == c.documentId
    ensures op.clauseId == ReplaceFirst(c.id, ".txt", "")
  {
    Api.GetClauseDetail(c.documentId, ReplaceFirst(c.id, ".txt", ""))
  }

  /** An id without ".txt" reaches the backend unchanged. */
  lemma DetailKeepsPlain(c: Clause)
    requires !Contains(c.id, ".txt")
    ensures Api.RequestOf(DetailRequest(c)).url == Api.Endpoint("clause/" + c.documentId + "/" + c.id)
  {
    Api.CleanKeepsPlainId(c.id);
    Api.ClauseDetailUrl(c.documentId, c.id);
  }

  /** One occurrence of ".txt" is stripped by the modal, and nothing more
      by `getClauseDetail`: "3.txt" requests clause "3". */
  lemma DetailStripsOnce(c: Clause, x: string, y: string)
    requires c.id == x + ".txt" + y
    requires !Contains(x, ".txt") && !Contains(x + y, ".txt")
    ensures Api.RequestOf(DetailRequest(c)).url == Api.Endpoint("clause/" + c.documentId + "/" + (x + y))
  {
    Api.CleanStripsFirstTxt(x, y);
    Api.CleanKeepsPlainId(x + y);
    Api.ClauseDetailUrl(c.documentId, x + y);
  }

  /** Two occurrences of ".txt" are stripped on the way to the backend. */
  lemma DetailStripsTwice(c: Clause, x: string, y: string, z: string)
    requires c.id == x + ".txt" + y + ".txt" + z
    requires !Contains(x, ".txt") && !Contains(x + y, ".txt")
    ensures Api.RequestOf(DetailRequest(c)).url == Api.Endpoint("clause/" + c.documentId + "/" + (x + y + z))
  {
    assert c.id == x + ".txt" + (y + ".txt" + z);
    Api.CleanStripsFirstTxt(x, y + ".txt" + z);
    var once := Api.CleanClauseId(c.id);
    assert once == (x + y) + ".txt" + z;
    Api.CleanStripsFirstTxt(x + y, z);
    Api.ClauseDetailUrl(c.documentId, once);
  }

  /** The look of the modal for a risk. */
  datatype RiskLook = RiskLook(statusText: string, glowText: string, icon: string, iconColor: string)

  const DefaultLook: RiskLook := RiskLook("Clause Information", "General Information", "FileText", "text-slate-400")

  /** `riskConfig[clause?.risk || "default"] || riskConfig.default`: green,
      yellow and red have their own look; no clause, ghost and every other
      value get the default. */
  function LookOf(risk: Option<Risk>): (l: RiskLook)
    ensures l == DefaultLook <==> !(risk == Some(Green) || risk == Some(Yellow) || risk == Some(Red))
  {
    match risk
    case Some(Green) => RiskLook("Low Risk Detected", "Clause Appears Safe", "CheckCircle2", "text-green-400")
    case Some(Yellow) => RiskLook("Medium Risk Detected", "Proceed with Caution", "AlertTriangle", "text-yellow-400")
    case Some(Red) => RiskLook("High Risk Detected", "Action Strongly Recommended", "AlertOctagon", "text-red-400")
    case _ => DefaultLook
  }

  /** The three rated risks look different from each other. */
  lemma LooksDistinct(a: Risk, b: Risk)
    requires a in {Green, Yellow, Red} && b in {Green, Yellow, Red} && a != b
    ensures LookOf(Some(a)).statusText != LookOf(Some(b)).statusText
  {
  }

  class Modal {
    var clause: ClauseObject?
    var negotiation: Option<NegotiationResult>
    var isNegotiating: bool
    var error: Option<string>

    constructor ()
      ensures clause == null && negotiation == None && !isNegotiating && error == None
    {
      clause := null;
      negotiation := None;
      isNegotiating := false;
      error := None;
    }

    /** The negotiate buttons are disabled exactly while a negotiation is
        in flight. */
    predicate NegotiateDisabled()
      reads this
    {
      isNegotiating
    }

    /** A new `clause` prop. The effect runs when the object differs from
        the last one; for a clause it resets the negotiation and the error
        and requests the detail. */
    method ReceiveClause(c: ClauseObject?) returns (request: Option<Api.Operation>)
      modifies this
      ensures clause == c
      ensures c == old(clause) || c == null ==>
        negotiation == old(negotiation) && error == old(error) && request == None
      ensures c != old(clause) && c != null ==>
        negotiation == None && error == None && request == Some(DetailRequest(c.Value()))
      ensures isNegotiating == old(isNegotiating)
    {
      request := None;
      if c != clause {
        clause := c;
        if c != null {
          negotiation := None;
          error := None;
          request := Some(Api.GetClauseDetail(c.documentId, ReplaceFirst(c.id, ".txt", "")));
        }
      }
    }

    /** The continuation of `fetchClauseDetail` for the clause it was started
        for. Success writes the two detail fields into that clause; failure
        reports an error and leaves the clause alone. */
    method DetailLoaded(target: ClauseObject, outcome: Outcome<Detail>)
      modifies this, target
      ensures outcome.Success? ==> target.Value() == WithDetail(old(target.Value()), outcome.payload) && error == old(error)
      ensures outcome.Failure? ==> target.Value() == old(target.Value()) && error == Some(DetailError)
      ensures clause == old(clause) && negotiation == old(negotiation) && isNegotiating == old(isNegotiating)
    {
      match outcome
      case Success(d) =>
        target.explanation := if Truthy(d.explanation) then d.explanation.value else NoExplanation;
        target.alternatives := if d.alternatives.Some? then d.alternatives.value else [];
      case Failure(_) =>
        error := Some(DetailError);
    }

    /** `handleNegotiate(tone)` up to its `await`: the clause is sent as it
        is (its id uncleaned) and the error is cleared. */
    method BeginNegotiate(tone: Tone) returns (call: Option<Api.Operation>)
      modifies this
      ensures clause == null ==> unchanged(this) && call == None
      ensures clause != null ==>
        && isNegotiating && NegotiateDisabled() && error == None
        && call == Some(Api.NegotiateClause(clause.documentId, clause.id, ToneName(tone), clause.text, RiskName(clause.risk)))
      ensures clause == old(clause) && negotiation == old(negotiation)
    {
      if clause == null {
        return None;
      }
      isNegotiating := true;
      error := None;
      call := Some(Api.NegotiateClause(clause.documentId, clause.id, ToneName(tone), clause.text, RiskName(clause.risk)));
    }

    /** A click on one of the three negotiate buttons. They are rendered
        only while the `isLoading` prop is false (a loader takes their place
        otherwise) and are disabled while a negotiation is in flight, so a
        second negotiation cannot start before the first has settled. */
    method ClickNegotiate(tone: Tone, isLoading: bool) returns (call: Option<Api.Operation>)
      modifies this
      ensures isLoading || old(NegotiateDisabled()) || clause == null ==> unchanged(this) && call == None
      ensures !isLoading && !old(NegotiateDisabled()) && clause != null ==>
        && NegotiateDisabled() && error == None
        && call == Some(Api.NegotiateClause(clause.documentId, clause.id, ToneName(tone), clause.text, RiskName(clause.risk)))
      ensures clause == old(clause) && negotiation == old(negotiation)
    {
      if isLoading || NegotiateDisabled() {
        call := None;
      } else {
        call := BeginNegotiate(tone);
      }
    }

    /** The continuation of `handleNegotiate`: the result is stored or the
        fixed error is shown; the clause is never written. */
    method EndNegotiate(outcome: Outcome<NegotiationResult>)
      modifies this
      ensures !isNegotiating && !NegotiateDisabled()
      ensures outcome.Success? ==> negotiation == Some(outcome.payload) && error == old(error)
      ensures outcome.Failure? ==> negotiation == old(negotiation) && error == Some(NegotiateError)
      ensures clause == old(clause)
      ensures clause != null ==> clause.Value() == old(clause.Value())
    {
      match outcome {
        case Success(res) =>
          negotiation := Some(res);
        case Failure(_) =>
          error := Some(NegotiateError);
      }
      isNegotiating := false;
    }
  }

  /** A whole negotiation: it ends with the buttons enabled again and the
      clause's text and risk as they were. */
  method Negotiate(m: Modal, tone: Tone, outcome: Outcome<NegotiationResult>)
    requires m.clause != null
    modifies m
    ensures !m.NegotiateDisabled()
    ensures m.clause == old(m.clause) && m.clause.text == old(m.clause.text) && m.clause.risk == old(m.clause.risk)
    ensures outcome.Success? ==> m.negotiation == Some(outcome.payload) && m.error == None
    ensures outcome.Failure? ==> m.error == Some(NegotiateError)
  {
    var call := m.BeginNegotiate(tone);
    m.EndNegotiate(outcome);
  }
}
