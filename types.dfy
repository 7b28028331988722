/**
 * The entities of lib/types.ts and the payload shapes the components read
 * from the analysis API.
 */
module Types {

  datatype Option<+T> = None | Some(value: T)

  /** How an awaited remote call settled: the value it resolved to, or the
      message of the error it threw. */
  datatype Outcome<+T> = Success(payload: T) | Failure(msg: string)

  /** JavaScript truthiness of an optional string: undefined and "" are falsy. */
  predicate Truthy(s: Option<string>) {
    s.Some? && s.value != ""
  }

  /** A clause's risk rating. lib/types.ts admits four names, but the
      components compare the field against strings and fall back on anything
      else, so every other string is kept as `Other`. */
  datatype Risk = Green | Yellow | Red | Ghost | Other(name: string)
  {
    /** `Other` never carries one of the four known names. */
    predicate WellFormed() {
      Other? ==> name != "green" && name != "yellow" && name != "red" && name != "ghost"
    }
  }

  /** The string a risk is stored as. */
  function RiskName(r: Risk): string {
    match r
    case Green => "green"
    case Yellow => "yellow"
    case Red => "red"
    case Ghost => "ghost"
    case Other(n) => n
  }

  /** Reads a risk string as it arrives from the backend. */
  function ParseRisk(s: string): (r: Risk)
    ensures r.WellFormed()
    ensures RiskName(r) == s
  {
    if s == "green" then Green
    else if s == "yellow" then Yellow
    else if s == "red" then Red
    else if s == "ghost" then Ghost
    else Other(s)
  }

  lemma ParseRiskName(r: Risk)
    requires r.WellFormed()
    ensures ParseRisk(RiskName(r)) == r
  {
  }

  datatype LegalAid = LegalAid(name: string, url: string)

  datatype Clause = Clause(
    id: string,
    documentId: string,
    text: string,
    risk: Risk,
    explanation: string,
    alternatives: seq<string>,
    legalAids: seq<LegalAid>)

  /** A recorded change to a document (`type` is `changeType` here). */
  datatype Change = Change(
    id: string,
    documentId: string,
    timestamp: string,
    changeType: string,
    affectedClauseIds: seq<string>,
    riskImpact: string)

  /** The parts of a browser `File` the components look at. */
  datatype FileInfo = FileInfo(name: string, size: nat, mimeType: string)

  /** An entry of the chat list returned by `getSessions`. */
  datatype SessionSummary = SessionSummary(sessionId: string, title: string, lastUpdated: string)

  /** An entry of a stored chat session's history. */
  datatype HistoryEntry = HistoryEntry(role: string, content: string)

  /** A missing-clause suggestion returned by `insertGhostClause`. */
  datatype MissingClause = MissingClause(clauseName: string, description: string, reason: string)

  /** What `negotiateClause` resolves to. */
  datatype NegotiationResult = NegotiationResult(rewrittenClause: string, riskAfter: string, aiExplanation: string)

  /** The options `exportRedline` takes; the watermark may be absent. */
  datatype ExportOptions = ExportOptions(includeGhosts: bool, includeEli5: bool, watermark: Option<string>)

  datatype Tone = Friendly | Firm | Aggressive

  function ToneName(t: Tone): string {
    match t
    case Friendly => "friendly"
    case Firm => "firm"
    case Aggressive => "aggressive"
  }
}
