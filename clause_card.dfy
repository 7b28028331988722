/**
 * components/analysis/ClauseCard.tsx: the card of one analysed clause. Its
 * risk picks a colour scheme and a label; clicking it, or pressing Enter or
 * Space on it, reports the clause's id.
 */
module ClauseCard {
  import opened Types

  datatype CardConfig = CardConfig(ring: string, pillBg: string, pillText: string, icon: string, caption: string)

  const UnknownConfig: CardConfig :=
    CardConfig("hover:ring-slate-500/50", "bg-slate-700/50", "text-slate-400", "FileText", "General")

  /** `riskConfig[clause.risk] || riskConfig.unknown`. */
  function ConfigOf(risk: Risk): (c: CardConfig)
    ensures c == UnknownConfig <==> risk.Other?
    ensures risk == Green ==> c.caption == "Low Risk"
    ensures risk == Yellow ==> c.caption == "Medium Risk"
    ensures risk == Red ==> c.caption == "High Risk"
    ensures risk == Ghost ==> c.caption == "Missing Clause"
  {
    match risk
    case Green => CardConfig("hover:ring-green-500/50", "bg-green-500/10", "text-green-400", "CheckCircle2", "Low Risk")
    case Yellow => CardConfig("hover:ring-yellow-500/50", "bg-yellow-500/10", "text-yellow-400", "AlertTriangle", "Medium Risk")
    case Red => CardConfig("hover:ring-red-500/50", "bg-red-500/10", "text-red-400", "AlertOctagon", "High Risk")
    case Ghost => CardConfig("hover:ring-purple-500/50", "bg-purple-500/10", "text-purple-400", "Ghost", "Missing Clause")
    case Other(_) => UnknownConfig
  }

  /** The label tells the four named risks apart, and every unnamed risk
      reads the same. */
  lemma LabelsSeparateRisks(a: Risk, b: Risk)
    requires a.WellFormed() && b.WellFormed()
    ensures ConfigOf(a).caption == ConfigOf(b).caption <==> a == b || (a.Other? && b.Other?)
  {
  }

  /** A risk stored as a string reads as its label through `ParseRisk`; the
      string "unknown" and any other unnamed string get the general look. */
  lemma StringLookup(s: string)
    ensures s !in {"green", "yellow", "red", "ghost"} ==> ConfigOf(ParseRisk(s)) == UnknownConfig
    ensures s == "ghost" ==> ConfigOf(ParseRisk(s)).caption == "Missing Clause"
  {
  }

  /** What the card renders. `ringClass` is the interpolation
      `${!isSelected && config.ring}`, which reads "false" on a selected
      card. */
  datatype CardView = CardView(text: string, caption: string, ariaPressed: bool, selectedStyle: bool, ringClass: string)

  function ViewOf(clause: Clause, isSelected: bool): (v: CardView)
    ensures v.text == clause.text && v.caption == ConfigOf(clause.risk).caption
    ensures v.ariaPressed == isSelected && v.selectedStyle == isSelected
    ensures !isSelected ==> v.ringClass == ConfigOf(clause.risk).ring
    ensures isSelected ==> v.ringClass == "false"
  {
    var config := ConfigOf(clause.risk);
    CardView(clause.text, config.caption, isSelected, isSelected, if isSelected then "false" else config.ring)
  }

  /** The hover ring shows only on a card that is not selected. */
  lemma RingOnlyWhenUnselected(clause: Clause, isSelected: bool)
    ensures (ViewOf(clause, isSelected).ringClass == ConfigOf(clause.risk).ring) <==> !isSelected
  {
    var ring := ConfigOf(clause.risk).ring;
    assert ring[0] == 'h';
  }

  /** A click reports the clause's id. */
  function Click(clause: Clause): (id: string)
    ensures id == clause.id
  {
    clause.id
  }

  /** A key press reports the id for Enter and Space only. */
  function KeyDown(clause: Clause, key: string): (r: Option<string>)
    ensures r.Some? <==> key == "Enter" || key == " "
    ensures r.Some? ==> r.value == Click(clause)
  {
    if key == "Enter" || key == " " then Some(clause.id) else None
  }
}
