/**
 * The radar chart's data (frontend/src/components/ScoreRadar.tsx): three base
 * metrics, then ROAS and Trust when the record has them.
 */
module Radar {
  import opened Maybe

  /** The legacy `scores` shape; any field may be missing at run time. */
  datatype Legacy = Legacy(authenticity: Option<real>, relevance: Option<real>, resonance: Option<real>)

  /** The `row` shape: the three base metrics plus the two optional ones. */
  datatype Metrics = Metrics(
    authenticity: Option<real>,
    relevance: Option<real>,
    resonance: Option<real>,
    expectedRoas: Option<real>,
    trustIndex: Option<real>)

  /** One spoke of the chart. */
  datatype Entry = Entry(metric: string, value: real)

  const AuthenticityLabel: string := "Authenticity"
  const RelevanceLabel: string := "Relevance"
  const ResonanceLabel: string := "Resonance"
  const RoasLabel: string := "ROAS"
  const TrustLabel: string := "Trust"

  /** `row?.f ?? scores?.f ?? 0`: only a missing value falls through, so a present 0 is kept. */
  function Coalesce(fromRow: Option<real>, fromScores: Option<real>): (v: real)
    ensures fromRow.Some? ==> v == fromRow.value
    ensures fromRow.None? && fromScores.Some? ==> v == fromScores.value
    ensures fromRow.None? && fromScores.None? ==> v == 0.0
  {
    fromRow.GetOr(fromScores.GetOr(0.0))
  }

  /** The three base metrics, in chart order. */
  datatype Base = Authenticity | Relevance | Resonance

  /** `row?.f`: missing when `row` is missing or lacks the field. */
  function FromRow(row: Option<Metrics>, b: Base): Option<real> {
    if row.None? then None
    else match b
      case Authenticity => row.value.authenticity
      case Relevance => row.value.relevance
      case Resonance => row.value.resonance
  }

  /** `scores?.f`. */
  function FromScores(scores: Option<Legacy>, b: Base): Option<real> {
    if scores.None? then None
    else match b
      case Authenticity => scores.value.authenticity
      case Relevance => scores.value.relevance
      case Resonance => scores.value.resonance
  }

  /** The value a base spoke shows. */
  function BaseValue(scores: Option<Legacy>, row: Option<Metrics>, b: Base): real {
    Coalesce(FromRow(row, b), FromScores(scores, b))
  }

  predicate HasRoas(row: Option<Metrics>) {
    row.Some? && row.value.expectedRoas.Some?
  }

  predicate HasTrust(row: Option<Metrics>) {
    row.Some? && row.value.trustIndex.Some?
  }

  /** Whether some entry carries the label. */
  predicate HasLabel(d: seq<Entry>, name: string) {
    exists i :: 0 <= i < |d| && d[i].metric == name
  }

  /**
   * The chart data: Authenticity, Relevance, Resonance always, in that order;
   * then ROAS exactly when `row` has an expected ROAS, then Trust exactly when
   * `row` has a trust index. ROAS and Trust never come from `scores`.
   */
  function RadarData(scores: Option<Legacy>, row: Option<Metrics>): (d: seq<Entry>)
    ensures 3 <= |d| <= 5
    ensures |d| == 3 + (if HasRoas(row) then 1 else 0) + (if HasTrust(row) then 1 else 0)
    ensures d[0] == Entry(AuthenticityLabel, BaseValue(scores, row, Authenticity))
    ensures d[1] == Entry(RelevanceLabel, BaseValue(scores, row, Relevance))
    ensures d[2] == Entry(ResonanceLabel, BaseValue(scores, row, Resonance))
    ensures HasLabel(d, RoasLabel) <==> HasRoas(row)
    ensures HasLabel(d, TrustLabel) <==> HasTrust(row)
    ensures forall i :: 3 <= i < |d| && d[i].metric == RoasLabel ==> d[i].value == row.value.expectedRoas.value
    ensures forall i :: 3 <= i < |d| && d[i].metric == TrustLabel ==> d[i].value == row.value.trustIndex.value
    ensures forall i, j :: 0 <= i < |d| && 0 <= j < |d| && d[i].metric == RoasLabel && d[j].metric == TrustLabel ==> i < j
  {
    var base := [
      Entry(AuthenticityLabel, BaseValue(scores, row, Authenticity)),
      Entry(RelevanceLabel, BaseValue(scores, row, Relevance)),
      Entry(ResonanceLabel, BaseValue(scores, row, Resonance))
    ];
    var withRoas := if HasRoas(row) then base + [Entry(RoasLabel, row.value.expectedRoas.value)] else base;
    var d := if HasTrust(row) then withRoas + [Entry(TrustLabel, row.value.trustIndex.value)] else withRoas;
    assert forall i :: 0 <= i < 3 ==> d[i].metric != RoasLabel && d[i].metric != TrustLabel;
    assert HasRoas(row) ==> d[3].metric == RoasLabel;
    assert HasTrust(row) ==> d[|d| - 1].metric == TrustLabel;
    d
  }

  /** A call with only the legacy three-metric shape draws exactly the three base spokes. */
  lemma LegacyOnlyHasThree(a: real, r: real, s: real)
    ensures RadarData(Some(Legacy(Some(a), Some(r), Some(s))), None)
         == [Entry(AuthenticityLabel, a), Entry(RelevanceLabel, r), Entry(ResonanceLabel, s)]
  {
  }

  /** A full record draws five spokes, ROAS before Trust. */
  lemma FullRecordHasFive(a: real, r: real, s: real, roas: real, trust: real)
    ensures RadarData(None, Some(Metrics(Some(a), Some(r), Some(s), Some(roas), Some(trust))))
         == [Entry(AuthenticityLabel, a), Entry(RelevanceLabel, r), Entry(ResonanceLabel, s),
             Entry(RoasLabel, roas), Entry(TrustLabel, trust)]
  {
  }
}
