/** The participant card: the body-mass index with its colour band and its
    six-segment scale, the 1-to-5 health indicator with its pointer, and the rules
    that decide which sections of the card appear. Numbers are exact reals. */
module ParticipantProfile {
  import opened Wrappers
  import opened Seqs
  import opened Text
  import opened Types

  /** A JavaScript number is truthy when present and not zero. */
  predicate NumTruthy(x: Option<real>) {
    x.Some? && x.value != 0.0
  }

  // ---------------------------------------------------------------------------
  // Body-mass index

  /** `peso / (altura * altura)`, shown only when both are truthy. */
  function Bmi(p: Participante): Option<real> {
    if !NumTruthy(p.peso) || !NumTruthy(p.altura) then None
    else Some(p.peso.value / (p.altura.value * p.altura.value))
  }

  /** The index is shown exactly when weight and height are both non-zero, and then
      it is the weight per square of the height. */
  lemma BmiSpec(p: Participante)
    ensures Bmi(p).Some? <==> NumTruthy(p.peso) && NumTruthy(p.altura)
    ensures Bmi(p).Some? ==> Bmi(p).value * (p.altura.value * p.altura.value) == p.peso.value
    ensures Bmi(p).Some? && p.peso.value > 0.0 ==> Bmi(p).value > 0.0
  {
  }

  const Blue: string := "#3b82f6"
  const Green: string := "#22c55e"
  const Yellow: string := "#eab308"
  const Red: string := "#ef4444"

  /** The colour of the index: the if-chain of the vitals strip. */
  function BmiColor(imc: real): string {
    if imc < 18.5 then Blue
    else if imc >= 25.0 && imc < 30.0 then Yellow
    else if imc >= 30.0 then Red
    else Green
  }

  /** The colours partition the reals into four bands: below 18.5, [18.5, 25),
      [25, 30) and from 30 up. */
  lemma BmiColorBands(imc: real)
    ensures BmiColor(imc) == Blue <==> imc < 18.5
    ensures BmiColor(imc) == Green <==> 18.5 <= imc < 25.0
    ensures BmiColor(imc) == Yellow <==> 25.0 <= imc < 30.0
    ensures BmiColor(imc) == Red <==> imc >= 30.0
  {
  }

  /** A segment's upper bound: a number or `Infinity`. */
  datatype Bound = Finite(max: real) | Infinity

  datatype ImcSegment = ImcSegment(labelText: string, color: string, bound: Bound)

  /** `imc <= s.max`. */
  predicate AtMost(imc: real, b: Bound) {
    b.Infinity? || imc <= b.max
  }

  /** The scale under the index, with the bounds as written. */
  const ImcSegments: seq<ImcSegment> := [
    ImcSegment("Ab", Blue, Finite(18.49)),
    ImcSegment("Nm", Green, Finite(24.99)),
    ImcSegment("Sp", Yellow, Finite(29.99)),
    ImcSegment("Ob1", "#f97316", Finite(34.99)),
    ImcSegment("Ob2", Red, Finite(39.99)),
    ImcSegment("Ob3", "#a855f7", Infinity)
  ]

  /** The segment the pointer marks, as written: the first whose bound the index
      does not exceed. */
  function SegmentIndex(imc: real): int {
    FindIndex(ImcSegments, (s: ImcSegment) => AtMost(imc, s.bound))
  }

  /** The pointer always lands on one of the six segments (the last one is
      unbounded), and a larger index never moves it left. */
  lemma SegmentIndexRangeMonotone(imc: real, other: real)
    ensures 0 <= SegmentIndex(imc) < |ImcSegments|
    ensures imc <= other ==> SegmentIndex(imc) <= SegmentIndex(other)
  {
    var i := SegmentIndex(imc);
    var j := SegmentIndex(other);
    assert AtMost(imc, ImcSegments[5].bound);
    assert AtMost(other, ImcSegments[5].bound);
    if imc <= other {
      assert AtMost(imc, ImcSegments[j].bound);
    }
  }

  /** As written, the scale and the colour band disagree just below each band
      boundary: at 18.495 the index is coloured as underweight while the pointer
      sits on the normal segment. */
  lemma SegmentDisagreesWithBand()
    ensures BmiColor(18.495) == Blue && SegmentIndex(18.495) == 1
    ensures ImcSegments[SegmentIndex(18.495)].color != BmiColor(18.495)
  {
    assert !AtMost(18.495, ImcSegments[0].bound);
    assert AtMost(18.495, ImcSegments[1].bound);
  }

  /** The colour band a segment of the scale lies in: its own colour for the first
      three, red for the three obesity segments. */
  function BandOf(i: int): string
    requires 0 <= i < |ImcSegments|
  {
    if i < 3 then ImcSegments[i].color else Red
  }

  /** As written, the pointer's segment and the index's colour band disagree exactly
      in the three gaps (18.49, 18.5), (24.99, 25) and (29.99, 30), and nowhere else. */
  lemma SegmentBandDisagreement(imc: real)
    ensures 0 <= SegmentIndex(imc) < |ImcSegments|
    ensures BandOf(SegmentIndex(imc)) != BmiColor(imc) <==>
      (18.49 < imc < 18.5) || (24.99 < imc < 25.0) || (29.99 < imc < 30.0)
  {
    SegmentIndexRangeMonotone(imc, imc);
    var i := SegmentIndex(imc);
    assert AtMost(imc, ImcSegments[i].bound);
    if i > 0 {
      assert !AtMost(imc, ImcSegments[i - 1].bound);
    }
  }

  /** The scale with the bounds of the colour bands (`imc < max`). */
  const CorrectedBounds: seq<Bound> := [Finite(18.5), Finite(25.0), Finite(30.0), Finite(35.0), Finite(40.0), Infinity]

  /** `imc < max`. */
  predicate Below(imc: real, b: Bound) {
    b.Infinity? || imc < b.max
  }

  /** The segment the pointer marks, with the bounds of the colour bands. */
  function CorrectedSegmentIndex(imc: real): int {
    FindIndex(CorrectedBounds, (b: Bound) => Below(imc, b))
  }

  /** With those bounds the pointer always lands on a segment whose colour is the
      index's colour band (the last three segments all lie in the red band). */
  lemma CorrectedSegmentAgreesWithBand(imc: real)
    ensures 0 <= CorrectedSegmentIndex(imc) < |ImcSegments|
    ensures CorrectedSegmentIndex(imc) < 3 ==> ImcSegments[CorrectedSegmentIndex(imc)].color == BmiColor(imc)
    ensures CorrectedSegmentIndex(imc) >= 3 <==> BmiColor(imc) == Red
  {
    var i := CorrectedSegmentIndex(imc);
    assert Below(imc, CorrectedBounds[5]);
    if i > 0 {
      assert !Below(imc, CorrectedBounds[i - 1]);
    }
    if i < 3 {
      assert Below(imc, CorrectedBounds[i]);
    }
  }

  /** The pointer of the scale for a participant with the corrected bounds; -1 when
      the index is not shown. */
  function CorrectedBmiPointer(p: Participante): int {
    if Bmi(p).Some? then CorrectedSegmentIndex(Bmi(p).value) else -1
  }

  // ---------------------------------------------------------------------------
  // Health indicator

  /** The values of the indicator's five segments. */
  const IndicatorValues: seq<real> := [1.0, 2.0, 3.0, 4.0, 5.0]

  /** `indicativo_saude || 0`. */
  function Level(p: Participante): real {
    if NumTruthy(p.indicativoSaude) then p.indicativoSaude.value else 0.0
  }

  /** `segments.findIndex(s => s.val === level)`. */
  function HealthPointerIndex(level: real): int {
    FindIndex(IndicatorValues, (v: real) => v == level)
  }

  /** The pointer marks segment `level - 1` for the levels 1 to 5 and no segment for
      any other value. */
  lemma HealthPointerSpec(level: real)
    ensures level in IndicatorValues ==> HealthPointerIndex(level) as real == level - 1.0
    ensures level !in IndicatorValues ==> HealthPointerIndex(level) == -1
  {
    var i := HealthPointerIndex(level);
    if i >= 0 {
      assert IndicatorValues[i] == (i + 1) as real;
    }
  }

  // ---------------------------------------------------------------------------
  // Which sections appear

  predicate ShowWarnings(p: Participante) {
    TruthyOpt(p.alergias) || TruthyOpt(p.observacaoHakuna)
  }

  predicate ShowMeta(p: Participante) {
    TruthyOpt(p.biotipo) || TruthyOpt(p.atividadeFisicaSemanal) || TruthyOpt(p.planoSaude) ||
    TruthyOpt(p.equipeFamilia)
  }

  predicate ShowHealthIndicator(p: Participante) {
    NumTruthy(p.indicativoSaude)
  }

  predicate ShowMedical(p: Participante) {
    TruthyOpt(p.condicoesMedicas) || TruthyOpt(p.medicamentos) || TruthyOpt(p.outrasInformacoesMedicas)
  }

  predicate ShowCirurgias(p: Participante) {
    TruthyOpt(p.cirurgias)
  }

  predicate ShowEmergencyContact(p: Participante) {
    TruthyOpt(p.telefoneEmergencia) || TruthyOpt(p.contatoEmergenciaNome)
  }

  /** Inside the indicator section the `|| 0` fallback never applies: the level is
      the stored indicator, and a whole level from 1 to 5 gets its pointer. */
  lemma HealthSectionUsesStoredLevel(p: Participante)
    requires ShowHealthIndicator(p)
    ensures Level(p) == p.indicativoSaude.value
    ensures Level(p) in IndicatorValues ==> HealthPointerIndex(Level(p)) >= 0
  {
    HealthPointerSpec(Level(p));
  }

  /** A participant with no optional data shows none of the optional sections, no
      index and no pointer. */
  lemma BareParticipantShowsNoSections(p: Participante)
    requires p.alergias.None? && p.observacaoHakuna.None? && p.biotipo.None?
    requires p.atividadeFisicaSemanal.None? && p.planoSaude.None? && p.equipeFamilia.None?
    requires p.indicativoSaude.None? && p.condicoesMedicas.None? && p.medicamentos.None?
    requires p.outrasInformacoesMedicas.None? && p.cirurgias.None? && p.telefoneEmergencia.None?
    requires p.contatoEmergenciaNome.None? && p.peso.None?
    ensures !ShowWarnings(p) && !ShowMeta(p) && !ShowHealthIndicator(p) && !ShowMedical(p)
    ensures !ShowCirurgias(p) && !ShowEmergencyContact(p) && Bmi(p).None? && CorrectedBmiPointer(p) == -1
  {
  }
}
