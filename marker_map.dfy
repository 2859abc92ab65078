/** The encounter map: the parameters of each encounter's marker (size, colour,
    ring, pulse, icon geometry), the map's initial centre, the level bar in the
    popup and the "new marker" highlight. Drawing is left to the map library. */
module MarkerMap {
  import opened Wrappers
  import opened Types
  import ParticipantProfile

  /** The colour used for anything unknown. */
  const Grey: string := "#94a3b8"

  /** `MARKER_SIZE`, keyed by severity. */
  function SizeOf(g: Gravidade): nat {
    match g
    case Critico => 36
    case Grave => 32
    case Moderado => 28
    case Leve => 24
  }

  /** `MARKER_SIZE[gravidade] || 28` on the stored severity string. */
  function MarkerSize(key: string): nat {
    match GravidadeFromKey(key)
    case Some(g) => SizeOf(g)
    case None => 28
  }

  /** A more severe encounter gets a strictly larger marker; an unknown severity gets
      the middle size 28. */
  lemma MarkerSizeOrdered(g: Gravidade, h: Gravidade, key: string)
    ensures Rank(g) < Rank(h) ==> MarkerSize(GravidadeKey(g)) < MarkerSize(GravidadeKey(h))
    ensures GravidadeFromKey(key).None? ==> MarkerSize(key) == 28
    ensures 24 <= MarkerSize(key) <= 36
  {
    GravidadeKeyRoundTrip(g);
    GravidadeKeyRoundTrip(h);
  }

  /** `config?.color || '#94a3b8'`. */
  function MarkerColor(key: string): string {
    match ConfigForKey(key)
    case Some(style) => style.color
    case None => Grey
  }

  /** `INDICATIVO_COLORS[indicativo]`: defined for the levels 1 to 5 only. */
  function IndicatorColor(level: real): Option<string> {
    if level == 1.0 then Some("#ef4444")
    else if level == 2.0 then Some("#f97316")
    else if level == 3.0 then Some("#eab308")
    else if level == 4.0 then Some("#22c55e")
    else if level == 5.0 then Some("#3b82f6")
    else None
  }

  /** The ring: the indicator's colour when the participant has a (non-zero)
      indicator, grey for an indicator outside 1 to 5, the marker's colour when
      there is none. */
  function RingColor(indicativo: Option<real>, color: string): string {
    if ParticipantProfile.NumTruthy(indicativo) then IndicatorColor(indicativo.value).GetOr(Grey) else color
  }

  /** The ring shows the marker's own colour when the participant has no indicator
      (absent or zero), the level's colour for a level from 1 to 5, and grey for any
      other level. */
  lemma RingColorSpec(indicativo: Option<real>, color: string)
    ensures !ParticipantProfile.NumTruthy(indicativo) ==> RingColor(indicativo, color) == color
    ensures ParticipantProfile.NumTruthy(indicativo) && IndicatorColor(indicativo.value).None? ==>
      RingColor(indicativo, color) == Grey
    ensures ParticipantProfile.NumTruthy(indicativo) && IndicatorColor(indicativo.value).Some? ==>
      RingColor(indicativo, color) == IndicatorColor(indicativo.value).value
    ensures (ParticipantProfile.NumTruthy(indicativo) && IndicatorColor(indicativo.value).None?) <==>
      (indicativo.Some? && indicativo.value != 0.0 &&
       indicativo.value != 1.0 && indicativo.value != 2.0 && indicativo.value != 3.0 &&
       indicativo.value != 4.0 && indicativo.value != 5.0)
  {
  }

  /** The pulse ring marks the grave and critical encounters. */
  predicate ShowPulse(key: string) {
    key == "critico" || key == "grave"
  }

  /** The parameters of one marker's icon. */
  datatype MarkerIcon = MarkerIcon(
    size: nat,
    color: string,
    ringColor: string,
    showPulse: bool,
    isNew: bool,
    side: nat,
    anchor: real,
    popupOffset: real)

  function MarkerIconFor(key: string, indicativo: Option<real>, isNew: bool): MarkerIcon {
    var size := MarkerSize(key);
    var color := MarkerColor(key);
    MarkerIcon(size, color, RingColor(indicativo, color), ShowPulse(key), isNew, size + 16,
               (size + 16) as real / 2.0, -((size as real) / 2.0 + 4.0))
  }

  /** For a stored encounter the marker takes its severity's size and display colour
      (never the fallbacks), pulses exactly for grave and critical, and its ring
      falls back to the severity colour when there is no indicator. */
  lemma MarkerIconOfSeverity(g: Gravidade, indicativo: Option<real>, isNew: bool)
    ensures var m := MarkerIconFor(GravidadeKey(g), indicativo, isNew);
      m.size == SizeOf(g) && m.color == GravidadeConfig(g).color &&
      (m.showPulse <==> g == Critico || g == Grave) &&
      (!ParticipantProfile.NumTruthy(indicativo) ==> m.ringColor == m.color) &&
      m.isNew == isNew
  {
    GravidadeKeyRoundTrip(g);
  }

  /** The icon is a square of side `size + 16` anchored at its centre, and the popup
      opens 4 pixels above the dot's top edge (the dot sits centred in the square),
      whatever the size. */
  lemma IconGeometry(key: string, indicativo: Option<real>, isNew: bool)
    ensures var m := MarkerIconFor(key, indicativo, isNew);
      m.side == m.size + 16 && 2.0 * m.anchor == m.side as real &&
      m.anchor + m.popupOffset == 4.0 && m.popupOffset < 0.0
  {
  }

  /** `center || (first encounter's position) || Ouro Preto`. */
  function DefaultCenter(center: Option<(real, real)>, list: seq<Atendimento>): (real, real) {
    if center.Some? then center.value
    else if |list| > 0 then (list[0].latitude, list[0].longitude)
    else (-20.3155, -43.8695)
  }

  /** An explicit centre wins; otherwise the map opens on the first encounter, and on
      the fixed default only when there is none. */
  lemma DefaultCenterSpec(center: Option<(real, real)>, list: seq<Atendimento>, a: Atendimento)
    ensures center.Some? ==> DefaultCenter(center, list) == center.value
    ensures center.None? ==> DefaultCenter(center, [a] + list) == (a.latitude, a.longitude)
    ensures DefaultCenter(None, []) == (-20.3155, -43.8695)
  {
  }

  /** Bar `lvl` of the popup's level bar is opaque when `lvl <= (indicativo || 0)`. */
  predicate LevelOpaque(lvl: int, indicativo: Option<real>) {
    lvl as real <= (if ParticipantProfile.NumTruthy(indicativo) then indicativo.value else 0.0)
  }

  /** The bar for a level `n` from 1 to 5 lights bars 1 to `n` and dims the rest, and
      the lit bar `n` has the colour of the marker's ring. */
  lemma LevelBarSpec(n: int, lvl: int, color: string)
    requires 1 <= n <= 5 && 1 <= lvl <= 5
    ensures LevelOpaque(lvl, Some(n as real)) <==> lvl <= n
    ensures IndicatorColor(n as real) == Some(RingColor(Some(n as real), color))
  {
  }

  /** A marker is highlighted as new when its id is among the new ids. */
  predicate IsNew(id: string, newMarkerIds: seq<string>) {
    id in newMarkerIds
  }

  /** The markers for a list of encounters: one per encounter, in order. */
  function Markers(list: seq<Atendimento>, newMarkerIds: seq<string>): (r: seq<MarkerIcon>)
    ensures |r| == |list|
  {
    seq(|list|, i requires 0 <= i < |list| =>
      MarkerIconFor(GravidadeKey(list[i].gravidade),
                    if list[i].participante.Some? then list[i].participante.value.indicativoSaude else None,
                    IsNew(list[i].id, newMarkerIds)))
  }

  /** Only the encounters named as new are highlighted, and with no new ids none is. */
  lemma MarkersHighlightNew(list: seq<Atendimento>, newMarkerIds: seq<string>, i: int)
    requires 0 <= i < |list|
    ensures Markers(list, newMarkerIds)[i].isNew <==> list[i].id in newMarkerIds
    ensures !Markers(list, [])[i].isNew
  {
  }
}
