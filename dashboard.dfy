/** The dashboard's aggregation of the fetched encounter list: the severity filter
    behind the map and the list, the per-severity counters on the filter buttons,
    the "Graves / Críticos" total and the defaults of the backend counts. */
module Dashboard {
  import opened Wrappers
  import opened Seqs
  import opened Types

  /** The value of the "all severities" filter. */
  const Todos: string := "todos"

  /** `filteredAtendimentos`: the whole list for `todos`, otherwise the encounters
      whose stored severity key equals the filter value. */
  function FilteredAtendimentos(list: seq<Atendimento>, filtro: string): seq<Atendimento> {
    if filtro == Todos then list
    else Filter(list, HasKey(filtro))
  }

  /** `a => a.gravidade === filtro`. */
  function HasKey(filtro: string): Atendimento -> bool {
    (a: Atendimento) => GravidadeKey(a.gravidade) == filtro
  }

  predicate IsGravidade(a: Atendimento, g: Gravidade) {
    a.gravidade == g
  }

  /** `countByGravidade(g)`. */
  function CountByGravidade(list: seq<Atendimento>, g: Gravidade): nat {
    |Filter(list, (a: Atendimento) => IsGravidade(a, g))|
  }

  /** The "Graves / Críticos" stat. */
  function GravesCriticos(list: seq<Atendimento>): nat {
    CountByGravidade(list, Critico) + CountByGravidade(list, Grave)
  }

  /** `todos` shows the list unchanged. */
  lemma FilterTodosIsIdentity(list: seq<Atendimento>)
    ensures FilteredAtendimentos(list, Todos) == list
  {
  }

  /** Filtering by a severity keeps exactly the encounters of that severity, each as
      often as in the list and in the list's order. */
  lemma FilterBySeverityExact(list: seq<Atendimento>, g: Gravidade)
    ensures var r := FilteredAtendimentos(list, GravidadeKey(g));
      IsSubsequence(r, list) &&
      (forall i :: 0 <= i < |r| ==> r[i].gravidade == g) &&
      (forall a :: multiset(r)[a] == if a.gravidade == g then multiset(list)[a] else 0)
  {
    var r := FilteredAtendimentos(list, GravidadeKey(g));
    assert GravidadeKey(g) != Todos;
    FilterSpec(list, HasKey(GravidadeKey(g)));
    forall a: Atendimento
      ensures (GravidadeKey(a.gravidade) == GravidadeKey(g)) == (a.gravidade == g)
    {
      GravidadeKeyInjective(a.gravidade, g);
    }
  }

  /** The counter on a severity's button is the length of the list that filter shows. */
  lemma {:induction false} CountMatchesFilter(list: seq<Atendimento>, g: Gravidade)
    ensures CountByGravidade(list, g) == |FilteredAtendimentos(list, GravidadeKey(g))|
  {
    assert GravidadeKey(g) != Todos;
    forall i | 0 <= i < |list|
      ensures IsGravidade(list[i], g) == (GravidadeKey(list[i].gravidade) == GravidadeKey(g))
    {
      GravidadeKeyInjective(list[i].gravidade, g);
    }
    FilterCongruent(list, (a: Atendimento) => IsGravidade(a, g), HasKey(GravidadeKey(g)));
  }

  /** A filter value that is neither `todos` nor a severity key shows nothing. */
  lemma UnknownFilterShowsNothing(list: seq<Atendimento>, filtro: string)
    requires filtro != Todos && GravidadeFromKey(filtro).None?
    ensures FilteredAtendimentos(list, filtro) == []
  {
    var r := FilteredAtendimentos(list, filtro);
    if r != [] {
      assert GravidadeKey(r[0].gravidade) == filtro;
      GravidadeKeyRoundTrip(r[0].gravidade);
      assert false;
    }
  }

  /** The four counters partition the list: they add up to "Total Atendimentos". */
  lemma {:induction false} CountsSumToTotal(list: seq<Atendimento>)
    ensures CountByGravidade(list, Leve) + CountByGravidade(list, Moderado) +
            CountByGravidade(list, Grave) + CountByGravidade(list, Critico) == |list|
  {
    if list != [] {
      CountsSumToTotal(list[1..]);
    }
  }

  /** "Graves / Críticos" never exceeds the total. */
  lemma GravesCriticosBounded(list: seq<Atendimento>)
    ensures GravesCriticos(list) <= |list|
  {
    CountsSumToTotal(list);
  }

  /** `count || 0`: a missing backend count shows as 0. */
  function CountOrZero(count: Option<nat>): (r: nat)
    ensures count.None? ==> r == 0
    ensures count.Some? ==> r == count.value
  {
    count.GetOr(0)
  }

  /** `at.fotos?.length || 0`. */
  function PhotoCount(at: Atendimento): (r: nat)
    ensures at.fotos.None? ==> r == 0
    ensures at.fotos.Some? ==> r == |at.fotos.value|
  {
    if at.fotos.Some? then |at.fotos.value| else 0
  }

  /** Colour of the status column: amber while in progress, green when finished,
      blue for any other status (referred). */
  function StatusColor(s: StatusAtendimento): string {
    if s == EmAndamento then "#f59e0b"
    else if s == Finalizado then "#22c55e"
    else "#0ea5e9"
  }

  /** Each colour of the status chart belongs to exactly one status, so the three
      statuses are never drawn alike. */
  lemma StatusColorSpec(s: StatusAtendimento)
    ensures StatusColor(s) == "#f59e0b" <==> s == EmAndamento
    ensures StatusColor(s) == "#22c55e" <==> s == Finalizado
    ensures StatusColor(s) == "#0ea5e9" <==> s == Encaminhado
  {
  }
}
