/** The participant administration screen: the edit form, the payload it saves
    (empty fields become null, the age is parsed), the insert-or-update choice and
    the search over the list. The save and the list query are parameters. */
module Participantes {
  import opened Wrappers
  import opened Seqs
  import opened Text
  import opened Types

  /** The form's fields, all text inputs. */
  datatype ParticipanteForm = ParticipanteForm(
    nome: string,
    nfcTagId: string,
    cpf: string,
    idade: string,
    telefone: string,
    telefoneEmergencia: string,
    contatoEmergenciaNome: string,
    alergias: string,
    condicoesMedicas: string,
    medicamentos: string,
    tipoSanguineo: string)

  /** The age as the payload carries it: null, a number, or `NaN` when the field does
      not start with a number (serialised as null by the client). */
  datatype IdadeValue = Null | Int(n: int) | NaN

  datatype ParticipantePayload = ParticipantePayload(
    nome: string,
    nfcTagId: string,
    cpf: Option<string>,
    idade: IdadeValue,
    telefone: Option<string>,
    telefoneEmergencia: Option<string>,
    contatoEmergenciaNome: Option<string>,
    alergias: Option<string>,
    condicoesMedicas: Option<string>,
    medicamentos: Option<string>,
    tipoSanguineo: Option<string>)

  /** The save a submit performs. */
  datatype SaveRequest = Update(id: string, payload: ParticipantePayload) | Insert(payload: ParticipantePayload)

  const EmptyForm: ParticipanteForm := ParticipanteForm("", "", "", "", "", "", "", "", "", "", "")

  /** `idade?.toString() || ''`. */
  function IdadeText(idade: Option<int>): string {
    if idade.Some? then IntToString(idade.value) else ""
  }

  /** The form `handleEdit` fills in for a participant. */
  function EditForm(p: Participante): ParticipanteForm {
    ParticipanteForm(p.nome, p.nfcTagId, EmptyIfNull(p.cpf), IdadeText(p.idade), EmptyIfNull(p.telefone),
                     EmptyIfNull(p.telefoneEmergencia), EmptyIfNull(p.contatoEmergenciaNome),
                     EmptyIfNull(p.alergias), EmptyIfNull(p.condicoesMedicas), EmptyIfNull(p.medicamentos),
                     EmptyIfNull(p.tipoSanguineo))
  }

  /** `form.idade ? parseInt(form.idade) : null`. */
  function IdadeOf(s: string): IdadeValue {
    if s == "" then Null
    else match ParseInt(s)
      case Some(n) => Int(n)
      case None => NaN
  }

  /** The payload `handleSubmit` saves for a form. */
  function PayloadOf(f: ParticipanteForm): ParticipantePayload {
    ParticipantePayload(f.nome, f.nfcTagId, NullIfEmpty(f.cpf), IdadeOf(f.idade), NullIfEmpty(f.telefone),
                        NullIfEmpty(f.telefoneEmergencia), NullIfEmpty(f.contatoEmergenciaNome),
                        NullIfEmpty(f.alergias), NullIfEmpty(f.condicoesMedicas), NullIfEmpty(f.medicamentos),
                        NullIfEmpty(f.tipoSanguineo))
  }

  /** An optional column as it comes back after editing and saving: a non-empty value
      unchanged, an absent or empty one as null. */
  function Resaved(o: Option<string>): (r: Option<string>)
    ensures r.Some? <==> TruthyOpt(o)
    ensures r.Some? ==> r == o
  {
    NullIfEmpty(EmptyIfNull(o))
  }

  /** The age as it comes back after editing and saving. */
  function ResavedIdade(idade: Option<int>): IdadeValue {
    if idade.Some? then Int(idade.value) else Null
  }

  /** Editing a participant and saving without changes writes back its name, tag
      and age unchanged, every non-empty optional field unchanged, and null for the
      absent or empty ones. */
  lemma EditThenSaveRoundTrip(p: Participante)
    ensures var r := PayloadOf(EditForm(p));
      r.nome == p.nome && r.nfcTagId == p.nfcTagId && r.idade == ResavedIdade(p.idade) &&
      r.cpf == Resaved(p.cpf) && r.telefone == Resaved(p.telefone) &&
      r.telefoneEmergencia == Resaved(p.telefoneEmergencia) &&
      r.contatoEmergenciaNome == Resaved(p.contatoEmergenciaNome) &&
      r.alergias == Resaved(p.alergias) && r.condicoesMedicas == Resaved(p.condicoesMedicas) &&
      r.medicamentos == Resaved(p.medicamentos) && r.tipoSanguineo == Resaved(p.tipoSanguineo)
  {
    if p.idade.Some? {
      ParseIntToString(p.idade.value);
      IntToStringNonEmpty(p.idade.value);
    }
  }

  lemma IntToStringNonEmpty(n: int)
    ensures IntToString(n) != ""
  {
  }

  /** An age field holding nothing or the plain decimal form of an integer. */
  predicate CanonicalIdade(s: string) {
    s == "" || (ParseInt(s).Some? && IntToString(ParseInt(s).value) == s)
  }

  /** The row a save writes: the payload's columns over the stored row (`NaN` is
      stored as null). */
  function Saved(base: Participante, r: ParticipantePayload): Participante {
    base.(nome := r.nome, nfcTagId := r.nfcTagId, cpf := r.cpf,
          idade := if r.idade.Int? then Some(r.idade.n) else None,
          telefone := r.telefone, telefoneEmergencia := r.telefoneEmergencia,
          contatoEmergenciaNome := r.contatoEmergenciaNome, alergias := r.alergias,
          condicoesMedicas := r.condicoesMedicas, medicamentos := r.medicamentos,
          tipoSanguineo := r.tipoSanguineo)
  }

  /** The other direction: saving a form and opening the saved row for editing
      gives the same form back, when the age field is empty or a plain integer. */
  lemma SaveThenEditRoundTrip(base: Participante, f: ParticipanteForm)
    requires CanonicalIdade(f.idade)
    ensures EditForm(Saved(base, PayloadOf(f))) == f
  {
    if f.idade != "" {
      assert IdadeOf(f.idade) == Int(ParseInt(f.idade).value);
    }
  }

  /** `if (editingId)`: update by the edited id, otherwise insert. */
  function SaveRequestFor(editingId: Option<string>, payload: ParticipantePayload): (r: SaveRequest)
    ensures r.payload == payload
    ensures r.Update? <==> TruthyOpt(editingId)
    ensures r.Update? ==> Some(r.id) == editingId
  {
    if editingId.Some? && editingId.value != "" then Update(editingId.value, payload) else Insert(payload)
  }

  // ---------------------------------------------------------------------------
  // Search

  /** A participant matches a query when its lower-cased name or tag contains the
      lower-cased query. */
  predicate Matches(p: Participante, query: string) {
    Includes(ToLower(p.nome), ToLower(query)) || Includes(ToLower(p.nfcTagId), ToLower(query))
  }

  /** `filtered`: the whole list for an empty query, else the matching participants. */
  function Search(list: seq<Participante>, query: string): seq<Participante> {
    if query == "" then list else Filter(list, MatchesQuery(query))
  }

  function MatchesQuery(query: string): Participante -> bool {
    (p: Participante) => Matches(p, query)
  }

  /** An empty query shows everybody, and any query shows exactly the participants
      that match it, in the list's order. */
  lemma SearchSpec(list: seq<Participante>, query: string)
    ensures query == "" ==> Search(list, query) == list
    ensures var r := Search(list, query);
      IsSubsequence(r, list) &&
      (forall p :: multiset(r)[p] == if Matches(p, query) then multiset(list)[p] else 0)
  {
    if query == "" {
      assert IsSubsequence(list, list) by { SubsequenceRefl(list); }
      forall p ensures Matches(p, "") {
        IncludesEmpty(ToLower(p.nome));
      }
    } else {
      FilterSpec(list, MatchesQuery(query));
    }
  }

  lemma {:induction false} SubsequenceRefl<T>(s: seq<T>)
    ensures IsSubsequence(s, s)
  {
    if s != [] {
      SubsequenceRefl(s[1..]);
    }
  }

  /** The search ignores case: a query and its lower-cased form show the same list. */
  lemma SearchIgnoresCase(list: seq<Participante>, query: string)
    requires ToLower(query) != ""
    ensures Search(list, query) == Search(list, ToLower(query))
  {
    ToLowerIdempotent(query);
    FilterCongruent(list, MatchesQuery(query), MatchesQuery(ToLower(query)));
  }

  // ---------------------------------------------------------------------------
  // The screen's state

  class ParticipantesPage {
    var participantes: seq<Participante>
    var loading: bool
    var form: ParticipanteForm
    var editingId: Option<string>
    var formError: string
    var saving: bool
    var showForm: bool

    constructor()
      ensures participantes == [] && loading && form == EmptyForm && editingId.None?
      ensures formError == "" && !saving && !showForm
    {
      participantes := [];
      loading := true;
      form := EmptyForm;
      editingId := None;
      formError := "";
      saving := false;
      showForm := false;
    }

    /** `fetchParticipantes`: the list is replaced only when the query returned rows. */
    method FetchParticipantes(rows: Option<seq<Participante>>)
      modifies this
      ensures participantes == if rows.Some? then rows.value else old(participantes)
      ensures !loading
      ensures form == old(form) && editingId == old(editingId) && formError == old(formError)
      ensures saving == old(saving) && showForm == old(showForm)
    {
      if rows.Some? {
        participantes := rows.value;
      }
      loading := false;
    }

    /** `resetForm`. */
    method ResetForm()
      modifies this
      ensures form == EmptyForm && editingId.None? && formError == ""
      ensures participantes == old(participantes) && loading == old(loading)
      ensures saving == old(saving) && showForm == old(showForm)
    {
      form := EmptyForm;
      editingId := None;
      formError := "";
    }

    /** `handleEdit(p)`: the participant's fields in the form, its id being edited,
        the form open. */
    method HandleEdit(p: Participante)
      modifies this
      ensures form == EditForm(p) && editingId == Some(p.id) && showForm
      ensures form.nome == p.nome && form.nfcTagId == p.nfcTagId
      ensures form.cpf == "" <==> !TruthyOpt(p.cpf)
      ensures form.idade == "" <==> p.idade.None?
      ensures participantes == old(participantes) && loading == old(loading)
      ensures formError == old(formError) && saving == old(saving)
    {
      form := EditForm(p);
      editingId := Some(p.id);
      showForm := true;
      if p.idade.Some? {
        IntToStringNonEmpty(p.idade.value);
      }
    }

    /** `handleSubmit`: saves the form's payload (update when editing, insert
        otherwise). On an error the form stays as it is and shows the message; on
        success the form is reset and closed and the list refetched. */
    method HandleSubmit(saveError: Option<string>, refetched: Option<seq<Participante>>) returns (request: SaveRequest)
      modifies this
      ensures request == SaveRequestFor(old(editingId), PayloadOf(old(form)))
      ensures !saving
      ensures saveError.Some? ==>
        formError == saveError.value && form == old(form) && editingId == old(editingId) &&
        showForm == old(showForm) && participantes == old(participantes) && loading == old(loading)
      ensures saveError.None? ==>
        formError == "" && form == EmptyForm && editingId.None? && !showForm && !loading &&
        participantes == (if refetched.Some? then refetched.value else old(participantes))
    {
      formError := "";
      saving := true;
      var payload := PayloadOf(form);
      request := SaveRequestFor(editingId, payload);
      if saveError.Some? {
        formError := saveError.value;
      } else {
        ResetForm();
        showForm := false;
        FetchParticipantes(refetched);
      }
      saving := false;
    }
  }
}
