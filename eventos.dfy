/** The event administration screen: the edit form and its payload (the creator is
    recorded only on creation), insert or update, archiving and reactivating, the
    status badge and the archive/reactivate button. Backend answers are parameters. */
module Eventos {
  import opened Wrappers
  import opened Text
  import opened Types

  datatype EventoForm = EventoForm(
    nome: string,
    descricao: string,
    fotoUrl: string,
    dataInicio: string,
    dataFim: string,
    status: EventoStatus)

  /** The `created_by` column of a payload: absent from an update, the signed-in
      user's id (or undefined) on an insert. */
  datatype CreatedBy = Omitted | Included(userId: Option<string>)

  datatype EventoPayload = EventoPayload(
    nome: string,
    descricao: Option<string>,
    fotoUrl: Option<string>,
    dataInicio: Option<string>,
    dataFim: Option<string>,
    status: EventoStatus,
    createdBy: CreatedBy)

  datatype SaveRequest = Update(id: string, payload: EventoPayload) | Insert(payload: EventoPayload)

  /** A status change sent for one event. */
  datatype StatusUpdate = StatusUpdate(eventoId: string, status: EventoStatus)

  /** The action button shown on an event's card. */
  datatype CardAction = Archive | Reactivate

  datatype StatusBadge = StatusBadge(labelText: string, color: string, bg: string)

  const EmptyEventoForm: EventoForm := EventoForm("", "", "", "", "", Draft)

  /** `d ? d.slice(0, 10) : ''`: the date part of a stored timestamp. */
  function DateField(d: Option<string>): string {
    if TruthyOpt(d) then Prefix(d.value, 10) else ""
  }

  /** The form `handleEdit` fills in for an event. */
  function EditForm(e: Evento): EventoForm {
    EventoForm(e.nome, EmptyIfNull(e.descricao), EmptyIfNull(e.fotoUrl), DateField(e.dataInicio),
               DateField(e.dataFim), e.status)
  }

  /** The payload for a form; `editing` says whether an event is being edited. */
  function PayloadOf(f: EventoForm, editing: bool, userId: Option<string>): EventoPayload {
    EventoPayload(f.nome, NullIfEmpty(f.descricao), NullIfEmpty(f.fotoUrl), NullIfEmpty(f.dataInicio),
                  NullIfEmpty(f.dataFim), f.status, if editing then Omitted else Included(userId))
  }

  /** The creator is recorded on creation only, so an update never overwrites it. */
  lemma CreatorOnlyOnCreate(f: EventoForm, editing: bool, userId: Option<string>)
    ensures PayloadOf(f, editing, userId).createdBy.Omitted? <==> editing
    ensures !editing ==> PayloadOf(f, editing, userId).createdBy == Included(userId)
  {
  }

  /** Editing an event and saving it unchanged keeps its name and status, keeps every
      non-empty text column, writes null for empty ones, and cuts each date to at
      most its first ten characters (the date part), never to nothing. */
  lemma EditThenSave(e: Evento, userId: Option<string>)
    ensures var r := PayloadOf(EditForm(e), true, userId);
      r.nome == e.nome && r.status == e.status && r.createdBy == Omitted &&
      (r.descricao.Some? <==> TruthyOpt(e.descricao)) && (r.descricao.Some? ==> r.descricao == e.descricao) &&
      (r.fotoUrl.Some? <==> TruthyOpt(e.fotoUrl)) && (r.fotoUrl.Some? ==> r.fotoUrl == e.fotoUrl) &&
      (r.dataInicio.Some? <==> TruthyOpt(e.dataInicio)) &&
      (r.dataInicio.Some? ==> StartsWith(e.dataInicio.value, r.dataInicio.value) &&
                              |r.dataInicio.value| == Min(10, |e.dataInicio.value|)) &&
      (r.dataFim.Some? <==> TruthyOpt(e.dataFim)) &&
      (r.dataFim.Some? ==> StartsWith(e.dataFim.value, r.dataFim.value) &&
                           |r.dataFim.value| == Min(10, |e.dataFim.value|))
  {
  }

  function Min(a: int, b: int): int {
    if a <= b then a else b
  }

  /** A stored date comes back from editing and saving unchanged exactly when it is
      absent or already in `YYYY-MM-DD` form (non-empty, ten characters or fewer);
      the same holds for the start and the end date. */
  lemma ShortDateSurvives(e: Evento, userId: Option<string>)
    ensures PayloadOf(EditForm(e), true, userId).dataInicio == e.dataInicio <==>
      e.dataInicio.None? || 0 < |e.dataInicio.value| <= 10
    ensures PayloadOf(EditForm(e), true, userId).dataFim == e.dataFim <==>
      e.dataFim.None? || 0 < |e.dataFim.value| <= 10
  {
    DateSurvives(e.dataInicio);
    DateSurvives(e.dataFim);
  }

  /** One date through `DateField` and back through `|| null`. */
  lemma DateSurvives(d: Option<string>)
    ensures NullIfEmpty(DateField(d)) == d <==> d.None? || 0 < |d.value| <= 10
  {
    if d.Some? && 0 < |d.value| <= 10 {
      assert d.value[..|d.value|] == d.value;
    }
  }

  /** Update by the edited event's id, otherwise insert. */
  function SaveRequestFor(editing: Option<Evento>, payload: EventoPayload): (r: SaveRequest)
    ensures r.payload == payload
    ensures r.Update? <==> editing.Some?
    ensures r.Update? ==> r.id == editing.value.id
  {
    if editing.Some? then Update(editing.value.id, payload) else Insert(payload)
  }

  /** The events table after a status update: that event's status changes, nothing
      else does. */
  function ApplyStatus(list: seq<Evento>, u: StatusUpdate): (r: seq<Evento>)
    ensures |r| == |list|
    ensures forall i :: 0 <= i < |list| ==>
      r[i].status == (if list[i].id == u.eventoId then u.status else list[i].status) &&
      r[i].(status := list[i].status) == list[i]
  {
    seq(|list|, i requires 0 <= i < |list| =>
      if list[i].id == u.eventoId then list[i].(status := u.status) else list[i])
  }

  /** The card's button: reactivate for an archived event, archive for any other. */
  function ActionFor(s: EventoStatus): CardAction {
    if s == Arquivado then Reactivate else Archive
  }

  /** Archiving an event turns its button into "reactivate", and reactivating it
      turns the button back into "archive"; no other event is touched. */
  lemma ArchiveReactivateCycle(list: seq<Evento>, id: string, i: int)
    requires 0 <= i < |list|
    ensures var a := ApplyStatus(list, StatusUpdate(id, Arquivado));
      (list[i].id == id ==> ActionFor(a[i].status) == Reactivate) &&
      (list[i].id != id ==> a[i] == list[i])
    ensures var b := ApplyStatus(list, StatusUpdate(id, Ativo));
      (list[i].id == id ==> ActionFor(b[i].status) == Archive) &&
      (list[i].id != id ==> b[i] == list[i])
  {
  }

  /** The status badge table. */
  function BadgeFor(s: EventoStatus): StatusBadge {
    match s
    case Ativo => StatusBadge("Ativo", "#10b981", "rgba(16,185,129,0.15)")
    case Draft => StatusBadge("Rascunho", "#a78bfa", "rgba(167,139,250,0.15)")
    case Encerrado => StatusBadge("Encerrado", "#f59e0b", "rgba(245,158,11,0.15)")
    case Arquivado => StatusBadge("Arquivado", "#71717a", "rgba(113,113,122,0.15)")
  }

  /** `statusConfig[evt.status] || statusConfig.draft` on the stored status string. */
  function BadgeForKey(k: string): StatusBadge {
    match EventoStatusFromKey(k)
    case Some(s) => BadgeFor(s)
    case None => BadgeFor(Draft)
  }

  /** A known status shows its own badge, an unknown one the draft badge, and the
      four badges are told apart by their labels. */
  lemma BadgeFallback(k: string, s: EventoStatus, t: EventoStatus)
    ensures BadgeForKey(EventoStatusKey(s)) == BadgeFor(s)
    ensures EventoStatusFromKey(k).None? ==> BadgeForKey(k) == BadgeFor(Draft)
    ensures s != t ==> BadgeFor(s).labelText != BadgeFor(t).labelText
  {
    EventoStatusKeyRoundTrip(s);
  }

  class EventosPage {
    var eventos: seq<Evento>
    var loading: bool
    var showForm: bool
    var editingEvento: Option<Evento>
    var form: EventoForm
    var formError: string
    var saving: bool

    constructor()
      ensures eventos == [] && loading && !showForm && editingEvento.None?
      ensures form == EmptyEventoForm && formError == "" && !saving
    {
      eventos := [];
      loading := true;
      showForm := false;
      editingEvento := None;
      form := EmptyEventoForm;
      formError := "";
      saving := false;
    }

    /** `fetchEventos`: the list is replaced only when the query returned rows. */
    method FetchEventos(rows: Option<seq<Evento>>)
      modifies this
      ensures eventos == if rows.Some? then rows.value else old(eventos)
      ensures !loading
      ensures showForm == old(showForm) && editingEvento == old(editingEvento) && form == old(form)
      ensures formError == old(formError) && saving == old(saving)
    {
      if rows.Some? {
        eventos := rows.value;
      }
      loading := false;
    }

    /** `resetForm`: an empty draft, nothing being edited, no error. */
    method ResetForm()
      modifies this
      ensures form == EmptyEventoForm && form.status == Draft && editingEvento.None? && formError == ""
      ensures eventos == old(eventos) && loading == old(loading) && showForm == old(showForm)
      ensures saving == old(saving)
    {
      form := EmptyEventoForm;
      editingEvento := None;
      formError := "";
    }

    /** `handleEdit(evt)`. */
    method HandleEdit(e: Evento)
      modifies this
      ensures form == EditForm(e) && editingEvento == Some(e) && showForm
      ensures |form.dataInicio| <= 10 && |form.dataFim| <= 10
      ensures eventos == old(eventos) && loading == old(loading)
      ensures formError == old(formError) && saving == old(saving)
    {
      form := EditForm(e);
      editingEvento := Some(e);
      showForm := true;
    }

    /** `handleSubmit`: on an error the form stays and shows the message; on success
        it is reset and closed and the list refetched. */
    method HandleSubmit(userId: Option<string>, saveError: Option<string>, refetched: Option<seq<Evento>>)
      returns (request: SaveRequest)
      modifies this
      ensures request == SaveRequestFor(old(editingEvento), PayloadOf(old(form), old(editingEvento).Some?, userId))
      ensures !saving
      ensures saveError.Some? ==>
        formError == saveError.value && form == old(form) && editingEvento == old(editingEvento) &&
        showForm == old(showForm) && eventos == old(eventos) && loading == old(loading)
      ensures saveError.None? ==>
        formError == "" && form == EmptyEventoForm && editingEvento.None? && !showForm && !loading &&
        eventos == (if refetched.Some? then refetched.value else old(eventos))
    {
      formError := "";
      saving := true;
      var payload := PayloadOf(form, editingEvento.Some?, userId);
      request := SaveRequestFor(editingEvento, payload);
      if saveError.Some? {
        formError := saveError.value;
      } else {
        ResetForm();
        showForm := false;
        FetchEventos(refetched);
      }
      saving := false;
    }

    /** `handleArchive(id)`: only after confirmation, marks the event archived and
        refetches. */
    method HandleArchive(id: string, confirmed: bool, refetched: Option<seq<Evento>>)
      returns (update: Option<StatusUpdate>)
      modifies this
      ensures update == if confirmed then Some(StatusUpdate(id, Arquivado)) else None
      ensures !confirmed ==> eventos == old(eventos) && loading == old(loading)
      ensures confirmed ==> eventos == (if refetched.Some? then refetched.value else old(eventos)) && !loading
      ensures showForm == old(showForm) && editingEvento == old(editingEvento) && form == old(form)
      ensures formError == old(formError) && saving == old(saving)
    {
      if !confirmed {
        return None;
      }
      update := Some(StatusUpdate(id, Arquivado));
      FetchEventos(refetched);
    }

    /** `handleReactivate(id)`: marks the event active, with no confirmation, and
        refetches. */
    method HandleReactivate(id: string, refetched: Option<seq<Evento>>) returns (update: StatusUpdate)
      modifies this
      ensures update == StatusUpdate(id, Ativo)
      ensures eventos == (if refetched.Some? then refetched.value else old(eventos)) && !loading
      ensures showForm == old(showForm) && editingEvento == old(editingEvento) && form == old(form)
      ensures formError == old(formError) && saving == old(saving)
    {
      update := StatusUpdate(id, Ativo);
      FetchEventos(refetched);
    }
  }
}
