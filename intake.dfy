/** The encounter intake screen reached by scanning a participant's tag: it resolves
    the participant from the `t` parameter, collects the form (description,
    severity, notes, photos) and on submit inserts the encounter and then uploads
    and links each photo, best effort.

    Backend answers (the participant lookup, the insert, each upload) and the
    browser's services (image compression, object URLs, geolocation) are
    parameters. */
module Intake {
  import opened Wrappers
  import opened Text
  import opened Types

  /** An image file picked by the user. */
  datatype File = File(name: string, size: nat)

  /** The object URL the browser creates to preview a file. */
  datatype Preview = ObjectUrl(file: File)

  datatype GeoPosition = GeoPosition(latitude: real, longitude: real, altitude: Option<real>, accuracy: real)

  /** The participant lookup's answer: the row, and an error if the query failed. */
  datatype Lookup = Lookup(data: Option<Participante>, error: Option<string>)

  /** The encounter row the form inserts. */
  datatype AtendimentoInsert = AtendimentoInsert(
    participanteId: string,
    medicoId: string,
    eventoId: Option<string>,
    descricao: string,
    gravidade: Gravidade,
    latitude: real,
    longitude: real,
    altitude: Option<real>,
    precisaoGps: real,
    observacoes: Option<string>,
    status: StatusAtendimento)

  /** The insert's answer: the new row's id, or the error's message. */
  datatype InsertOutcome = Inserted(id: string) | InsertFailed(message: string)

  /** A photo row linking an uploaded file's public URL to the encounter. */
  datatype FotoLink = FotoLink(atendimentoId: string, fotoUrl: string)

  /** What one submit sent to the backend. */
  datatype SubmitEffect = NotSent | Sent(insert: AtendimentoInsert, links: seq<FotoLink>)

  // ---------------------------------------------------------------------------
  // The tag parameter and the lookup gate

  /** `searchParams.get('t')?.trim() || null`. */
  function TagIdOf(t: Option<string>): Option<string> {
    if t.None? then None else NullIfEmpty(Trim(t.value))
  }

  /** A trimmed, non-empty string has no white space at either end and trims to itself. */
  lemma TrimmedIsNormal(s: string)
    ensures var r := Trim(s);
      r != "" ==> !IsJsSpace(r[0]) && !IsJsSpace(r[|r| - 1]) && Trim(r) == r
  {
    TrimShape(s);
    TrimIdempotent(s);
  }

  /** The tag id is the parameter without surrounding white space; it is absent
      exactly when the parameter is missing or blank, and it is already normalised. */
  lemma TagIdNormalised(t: Option<string>)
    ensures var r := TagIdOf(t);
      (r.None? <==> t.None? || Trim(t.value) == "") &&
      (r.Some? ==> r.value != "" && !IsJsSpace(r.value[0]) && !IsJsSpace(r.value[|r.value| - 1]) &&
                   TagIdOf(r) == r)
  {
    if t.Some? {
      TrimmedIsNormal(t.value);
    }
  }

  /** What the lookup effect does for the current tag and auth state. */
  datatype FetchStep = NoTag | WaitForAuth | SignInRequired | FetchParticipant

  function FetchStepFor(tagId: Option<string>, authLoading: bool, hasUser: bool, hasUsuario: bool): FetchStep {
    if tagId.None? then NoTag
    else if authLoading then WaitForAuth
    else if !hasUser || !hasUsuario then SignInRequired
    else FetchParticipant
  }

  /** The lookup runs only with a tag, once auth has settled, for a signed-in user
      with a user profile. */
  lemma FetchOnlyWhenReady(tagId: Option<string>, authLoading: bool, hasUser: bool, hasUsuario: bool)
    ensures FetchStepFor(tagId, authLoading, hasUser, hasUsuario) == FetchParticipant <==>
      tagId.Some? && !authLoading && hasUser && hasUsuario
  {
  }

  /** The submit button is disabled while saving and until a position is known. */
  predicate SubmitDisabled(submitting: bool, gps: Option<GeoPosition>, gpsLoading: bool) {
    submitting || gps.None? || gpsLoading
  }

  /** The guard at the head of `handleSubmit`: a participant, a signed-in user and a
      position are all known. */
  predicate SubmitReady(participante: Option<Participante>, userId: Option<string>, gps: Option<GeoPosition>) {
    participante.Some? && userId.Some? && gps.Some?
  }

  /** An enabled button means no save is running and a position is known, so a
      click is then stopped only by a missing participant or a missing user. */
  lemma EnabledSubmitHasPosition(submitting: bool, gps: Option<GeoPosition>, gpsLoading: bool,
                                 participante: Option<Participante>, userId: Option<string>)
    ensures !SubmitDisabled(submitting, gps, gpsLoading) ==>
      !submitting && !gpsLoading && gps.Some? &&
      (SubmitReady(participante, userId, gps) <==> participante.Some? && userId.Some?)
    ensures gps.None? ==> SubmitDisabled(submitting, gps, gpsLoading) && !SubmitReady(participante, userId, gps)
  {
  }

  // ---------------------------------------------------------------------------
  // Photos

  /** The file kept for each picked file: the compressed one, or the original when
      compression failed. */
  function Kept(files: seq<File>, compressed: seq<Option<File>>): (r: seq<File>)
    requires |compressed| == |files|
  {
    seq(|files|, i requires 0 <= i < |files| => compressed[i].GetOr(files[i]))
  }

  /** The loop of `handlePhotoChange`: one kept file and one preview per picked
      file, in order. `compressed[i]` is the compressor's answer for `files[i]`. */
  method CompressAll(files: seq<File>, compressed: seq<Option<File>>) returns (kept: seq<File>, previews: seq<Preview>)
    requires |compressed| == |files|
    ensures |kept| == |files| && |previews| == |files|
    ensures forall i :: 0 <= i < |files| ==>
      kept[i] == (if compressed[i].Some? then compressed[i].value else files[i])
    ensures forall i :: 0 <= i < |files| ==> previews[i] == ObjectUrl(kept[i])
  {
    kept, previews := [], [];
    var i := 0;
    while i < |files|
      invariant 0 <= i <= |files|
      invariant |kept| == i && |previews| == i
      invariant forall k :: 0 <= k < i ==>
        kept[k] == (if compressed[k].Some? then compressed[k].value else files[k])
      invariant forall k :: 0 <= k < i ==> previews[k] == ObjectUrl(kept[k])
    {
      var file := if compressed[i].Some? then compressed[i].value else files[i];
      kept := kept + [file];
      previews := previews + [ObjectUrl(file)];
      i := i + 1;
    }
  }

  /** `prev.filter((_, i) => i !== k)`. */
  function WithoutIndex<T>(s: seq<T>, k: int): seq<T> {
    if s == [] then []
    else (if k == 0 then [] else [s[0]]) + WithoutIndex(s[1..], k - 1)
  }

  /** Removing by index drops exactly element `k` and keeps the rest in order; an
      index outside the list removes nothing. */
  lemma {:induction false} WithoutIndexSpec<T>(s: seq<T>, k: int)
    ensures 0 <= k < |s| ==> WithoutIndex(s, k) == s[..k] + s[k + 1..]
    ensures !(0 <= k < |s|) ==> WithoutIndex(s, k) == s
  {
    if s != [] {
      WithoutIndexSpec(s[1..], k - 1);
      if 0 < k < |s| {
        assert s[..k] == [s[0]] + s[1..][..k - 1];
        assert s[k + 1..] == s[1..][k..];
      }
    }
  }

  // ---------------------------------------------------------------------------
  // Submit

  /** The encounter row built from the form. */
  function InsertPayload(p: Participante, userId: string, descricao: string, gravidade: Gravidade,
                         gps: GeoPosition, observacoes: string): AtendimentoInsert {
    AtendimentoInsert(p.id, userId, p.eventoId, descricao, gravidade, gps.latitude, gps.longitude,
                      gps.altitude, gps.accuracy, NullIfEmpty(observacoes), EmAndamento)
  }

  /** The row a submit inserts is new and in progress, belongs to the participant's
      event and the signed-in user, sits at the acquired position, and carries the
      notes unless they are empty. */
  lemma InsertPayloadSpec(p: Participante, userId: string, descricao: string, gravidade: Gravidade,
                          gps: GeoPosition, observacoes: string)
    ensures var r := InsertPayload(p, userId, descricao, gravidade, gps, observacoes);
      r.status == EmAndamento && r.medicoId == userId && r.participanteId == p.id &&
      r.eventoId == p.eventoId && r.gravidade == gravidade && r.descricao == descricao &&
      r.latitude == gps.latitude && r.longitude == gps.longitude &&
      r.altitude == gps.altitude && r.precisaoGps == gps.accuracy &&
      (r.observacoes.None? <==> observacoes == "") &&
      EmptyIfNull(r.observacoes) == observacoes
  {
  }

  /** The photo rows for the upload answers: one per upload that succeeded (its
      public URL), none for one that failed. */
  function LinkRecords(atendimentoId: string, uploads: seq<Option<string>>): seq<FotoLink> {
    if uploads == [] then []
    else
      (if uploads[0].Some? then [FotoLink(atendimentoId, uploads[0].value)] else []) +
      LinkRecords(atendimentoId, uploads[1..])
  }

  /** Number of successful uploads. */
  function Successes(uploads: seq<Option<string>>): nat {
    if uploads == [] then 0 else (if uploads[0].Some? then 1 else 0) + Successes(uploads[1..])
  }

  lemma {:induction false} LinkRecordsAppend(atendimentoId: string, uploads: seq<Option<string>>, u: Option<string>)
    ensures LinkRecords(atendimentoId, uploads + [u]) ==
      LinkRecords(atendimentoId, uploads) + (if u.Some? then [FotoLink(atendimentoId, u.value)] else [])
  {
    if uploads != [] {
      assert (uploads + [u])[1..] == uploads[1..] + [u];
      LinkRecordsAppend(atendimentoId, uploads[1..], u);
    }
  }

  /** Exactly one photo row per successful upload, every row for this encounter, and
      every row's URL one that an upload returned. */
  lemma {:induction false} LinkRecordsSpec(atendimentoId: string, uploads: seq<Option<string>>)
    ensures |LinkRecords(atendimentoId, uploads)| == Successes(uploads)
    ensures forall l :: l in LinkRecords(atendimentoId, uploads) ==>
      l.atendimentoId == atendimentoId && Some(l.fotoUrl) in uploads
  {
    if uploads != [] {
      LinkRecordsSpec(atendimentoId, uploads[1..]);
    }
  }

  /** The photo loop: upload each photo in turn and link it when its upload
      succeeded, carrying on past failures. `uploads[i]` is the storage's answer for
      photo `i`: its public URL, or `None` when the upload failed. */
  method LinkUploads(atendimentoId: string, uploads: seq<Option<string>>) returns (links: seq<FotoLink>)
    ensures links == LinkRecords(atendimentoId, uploads)
  {
    links := [];
    var i := 0;
    while i < |uploads|
      invariant 0 <= i <= |uploads|
      invariant links == LinkRecords(atendimentoId, uploads[..i])
    {
      LinkRecordsAppend(atendimentoId, uploads[..i], uploads[i]);
      assert uploads[..i + 1] == uploads[..i] + [uploads[i]];
      if uploads[i].Some? {
        links := links + [FotoLink(atendimentoId, uploads[i].value)];
      }
      i := i + 1;
    }
    assert uploads[..i] == uploads;
  }

  /** The message shown when the insert fails. */
  function SubmitErrorText(message: string): string {
    if message != "" then message else "Erro ao salvar atendimento"
  }

  // ---------------------------------------------------------------------------
  // The screen's state

  class IntakePage {
    var participante: Option<Participante>
    var loadingParticipante: bool
    var notFound: bool
    var descricao: string
    var gravidade: Gravidade
    var observacoes: string
    var fotos: seq<File>
    var fotoPreviews: seq<Preview>
    var submitting: bool
    var success: bool
    var submitError: string

    /** The photo list and the preview list run in parallel: preview `i` shows photo `i`. */
    predicate Valid()
      reads this
    {
      |fotos| == |fotoPreviews| && forall i :: 0 <= i < |fotos| ==> fotoPreviews[i] == ObjectUrl(fotos[i])
    }

    /** The state when the screen opens. */
    constructor()
      ensures Valid()
      ensures participante.None? && loadingParticipante && !notFound
      ensures descricao == "" && gravidade == Leve && observacoes == "" && fotos == []
      ensures !submitting && !success && submitError == ""
    {
      participante := None;
      loadingParticipante := true;
      notFound := false;
      descricao := "";
      gravidade := Leve;
      observacoes := "";
      fotos := [];
      fotoPreviews := [];
      submitting := false;
      success := false;
      submitError := "";
    }

    /** The lookup effect. Returns whether the participant query was sent. */
    method LoadParticipant(tagId: Option<string>, authLoading: bool, hasUser: bool, hasUsuario: bool, lookup: Lookup)
      returns (fetched: bool)
      modifies this
      ensures fetched <==> FetchStepFor(tagId, authLoading, hasUser, hasUsuario) == FetchParticipant
      ensures var step := FetchStepFor(tagId, authLoading, hasUser, hasUsuario);
        match step
        case NoTag =>
          !loadingParticipante && notFound && participante == old(participante)
        case WaitForAuth =>
          loadingParticipante == old(loadingParticipante) && notFound == old(notFound) &&
          participante == old(participante)
        case SignInRequired =>
          !loadingParticipante && notFound == old(notFound) && participante == old(participante)
        case FetchParticipant =>
          !loadingParticipante &&
          if lookup.error.Some? || lookup.data.None? then notFound && participante == old(participante)
          else !notFound && participante == lookup.data
      ensures descricao == old(descricao) && gravidade == old(gravidade) && observacoes == old(observacoes)
      ensures fotos == old(fotos) && fotoPreviews == old(fotoPreviews)
      ensures submitting == old(submitting) && success == old(success) && submitError == old(submitError)
    {
      var step := FetchStepFor(tagId, authLoading, hasUser, hasUsuario);
      fetched := false;
      match step
      case NoTag =>
        loadingParticipante := false;
        notFound := true;
      case WaitForAuth =>
      case SignInRequired =>
        loadingParticipante := false;
      case FetchParticipant =>
        fetched := true;
        loadingParticipante := true;
        if lookup.error.Some? || lookup.data.None? {
          notFound := true;
        } else {
          participante := lookup.data;
          notFound := false;
        }
        loadingParticipante := false;
    }

    /** `handlePhotoChange`: appends one file per picked file (compressed, or the
        original) and its preview; picking nothing changes nothing. */
    method HandlePhotoChange(files: seq<File>, compressed: seq<Option<File>>)
      requires Valid() && |compressed| == |files|
      modifies this
      ensures Valid()
      ensures fotos == old(fotos) + Kept(files, compressed)
      ensures |fotoPreviews| - |old(fotoPreviews)| == |files|
      ensures files == [] ==> fotos == old(fotos) && fotoPreviews == old(fotoPreviews)
      ensures participante == old(participante) && descricao == old(descricao)
      ensures gravidade == old(gravidade) && observacoes == old(observacoes)
      ensures submitting == old(submitting) && success == old(success) && submitError == old(submitError)
      ensures loadingParticipante == old(loadingParticipante) && notFound == old(notFound)
    {
      if |files| == 0 {
        return;
      }
      var kept, previews := CompressAll(files, compressed);
      assert kept == Kept(files, compressed);
      fotos := fotos + kept;
      fotoPreviews := fotoPreviews + previews;
    }

    /** `removePhoto(index)`: drops entry `index` from both lists. */
    method RemovePhoto(index: int)
      requires Valid()
      modifies this
      ensures Valid()
      ensures fotos == WithoutIndex(old(fotos), index)
      ensures fotoPreviews == WithoutIndex(old(fotoPreviews), index)
      ensures 0 <= index < |old(fotos)| ==>
        fotos == old(fotos)[..index] + old(fotos)[index + 1..] && |fotos| == |old(fotos)| - 1
      ensures !(0 <= index < |old(fotos)|) ==> fotos == old(fotos)
      ensures participante == old(participante) && descricao == old(descricao)
      ensures gravidade == old(gravidade) && observacoes == old(observacoes)
      ensures submitting == old(submitting) && success == old(success) && submitError == old(submitError)
      ensures loadingParticipante == old(loadingParticipante) && notFound == old(notFound)
    {
      WithoutIndexSpec(fotos, index);
      WithoutIndexSpec(fotoPreviews, index);
      fotos := WithoutIndex(fotos, index);
      fotoPreviews := WithoutIndex(fotoPreviews, index);
    }

    /** `handleSubmit`: nothing happens without a participant, a signed-in user and a
        position. Otherwise the encounter is inserted; if that fails its message is
        shown and no photo is touched; if it succeeds every photo is uploaded in turn
        and each successful upload is linked. Saving ends either way. */
    method HandleSubmit(userId: Option<string>, gps: Option<GeoPosition>, insert: InsertOutcome,
                        uploads: seq<Option<string>>)
      returns (effect: SubmitEffect)
      requires Valid() && |uploads| == |fotos|
      modifies this
      ensures Valid()
      ensures !SubmitReady(participante, userId, gps) ==>
        effect == NotSent && submitting == old(submitting) && success == old(success) &&
        submitError == old(submitError)
      ensures SubmitReady(participante, userId, gps) ==>
        effect.Sent? && !submitting &&
        effect.insert == InsertPayload(participante.value, userId.value, descricao, gravidade, gps.value, observacoes) &&
        match insert
        case InsertFailed(message) =>
          effect.links == [] && submitError == SubmitErrorText(message) && success == old(success)
        case Inserted(id) =>
          effect.links == LinkRecords(id, uploads) && submitError == "" && success
      ensures participante == old(participante) && descricao == old(descricao)
      ensures gravidade == old(gravidade) && observacoes == old(observacoes)
      ensures fotos == old(fotos) && fotoPreviews == old(fotoPreviews)
      ensures loadingParticipante == old(loadingParticipante) && notFound == old(notFound)
    {
      if !SubmitReady(participante, userId, gps) {
        return NotSent;
      }
      submitting := true;
      submitError := "";
      var payload := InsertPayload(participante.value, userId.value, descricao, gravidade, gps.value, observacoes);
      if insert.InsertFailed? {
        submitError := SubmitErrorText(insert.message);
        effect := Sent(payload, []);
      } else {
        var links := LinkUploads(insert.id, uploads);
        success := true;
        effect := Sent(payload, links);
      }
      submitting := false;
    }

    /** "Novo Atendimento": back to an empty form for the same participant. */
    method NewEncounter()
      modifies this
      ensures Valid()
      ensures !success && descricao == "" && observacoes == "" && gravidade == Leve
      ensures fotos == [] && fotoPreviews == []
      ensures participante == old(participante) && submitting == old(submitting)
      ensures submitError == old(submitError)
      ensures loadingParticipante == old(loadingParticipante) && notFound == old(notFound)
    {
      success := false;
      descricao := "";
      observacoes := "";
      gravidade := Leve;
      fotos := [];
      fotoPreviews := [];
    }
  }
}
