/** The staff administration screen: creating a staff member is a two-step sequence
    (create the sign-in account, then the profile row keyed by the new account's id)
    that stops at the first error. Both backend answers are parameters. */
module Medicos {
  import opened Wrappers
  import opened Text
  import opened Types

  datatype MedicoForm = MedicoForm(
    email: string,
    password: string,
    nome: string,
    crm: string,
    especialidade: string,
    telefone: string,
    isAdmin: bool)

  /** The sign-up's answer: an error's message, or the created account's id (which
      may be missing). */
  datatype SignUpOutcome = SignUpFailed(message: string) | SignedUp(userId: Option<string>)

  /** The profile row inserted for a new staff member. */
  datatype ProfileRow = ProfileRow(
    id: string,
    nome: string,
    crm: Option<string>,
    especialidade: Option<string>,
    telefone: Option<string>,
    isAdmin: bool)

  /** How a submit ended: the message shown, or the id of the created staff member. */
  datatype SubmitOutcome = Failed(message: string) | Created(id: string)

  const EmptyMedicoForm: MedicoForm := MedicoForm("", "", "", "", "", "", false)

  const NoUserMessage: string := "Erro ao criar usuário"

  function ProfileRowFor(userId: string, f: MedicoForm): ProfileRow {
    ProfileRow(userId, f.nome, NullIfEmpty(f.crm), NullIfEmpty(f.especialidade), NullIfEmpty(f.telefone), f.isAdmin)
  }

  /** The profile row belongs to the new account and loses nothing of the form:
      reading its optional columns back as text gives the form's fields, and each is
      null exactly when its field was empty. */
  lemma ProfileRowRoundTrip(userId: string, f: MedicoForm)
    ensures var r := ProfileRowFor(userId, f);
      r.id == userId && r.nome == f.nome && r.isAdmin == f.isAdmin &&
      EmptyIfNull(r.crm) == f.crm && EmptyIfNull(r.especialidade) == f.especialidade &&
      EmptyIfNull(r.telefone) == f.telefone &&
      (r.crm.None? <==> f.crm == "") && (r.especialidade.None? <==> f.especialidade == "") &&
      (r.telefone.None? <==> f.telefone == "")
  {
  }

  /** The profile insert is attempted only after a sign-up that returned an account. */
  function ProfileInsertFor(signUp: SignUpOutcome, f: MedicoForm): Option<ProfileRow> {
    if signUp.SignedUp? && signUp.userId.Some? then Some(ProfileRowFor(signUp.userId.value, f)) else None
  }

  /** The outcome of the sequence: the first error wins. */
  function SubmitOutcomeFor(signUp: SignUpOutcome, insertError: Option<string>): SubmitOutcome {
    match signUp
    case SignUpFailed(message) => Failed(message)
    case SignedUp(userId) =>
      if userId.None? then Failed(NoUserMessage)
      else if insertError.Some? then Failed(insertError.value)
      else Created(userId.value)
  }

  /** The sequence aborts at the first error: a failed sign-up (or one without an
      account) inserts no profile and reports its own message; a staff member is
      created only when both steps succeed, and then under the account's id. */
  lemma AbortsOnFirstError(signUp: SignUpOutcome, insertError: Option<string>, f: MedicoForm)
    ensures ProfileInsertFor(signUp, f).Some? <==> signUp.SignedUp? && signUp.userId.Some?
    ensures signUp.SignUpFailed? ==> SubmitOutcomeFor(signUp, insertError) == Failed(signUp.message)
    ensures signUp == SignedUp(None) ==> SubmitOutcomeFor(signUp, insertError) == Failed(NoUserMessage)
    ensures SubmitOutcomeFor(signUp, insertError).Created? <==>
      signUp.SignedUp? && signUp.userId.Some? && insertError.None?
    ensures SubmitOutcomeFor(signUp, insertError).Created? ==>
      SubmitOutcomeFor(signUp, insertError).id == ProfileInsertFor(signUp, f).value.id
  {
  }

  class MedicosPage {
    var medicos: seq<Medico>
    var loading: bool
    var showForm: bool
    var form: MedicoForm
    var formError: string
    var saving: bool

    constructor()
      ensures medicos == [] && loading && !showForm && form == EmptyMedicoForm
      ensures formError == "" && !saving
    {
      medicos := [];
      loading := true;
      showForm := false;
      form := EmptyMedicoForm;
      formError := "";
      saving := false;
    }

    /** `handleSubmit`. Returns the profile row it inserted, if it got that far. On
        any error the form and the modal stay as they were and the message shows; on
        success the modal closes, the form empties and the list is refetched. */
    method HandleSubmit(signUp: SignUpOutcome, insertError: Option<string>, refetched: Option<seq<Medico>>)
      returns (profile: Option<ProfileRow>)
      modifies this
      ensures profile == ProfileInsertFor(signUp, old(form))
      ensures !saving
      ensures match SubmitOutcomeFor(signUp, insertError)
        case Failed(message) =>
          formError == message && form == old(form) && showForm == old(showForm) &&
          medicos == old(medicos) && loading == old(loading)
        case Created(_) =>
          formError == "" && form == EmptyMedicoForm && !showForm && !loading &&
          medicos == (if refetched.Some? then refetched.value else old(medicos))
    {
      formError := "";
      saving := true;
      profile := None;
      if signUp.SignUpFailed? {
        formError := signUp.message;
      } else if signUp.userId.None? {
        formError := NoUserMessage;
      } else {
        var row := ProfileRowFor(signUp.userId.value, form);
        profile := Some(row);
        if insertError.Some? {
          formError := insertError.value;
        } else {
          showForm := false;
          form := EmptyMedicoForm;
          if refetched.Some? {
            medicos := refetched.value;
          }
          loading := false;
        }
      }
      saving := false;
    }
  }
}
