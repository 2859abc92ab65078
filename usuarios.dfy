/** The user administration screen: each user with the names of the events they
    are an active member of, and the two flag toggles (super admin, active) that
    refuse to act on the signed-in user's own account. Queries and updates are
    parameters. */
module Usuarios {
  import opened Wrappers
  import opened Types

  /** A user as listed, with the names of their events. */
  datatype UsuarioWithEvents = UsuarioWithEvents(usuario: Usuario, eventos: seq<string>)

  /** The flag a toggle changes. */
  datatype Flag = SuperAdmin | Active

  /** An update of one user's flag. */
  datatype FlagUpdate = FlagUpdate(usuarioId: string, flag: Flag, value: bool)

  /** What a toggle did: refused with an alert (own account), cancelled at the
      confirmation, or sent an update. */
  datatype ToggleOutcome = Refused(alert: string) | Cancelled | Updated(update: FlagUpdate)

  // ---------------------------------------------------------------------------
  // Event names

  /** A membership whose joined event has a non-empty name. */
  predicate HasNamedEvento(m: EventoUsuario) {
    m.evento.Some? && m.evento.value.nome != ""
  }

  /** `memberships.map(m => m.evento?.nome).filter(Boolean)`. */
  function NamesOf(ms: seq<EventoUsuario>): seq<string> {
    if ms == [] then []
    else (if HasNamedEvento(ms[0]) then [ms[0].evento.value.nome] else []) + NamesOf(ms[1..])
  }

  /** `... || []`: no names when the query returned nothing. The query returns the
      user's active memberships (`EventContext.ActiveMembershipsOf`) with their events. */
  function EventNames(memberships: Option<seq<EventoUsuario>>): seq<string> {
    if memberships.Some? then NamesOf(memberships.value) else []
  }

  /** Number of memberships with a named event. */
  function NamedCount(ms: seq<EventoUsuario>): nat {
    if ms == [] then 0 else (if HasNamedEvento(ms[0]) then 1 else 0) + NamedCount(ms[1..])
  }

  /** One name per membership with a named event, none for the others, every name
      non-empty and the name of one of the memberships' events. */
  lemma {:induction false} NamesOfSpec(ms: seq<EventoUsuario>)
    ensures |NamesOf(ms)| == NamedCount(ms) <= |ms|
    ensures forall n :: n in NamesOf(ms) ==>
      n != "" && exists m :: m in ms && m.evento.Some? && m.evento.value.nome == n
  {
    if ms != [] {
      NamesOfSpec(ms[1..]);
      forall n | n in NamesOf(ms)
        ensures n != "" && exists m :: m in ms && m.evento.Some? && m.evento.value.nome == n
      {
        if HasNamedEvento(ms[0]) && n == ms[0].evento.value.nome {
          assert ms[0] in ms;
        } else {
          assert n in NamesOf(ms[1..]);
          var m :| m in ms[1..] && m.evento.Some? && m.evento.value.nome == n;
          assert m in ms;
        }
      }
    }
  }

  /** The list `fetchUsuarios` builds: each user, in order, with the names of the
      events of the answer to that user's membership query. */
  function WithEvents(rows: seq<Usuario>, memberships: seq<Option<seq<EventoUsuario>>>): (r: seq<UsuarioWithEvents>)
    requires |memberships| == |rows|
    ensures |r| == |rows|
    ensures forall i :: 0 <= i < |rows| ==> r[i].usuario == rows[i] && r[i].eventos == EventNames(memberships[i])
  {
    seq(|rows|, i requires 0 <= i < |rows| => UsuarioWithEvents(rows[i], EventNames(memberships[i])))
  }

  /** The names keep the memberships' order: the names of two consecutive runs of
      memberships are the names of the first run followed by those of the second. */
  lemma {:induction false} NamesOfAppend(ms: seq<EventoUsuario>, ns: seq<EventoUsuario>)
    ensures NamesOf(ms + ns) == NamesOf(ms) + NamesOf(ns)
  {
    if ms != [] {
      assert (ms + ns)[1..] == ms[1..] + ns;
      NamesOfAppend(ms[1..], ns);
    } else {
      assert ms + ns == ns;
    }
  }

  // ---------------------------------------------------------------------------
  // Toggles

  /** The signed-in user is acting on their own account (`userId === user?.id`). */
  predicate IsSelf(callerId: Option<string>, usuarioId: string) {
    callerId == Some(usuarioId)
  }

  /** The confirmation question of the super-admin toggle. */
  function SuperAdminPrompt(current: bool): string {
    "Deseja " + (if current then "remover Super Admin de" else "promover a Super Admin") + " este usuário?"
  }

  /** `toggleSuperAdmin`: refused on one's own account, otherwise asks for
      confirmation and flips the flag. */
  function ToggleSuperAdminOutcome(callerId: Option<string>, usuarioId: string, current: bool, confirmed: bool): ToggleOutcome {
    if IsSelf(callerId, usuarioId) then Refused("Você não pode remover seu próprio Super Admin.")
    else if !confirmed then Cancelled
    else Updated(FlagUpdate(usuarioId, SuperAdmin, !current))
  }

  /** `toggleActive`: refused on one's own account, otherwise flips the flag at once. */
  function ToggleActiveOutcome(callerId: Option<string>, usuarioId: string, current: bool): ToggleOutcome {
    if IsSelf(callerId, usuarioId) then Refused("Você não pode desativar a si mesmo.")
    else Updated(FlagUpdate(usuarioId, Active, !current))
  }

  /** The question `toggleSuperAdmin` asks before updating: none on one's own
      account, where it stops at the alert. */
  function SuperAdminConfirmation(callerId: Option<string>, usuarioId: string, current: bool): Option<string> {
    if IsSelf(callerId, usuarioId) then None else Some(SuperAdminPrompt(current))
  }

  /** Neither toggle ever updates the caller's own account; an update always names
      the chosen user and negates the flag's current value; the super-admin flag
      changes only after a confirmation that is asked exactly when the account is
      not one's own and whose question says which way the flag will go, while the
      active flag needs none. */
  lemma TogglesGuardSelf(callerId: Option<string>, usuarioId: string, current: bool, confirmed: bool)
    ensures var s := ToggleSuperAdminOutcome(callerId, usuarioId, current, confirmed);
      (s.Updated? <==> !IsSelf(callerId, usuarioId) && confirmed) &&
      (s.Updated? ==> s.update == FlagUpdate(usuarioId, SuperAdmin, !current) && Some(s.update.usuarioId) != callerId)
    ensures var q := SuperAdminConfirmation(callerId, usuarioId, current);
      (q.Some? <==> !IsSelf(callerId, usuarioId)) &&
      (q.Some? ==> q != SuperAdminConfirmation(callerId, usuarioId, !current))
    ensures var a := ToggleActiveOutcome(callerId, usuarioId, current);
      (a.Updated? <==> !IsSelf(callerId, usuarioId)) &&
      (a.Updated? ==> a.update == FlagUpdate(usuarioId, Active, !current) && Some(a.update.usuarioId) != callerId)
  {
    assert SuperAdminPrompt(true)[8] != SuperAdminPrompt(false)[8];
  }

  /** The users table after a flag update. */
  function ApplyFlag(list: seq<Usuario>, u: FlagUpdate): (r: seq<Usuario>)
    ensures |r| == |list|
    ensures forall i :: 0 <= i < |list| ==>
      r[i].isSuperAdmin == (if list[i].id == u.usuarioId && u.flag == SuperAdmin then u.value else list[i].isSuperAdmin) &&
      r[i].isActive == (if list[i].id == u.usuarioId && u.flag == Active then u.value else list[i].isActive) &&
      r[i].(isSuperAdmin := list[i].isSuperAdmin, isActive := list[i].isActive) == list[i]
  {
    seq(|list|, i requires 0 <= i < |list| =>
      if list[i].id != u.usuarioId then list[i]
      else if u.flag == SuperAdmin then list[i].(isSuperAdmin := u.value)
      else list[i].(isActive := u.value))
  }

  /** Toggling twice restores the table: the update for the value read after the
      first toggle undoes it. */
  lemma ToggleTwiceRestores(list: seq<Usuario>, callerId: Option<string>, i: int)
    requires 0 <= i < |list| && !IsSelf(callerId, list[i].id)
    requires forall j :: 0 <= j < |list| && list[j].id == list[i].id ==> list[j] == list[i]
    ensures var once := ApplyFlag(list, ToggleActiveOutcome(callerId, list[i].id, list[i].isActive).update);
      ApplyFlag(once, ToggleActiveOutcome(callerId, list[i].id, once[i].isActive).update) == list
  {
    var once := ApplyFlag(list, ToggleActiveOutcome(callerId, list[i].id, list[i].isActive).update);
    var twice := ApplyFlag(once, ToggleActiveOutcome(callerId, list[i].id, once[i].isActive).update);
    forall j | 0 <= j < |list|
      ensures twice[j] == list[j]
    {
    }
  }

  class UsuariosPage {
    var usuarios: seq<UsuarioWithEvents>
    var loading: bool

    constructor()
      ensures usuarios == [] && loading
    {
      usuarios := [];
      loading := true;
    }

    /** `fetchUsuarios`: when the users query returned rows, the list is replaced by
        those users, each with the event names of its own membership query
        (`memberships[i]` answers the query for `rows[i]`); otherwise it is kept. */
    method FetchUsuarios(rows: Option<seq<Usuario>>, memberships: seq<Option<seq<EventoUsuario>>>)
      requires rows.Some? ==> |memberships| == |rows.value|
      modifies this
      ensures rows.Some? ==> |usuarios| == |rows.value|
      ensures rows.Some? ==> forall i :: 0 <= i < |rows.value| ==>
        usuarios[i].usuario == rows.value[i] && usuarios[i].eventos == EventNames(memberships[i])
      ensures rows.None? ==> usuarios == old(usuarios)
      ensures !loading
    {
      if rows.Some? {
        usuarios := WithEvents(rows.value, memberships);
      }
      loading := false;
    }

    /** `toggleSuperAdmin`: returns the confirmation question it asked, if any; after
        an update the list is refetched; a refused or cancelled toggle leaves it as it
        was. */
    method ToggleSuperAdmin(callerId: Option<string>, usuarioId: string, current: bool, confirmed: bool,
                            refetched: Option<seq<Usuario>>, memberships: seq<Option<seq<EventoUsuario>>>)
      returns (outcome: ToggleOutcome, asked: Option<string>)
      requires refetched.Some? ==> |memberships| == |refetched.value|
      modifies this
      ensures outcome == ToggleSuperAdminOutcome(callerId, usuarioId, current, confirmed)
      ensures asked == SuperAdminConfirmation(callerId, usuarioId, current)
      ensures outcome.Updated? ==>
        usuarios == (if refetched.Some? then WithEvents(refetched.value, memberships) else old(usuarios)) && !loading
      ensures !outcome.Updated? ==> usuarios == old(usuarios) && loading == old(loading)
    {
      if IsSelf(callerId, usuarioId) {
        return Refused("Você não pode remover seu próprio Super Admin."), None;
      }
      asked := Some(SuperAdminPrompt(current));
      if !confirmed {
        return Cancelled, asked;
      }
      outcome := Updated(FlagUpdate(usuarioId, SuperAdmin, !current));
      FetchUsuarios(refetched, memberships);
    }

    /** `toggleActive`: after an update the list is refetched; a refused toggle
        leaves it as it was. */
    method ToggleActive(callerId: Option<string>, usuarioId: string, current: bool,
                        refetched: Option<seq<Usuario>>, memberships: seq<Option<seq<EventoUsuario>>>)
      returns (outcome: ToggleOutcome)
      requires refetched.Some? ==> |memberships| == |refetched.value|
      modifies this
      ensures outcome == ToggleActiveOutcome(callerId, usuarioId, current)
      ensures outcome.Updated? ==>
        usuarios == (if refetched.Some? then WithEvents(refetched.value, memberships) else old(usuarios)) && !loading
      ensures !outcome.Updated? ==> usuarios == old(usuarios) && loading == old(loading)
    {
      if IsSelf(callerId, usuarioId) {
        return Refused("Você não pode desativar a si mesmo.");
      }
      outcome := Updated(FlagUpdate(usuarioId, Active, !current));
      FetchUsuarios(refetched, memberships);
    }
  }
}
