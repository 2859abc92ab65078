/** The event context: which events the signed-in user may enter, which one is
    selected automatically, the membership and permission codes that come with a
    selection, and the permission check the screens use to gate actions.

    The hosted database is not modelled: each query's answer is a parameter (a
    `Backend` value holding the rows of each table, `None` when a query returns no
    data), and the `.eq(...)` filters and `.single()` of each query are applied to
    those rows here. The auth context's `user` and `isSuperAdmin` are parameters too. */
module EventContext {
  import opened Wrappers
  import opened Seqs
  import opened Text
  import opened Types

  /** The signed-in user as the auth context exposes it. */
  datatype AuthUser = AuthUser(id: string)

  /** A row of the membership-permission link table, with the permission joined in. */
  datatype PermissaoLink = PermissaoLink(eventoUsuarioId: string, permissao: Option<Permissao>)

  /** The rows the hosted database returns for the tables the context reads. */
  datatype Backend = Backend(
    eventos: Option<seq<Evento>>,
    eventosUsuarios: Option<seq<EventoUsuario>>,
    permissoes: Option<seq<Permissao>>,
    links: Option<seq<PermissaoLink>>)

  /** What a selection resolves to: the membership and the permission codes. */
  datatype Selection = Selection(membership: Option<EventoUsuario>, permissions: seq<string>)

  // ---------------------------------------------------------------------------
  // Which events the user may see

  /** The membership query's filter: the user's active memberships. */
  function ActiveMembershipsOf(rows: seq<EventoUsuario>, userId: string): seq<EventoUsuario> {
    Filter(rows, ActiveFor(userId))
  }

  /** `.eq('usuario_id', userId).eq('is_active', true)`. */
  function ActiveFor(userId: string): EventoUsuario -> bool {
    (m: EventoUsuario) => m.usuarioId == userId && m.isActive
  }

  /** An active membership of this user in this event. */
  predicate IsActiveMembershipOf(m: EventoUsuario, eventoId: string, userId: string) {
    m.eventoId == eventoId && m.usuarioId == userId && m.isActive
  }

  /** `.eq('evento_id', eventoId).eq('usuario_id', userId).eq('is_active', true)`. */
  function ActiveOfEventFor(eventoId: string, userId: string): EventoUsuario -> bool {
    (m: EventoUsuario) => IsActiveMembershipOf(m, eventoId, userId)
  }

  /** `.eq('evento_usuario_id', eventoUsuarioId)`. */
  function LinkOf(eventoUsuarioId: string): PermissaoLink -> bool {
    (l: PermissaoLink) => l.eventoUsuarioId == eventoUsuarioId
  }

  predicate HasEvento(m: EventoUsuario) {
    m.evento.Some?
  }

  /** `memberships.map(m => m.evento).filter(Boolean)`: the joined events, in the
      memberships' order, dropping rows whose event did not join. */
  function EventsOf(ms: seq<EventoUsuario>): seq<Evento> {
    if ms == [] then []
    else if ms[0].evento.Some? then [ms[0].evento.value] + EventsOf(ms[1..])
    else EventsOf(ms[1..])
  }

  /** The listed events are, position by position, the events of the rows that
      have one, and those rows keep the memberships' order. */
  lemma {:induction false} EventsOfInOrder(ms: seq<EventoUsuario>)
    ensures |EventsOf(ms)| == |Filter(ms, HasEvento)|
    ensures forall i :: 0 <= i < |EventsOf(ms)| ==> Some(EventsOf(ms)[i]) == Filter(ms, HasEvento)[i].evento
  {
    if ms != [] {
      EventsOfInOrder(ms[1..]);
      var tail := Filter(ms[1..], HasEvento);
      var f := Filter(ms, HasEvento);
      var e := EventsOf(ms);
      if ms[0].evento.Some? {
        assert f == [ms[0]] + tail;
        assert e == [ms[0].evento.value] + EventsOf(ms[1..]);
        forall i | 0 <= i < |e|
          ensures Some(e[i]) == f[i].evento
        {
          if i > 0 {
            assert e[i] == EventsOf(ms[1..])[i - 1];
            assert f[i] == tail[i - 1];
          }
        }
      } else {
        assert f == tail;
        assert e == EventsOf(ms[1..]);
      }
    }
  }

  /** An event is listed exactly when some membership row joins it. */
  lemma {:induction false} EventsOfMembers(ms: seq<EventoUsuario>, e: Evento)
    ensures e in EventsOf(ms) <==> exists m :: m in ms && m.evento == Some(e)
  {
    if ms != [] {
      EventsOfMembers(ms[1..], e);
      assert ms == [ms[0]] + ms[1..];
      if ms[0].evento.Some? {
        assert EventsOf(ms) == [ms[0].evento.value] + EventsOf(ms[1..]);
      }
    }
  }

  /** The events the user may see: every event for a super-admin (newest first, as
      the query orders them), otherwise the events of the user's active memberships.
      A query without data gives the empty list. */
  function VisibleEvents(user: AuthUser, isSuperAdmin: bool, b: Backend): seq<Evento> {
    if isSuperAdmin then b.eventos.GetOr([])
    else if b.eventosUsuarios.None? then []
    else EventsOf(ActiveMembershipsOf(b.eventosUsuarios.value, user.id))
  }

  /** For a user who is not a super-admin, an event is visible exactly when one of
      the user's own active memberships joins it. */
  lemma VisibleEventsOfMember(user: AuthUser, b: Backend, e: Evento)
    requires b.eventosUsuarios.Some?
    ensures e in VisibleEvents(user, false, b) <==>
      exists m :: m in b.eventosUsuarios.value && m.usuarioId == user.id && m.isActive && m.evento == Some(e)
  {
    var rows := b.eventosUsuarios.value;
    var active := ActiveMembershipsOf(rows, user.id);
    EventsOfMembers(active, e);
    if exists m :: m in active && m.evento == Some(e) {
      var m :| m in active && m.evento == Some(e);
      FilterContains(rows, ActiveFor(user.id), m);
    }
    if exists m :: m in rows && m.usuarioId == user.id && m.isActive && m.evento == Some(e) {
      var m :| m in rows && m.usuarioId == user.id && m.isActive && m.evento == Some(e);
      FilterContains(rows, ActiveFor(user.id), m);
    }
  }

  // ---------------------------------------------------------------------------
  // Automatic selection

  /** `publicSelectedEventId || localStorage.getItem(...)`. */
  function EffectivePublicId(field: Option<string>, stored: Option<string>): Option<string> {
    if TruthyOpt(field) then field else stored
  }

  /** The event chosen without asking: the only one, or, among several, the first
      whose id is the stored public event id. */
  function AutoSelect(evts: seq<Evento>, publicId: Option<string>): Option<Evento> {
    if |evts| == 1 then Some(evts[0])
    else if |evts| > 1 && TruthyOpt(publicId) then Find(evts, (e: Evento) => e.id == publicId.value)
    else None
  }

  /** No event gives no choice and a single event is always chosen. Among several,
      an event is chosen exactly when the public id is set and some event has it,
      and the chosen one is the first such event. */
  lemma AutoSelectSpec(evts: seq<Evento>, publicId: Option<string>)
    ensures var r := AutoSelect(evts, publicId);
      (|evts| == 0 ==> r.None?) &&
      (|evts| == 1 ==> r == Some(evts[0])) &&
      (|evts| > 1 ==>
        (r.Some? <==> TruthyOpt(publicId) && exists i :: 0 <= i < |evts| && evts[i].id == publicId.value)) &&
      (|evts| > 1 && r.Some? ==>
        exists i :: 0 <= i < |evts| && evts[i] == r.value && r.value.id == publicId.value &&
          forall j :: 0 <= j < i ==> evts[j].id != publicId.value)
  {
  }

  // ---------------------------------------------------------------------------
  // Membership and permissions of a selection

  /** The membership query with `.single()`: the user's active membership of the
      event when there is exactly one such row, and nothing otherwise. */
  function MembershipFor(rows: seq<EventoUsuario>, eventoId: string, userId: string): (r: Option<EventoUsuario>)
    ensures r.Some? ==> r.value in rows && r.value.eventoId == eventoId && r.value.usuarioId == userId && r.value.isActive
  {
    var ms := Filter(rows, ActiveOfEventFor(eventoId, userId));
    if |ms| == 1 then
      FilterContains(rows, ActiveOfEventFor(eventoId, userId), ms[0]);
      Some(ms[0])
    else None
  }

  /** `.single()` finds the membership exactly when one row matches: a user with a
      single active membership of the event gets that row, and a user with none,
      or with several, gets nothing. */
  lemma MembershipForSpec(rows: seq<EventoUsuario>, eventoId: string, userId: string)
    ensures forall i ::
      (0 <= i < |rows| && IsActiveMembershipOf(rows[i], eventoId, userId) &&
       forall j :: 0 <= j < |rows| && j != i ==> !IsActiveMembershipOf(rows[j], eventoId, userId)) ==>
      MembershipFor(rows, eventoId, userId) == Some(rows[i])
    ensures (forall j :: 0 <= j < |rows| ==> !IsActiveMembershipOf(rows[j], eventoId, userId)) ==>
      MembershipFor(rows, eventoId, userId).None?
    ensures (exists j, k :: 0 <= j < k < |rows| && IsActiveMembershipOf(rows[j], eventoId, userId) &&
                            IsActiveMembershipOf(rows[k], eventoId, userId)) ==>
      MembershipFor(rows, eventoId, userId).None?
  {
    var p := ActiveOfEventFor(eventoId, userId);
    forall i | 0 <= i < |rows| && IsActiveMembershipOf(rows[i], eventoId, userId) &&
      (forall j :: 0 <= j < |rows| && j != i ==> !IsActiveMembershipOf(rows[j], eventoId, userId))
      ensures MembershipFor(rows, eventoId, userId) == Some(rows[i])
    {
      FilterSingle(rows, p, i);
    }
    if forall j :: 0 <= j < |rows| ==> !IsActiveMembershipOf(rows[j], eventoId, userId) {
      FilterNone(rows, p);
    }
    if exists j, k :: 0 <= j < k < |rows| && IsActiveMembershipOf(rows[j], eventoId, userId) &&
                      IsActiveMembershipOf(rows[k], eventoId, userId) {
      var j, k :| 0 <= j < k < |rows| && IsActiveMembershipOf(rows[j], eventoId, userId) &&
                  IsActiveMembershipOf(rows[k], eventoId, userId);
      FilterTwo(rows, p, j, k);
    }
  }

  /** `perms.map(p => p.permissao?.codigo).filter(Boolean)`: the non-empty codes of
      the joined permissions, in order. */
  function CodesOf(ls: seq<PermissaoLink>): (r: seq<string>)
    ensures |r| <= |ls|
  {
    if ls == [] then []
    else if ls[0].permissao.Some? && ls[0].permissao.value.codigo != "" then
      [ls[0].permissao.value.codigo] + CodesOf(ls[1..])
    else CodesOf(ls[1..])
  }

  /** A code is listed exactly when it is non-empty and some link carries it. */
  lemma {:induction false} CodesOfMembers(ls: seq<PermissaoLink>, c: string)
    ensures c in CodesOf(ls) <==>
      c != "" && exists l :: l in ls && l.permissao.Some? && l.permissao.value.codigo == c
  {
    if ls != [] {
      CodesOfMembers(ls[1..], c);
      assert ls == [ls[0]] + ls[1..];
    }
  }

  /** The link query's filter: the links of one membership. */
  function LinksOf(ls: seq<PermissaoLink>, eventoUsuarioId: string): seq<PermissaoLink> {
    Filter(ls, LinkOf(eventoUsuarioId))
  }

  /** `allPerms?.map(p => p.codigo) || []`: a super-admin gets every code. */
  function AllCodes(ps: seq<Permissao>): (r: seq<string>)
    ensures |r| == |ps| && forall i :: 0 <= i < |ps| ==> r[i] == ps[i].codigo
  {
    seq(|ps|, i requires 0 <= i < |ps| => ps[i].codigo)
  }

  /** The synthetic membership a super-admin gets for the selected event. */
  function SuperAdminMembership(evento: Evento, user: AuthUser, now: string): EventoUsuario {
    EventoUsuario("super-admin", evento.id, user.id, AdminEvento, true, None, now, None)
  }

  /** What selecting `evento` resolves to for a signed-in user. */
  function Resolve(evento: Evento, user: AuthUser, isSuperAdmin: bool, b: Backend, now: string): Selection {
    if isSuperAdmin then
      Selection(Some(SuperAdminMembership(evento, user, now)), AllCodes(b.permissoes.GetOr([])))
    else
      var eu := if b.eventosUsuarios.None? then None else MembershipFor(b.eventosUsuarios.value, evento.id, user.id);
      if eu.None? then Selection(None, [])
      else if b.links.None? then Selection(eu, [])
      else Selection(eu, CodesOf(LinksOf(b.links.value, eu.value.id)))
  }

  /** A super-admin's selection carries a synthetic active admin membership of the
      selected event and every permission code; anyone else's carries the user's own
      active membership row of that event, or no membership and no permission. */
  lemma ResolveSpec(evento: Evento, user: AuthUser, isSuperAdmin: bool, b: Backend, now: string)
    ensures var r := Resolve(evento, user, isSuperAdmin, b, now);
      (isSuperAdmin ==>
        r.membership.Some? && r.membership.value.role == AdminEvento &&
        r.membership.value.isActive && r.membership.value.eventoId == evento.id &&
        r.membership.value.usuarioId == user.id &&
        r.permissions == AllCodes(b.permissoes.GetOr([]))) &&
      (!isSuperAdmin && r.membership.None? ==> r.permissions == []) &&
      (!isSuperAdmin && r.membership.Some? ==>
        b.eventosUsuarios.Some? && r.membership.value in b.eventosUsuarios.value &&
        r.membership.value.eventoId == evento.id && r.membership.value.usuarioId == user.id &&
        r.membership.value.isActive)
  {
  }

  /** For a user who is not a super-admin and has exactly one active membership row
      of the event, the selection is that row, and its permissions are the codes of
      that row's links (none when the link query returned nothing). */
  lemma ResolveOwnMembership(evento: Evento, user: AuthUser, b: Backend, now: string, i: int)
    requires b.eventosUsuarios.Some? && 0 <= i < |b.eventosUsuarios.value|
    requires IsActiveMembershipOf(b.eventosUsuarios.value[i], evento.id, user.id)
    requires forall j :: 0 <= j < |b.eventosUsuarios.value| && j != i ==>
      !IsActiveMembershipOf(b.eventosUsuarios.value[j], evento.id, user.id)
    ensures var m := b.eventosUsuarios.value[i];
      var r := Resolve(evento, user, false, b, now);
      r.membership == Some(m) &&
      r.permissions == (if b.links.Some? then CodesOf(LinksOf(b.links.value, m.id)) else [])
  {
    MembershipForSpec(b.eventosUsuarios.value, evento.id, user.id);
  }

  /** A user who is not a super-admin and has no active membership row of the
      event, or several, gets no membership and no permission. */
  lemma ResolveNoMembership(evento: Evento, user: AuthUser, b: Backend, now: string)
    ensures var rows := b.eventosUsuarios.GetOr([]);
      ((forall j :: 0 <= j < |rows| ==> !IsActiveMembershipOf(rows[j], evento.id, user.id)) ||
       (exists j, k :: 0 <= j < k < |rows| && IsActiveMembershipOf(rows[j], evento.id, user.id) &&
                       IsActiveMembershipOf(rows[k], evento.id, user.id))) ==>
      Resolve(evento, user, false, b, now) == Selection(None, [])
  {
    if b.eventosUsuarios.Some? {
      MembershipForSpec(b.eventosUsuarios.value, evento.id, user.id);
    }
  }

  /** `hasPermission(codigo)`. */
  predicate Allows(isSuperAdmin: bool, permissions: seq<string>, codigo: string) {
    isSuperAdmin || codigo in permissions
  }

  /** The permission gate after a selection: a super-admin passes every check; any
      other user passes exactly for the non-empty codes linked to the user's one
      active membership of the event. */
  lemma PermissionGate(evento: Evento, user: AuthUser, isSuperAdmin: bool, b: Backend, now: string, c: string)
    ensures var sel := Resolve(evento, user, isSuperAdmin, b, now);
      Allows(isSuperAdmin, sel.permissions, c) <==>
        isSuperAdmin ||
        (sel.membership.Some? && b.links.Some? && c != "" &&
         exists l :: l in b.links.value && l.eventoUsuarioId == sel.membership.value.id &&
                     l.permissao.Some? && l.permissao.value.codigo == c)
  {
    var sel := Resolve(evento, user, isSuperAdmin, b, now);
    if !isSuperAdmin && sel.membership.Some? && b.links.Some? {
      var euId := sel.membership.value.id;
      var ls := LinksOf(b.links.value, euId);
      CodesOfMembers(ls, c);
      if exists l :: l in ls && l.permissao.Some? && l.permissao.value.codigo == c {
        var l :| l in ls && l.permissao.Some? && l.permissao.value.codigo == c;
        FilterContains(b.links.value, LinkOf(euId), l);
      }
      if exists l :: l in b.links.value && l.eventoUsuarioId == euId && l.permissao.Some? && l.permissao.value.codigo == c {
        var l :| l in b.links.value && l.eventoUsuarioId == euId && l.permissao.Some? && l.permissao.value.codigo == c;
        FilterContains(b.links.value, LinkOf(euId), l);
      }
    }
  }

  // ---------------------------------------------------------------------------
  // The provider's state

  class EventProvider {
    var eventos: seq<Evento>
    var selectedEvento: Option<Evento>
    var membership: Option<EventoUsuario>
    var permissions: seq<string>
    var loading: bool
    var publicSelectedEventId: Option<string>

    /** The initial state of the provider. */
    constructor()
      ensures eventos == [] && selectedEvento.None? && membership.None? && permissions == []
      ensures loading && publicSelectedEventId.None?
    {
      eventos := [];
      selectedEvento := None;
      membership := None;
      permissions := [];
      loading := true;
      publicSelectedEventId := None;
    }

    /** The mount effect: a truthy stored public event id becomes the public selection. */
    method RestorePublicEvent(saved: Option<string>)
      modifies this
      ensures publicSelectedEventId == if TruthyOpt(saved) then saved else old(publicSelectedEventId)
      ensures eventos == old(eventos) && selectedEvento == old(selectedEvento)
      ensures membership == old(membership) && permissions == old(permissions) && loading == old(loading)
    {
      if TruthyOpt(saved) {
        publicSelectedEventId := saved;
      }
    }

    /** `selectPublicEvent(id)`. */
    method SelectPublicEvent(id: string)
      modifies this
      ensures publicSelectedEventId == Some(id)
      ensures eventos == old(eventos) && selectedEvento == old(selectedEvento)
      ensures membership == old(membership) && permissions == old(permissions) && loading == old(loading)
    {
      publicSelectedEventId := Some(id);
    }

    /** `clearPublicEvent()`. */
    method ClearPublicEvent()
      modifies this
      ensures publicSelectedEventId.None?
      ensures eventos == old(eventos) && selectedEvento == old(selectedEvento)
      ensures membership == old(membership) && permissions == old(permissions) && loading == old(loading)
    {
      publicSelectedEventId := None;
    }

    /** `selectEvento(evento)`: the event is selected at once; for a signed-in user
        the membership and permissions follow from the backend's answers. */
    method SelectEvento(evento: Evento, user: Option<AuthUser>, isSuperAdmin: bool, b: Backend, now: string)
      modifies this
      ensures selectedEvento == Some(evento)
      ensures user.None? ==> membership == old(membership) && permissions == old(permissions)
      ensures user.Some? ==>
        Selection(membership, permissions) == Resolve(evento, user.value, isSuperAdmin, b, now)
      ensures user.Some? ==> forall c :: HasPermission(isSuperAdmin, c) <==>
        isSuperAdmin ||
        (membership.Some? && b.links.Some? && c != "" &&
         exists l :: l in b.links.value && l.eventoUsuarioId == membership.value.id &&
                     l.permissao.Some? && l.permissao.value.codigo == c)
      ensures eventos == old(eventos) && loading == old(loading)
      ensures publicSelectedEventId == old(publicSelectedEventId)
    {
      selectedEvento := Some(evento);
      if user.None? {
        return;
      }
      var sel := Resolve(evento, user.value, isSuperAdmin, b, now);
      membership := sel.membership;
      permissions := sel.permissions;
      forall c
        ensures HasPermission(isSuperAdmin, c) <==>
          isSuperAdmin ||
          (membership.Some? && b.links.Some? && c != "" &&
           exists l :: l in b.links.value && l.eventoUsuarioId == membership.value.id &&
                       l.permissao.Some? && l.permissao.value.codigo == c)
      {
        PermissionGate(evento, user.value, isSuperAdmin, b, now, c);
      }
    }

    /** The effect that runs whenever the signed-in user changes: with no user
        everything is cleared; otherwise the visible events are loaded, one is
        selected automatically if none is selected yet, and only then does loading
        end. `stored` is the public event id kept in the browser's storage. */
    method OnUserChange(user: Option<AuthUser>, isSuperAdmin: bool, b: Backend, stored: Option<string>, now: string)
      modifies this
      ensures !loading
      ensures publicSelectedEventId == old(publicSelectedEventId)
      ensures user.None? ==>
        eventos == [] && selectedEvento.None? && membership.None? && permissions == []
      ensures user.Some? ==> eventos == VisibleEvents(user.value, isSuperAdmin, b)
      ensures user.Some? ==>
        var auto := AutoSelect(eventos, EffectivePublicId(old(publicSelectedEventId), stored));
        if auto.Some? && old(selectedEvento).None? then
          selectedEvento == auto &&
          Selection(membership, permissions) == Resolve(auto.value, user.value, isSuperAdmin, b, now)
        else
          selectedEvento == old(selectedEvento) && membership == old(membership) &&
          permissions == old(permissions)
    {
      if user.None? {
        SignedOut();
      } else {
        LoadForUser(user.value, isSuperAdmin, b, stored, now);
      }
    }

    /** The signed-out branch of the effect: everything is cleared. */
    method SignedOut()
      modifies this
      ensures eventos == [] && selectedEvento.None? && membership.None? && permissions == [] && !loading
      ensures publicSelectedEventId == old(publicSelectedEventId)
    {
      eventos := [];
      selectedEvento := None;
      membership := None;
      permissions := [];
      loading := false;
    }

    /** The signed-in branch of the effect: load, auto-select, then stop loading. */
    method LoadForUser(user: AuthUser, isSuperAdmin: bool, b: Backend, stored: Option<string>, now: string)
      modifies this
      ensures !loading
      ensures publicSelectedEventId == old(publicSelectedEventId)
      ensures eventos == VisibleEvents(user, isSuperAdmin, b)
      ensures var auto := AutoSelect(eventos, EffectivePublicId(old(publicSelectedEventId), stored));
        if auto.Some? && old(selectedEvento).None? then
          selectedEvento == auto &&
          Selection(membership, permissions) == Resolve(auto.value, user, isSuperAdmin, b, now)
        else
          selectedEvento == old(selectedEvento) && membership == old(membership) &&
          permissions == old(permissions)
    {
      var evts := VisibleEvents(user, isSuperAdmin, b);
      var auto := AutoSelect(evts, EffectivePublicId(publicSelectedEventId, stored));
      eventos := evts;
      if auto.Some? && selectedEvento.None? {
        var sel := Resolve(auto.value, user, isSuperAdmin, b, now);
        selectedEvento := auto;
        membership := sel.membership;
        permissions := sel.permissions;
      }
      loading := false;
    }

    /** `clearEvento()`: forgets the selection, its membership and permissions. */
    method ClearEvento()
      modifies this
      ensures selectedEvento.None? && membership.None? && permissions == []
      ensures eventos == old(eventos) && loading == old(loading)
      ensures publicSelectedEventId == old(publicSelectedEventId)
    {
      selectedEvento := None;
      membership := None;
      permissions := [];
    }

    /** `hasPermission(codigo)` against the current permissions. */
    predicate HasPermission(isSuperAdmin: bool, codigo: string)
      reads this
    {
      Allows(isSuperAdmin, permissions, codigo)
    }
  }
}
