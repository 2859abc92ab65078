/** The records and closed enumerations of the database schema, and the severity
    display table shared by the dashboard, the intake form and the map.
    Rows are mirrored from the hosted database; `Option` stands for an optional
    (`?`) column or a nullable join. */
module Types {
  import opened Wrappers

  // ---------------------------------------------------------------------------
  // Enumerations

  datatype EventoStatus = Draft | Ativo | Encerrado | Arquivado
  datatype EventoRole = AdminEvento | EquipeSaude
  datatype Gravidade = Leve | Moderado | Grave | Critico
  datatype StatusAtendimento = EmAndamento | Finalizado | Encaminhado

  /** The string each status is stored as. */
  function EventoStatusKey(s: EventoStatus): string {
    match s
    case Draft => "draft"
    case Ativo => "ativo"
    case Encerrado => "encerrado"
    case Arquivado => "arquivado"
  }

  /** Reading a stored event status back; `None` for any other string. */
  function EventoStatusFromKey(k: string): (r: Option<EventoStatus>)
    ensures r.Some? ==> EventoStatusKey(r.value) == k
  {
    if k == "draft" then Some(Draft)
    else if k == "ativo" then Some(Ativo)
    else if k == "encerrado" then Some(Encerrado)
    else if k == "arquivado" then Some(Arquivado)
    else None
  }

  /** Every status is read back from its own key: the key is injective and the
      four statuses are the only ones. */
  lemma EventoStatusKeyRoundTrip(s: EventoStatus)
    ensures EventoStatusFromKey(EventoStatusKey(s)) == Some(s)
  {
  }

  function EventoRoleKey(r: EventoRole): string {
    match r
    case AdminEvento => "admin_evento"
    case EquipeSaude => "equipe_saude"
  }

  function GravidadeKey(g: Gravidade): string {
    match g
    case Leve => "leve"
    case Moderado => "moderado"
    case Grave => "grave"
    case Critico => "critico"
  }

  /** Reading a stored severity back; `None` for any string outside the enum. */
  function GravidadeFromKey(k: string): (r: Option<Gravidade>)
    ensures r.Some? ==> GravidadeKey(r.value) == k
  {
    if k == "leve" then Some(Leve)
    else if k == "moderado" then Some(Moderado)
    else if k == "grave" then Some(Grave)
    else if k == "critico" then Some(Critico)
    else None
  }

  lemma GravidadeKeyRoundTrip(g: Gravidade)
    ensures GravidadeFromKey(GravidadeKey(g)) == Some(g)
  {
  }

  /** Two severities with the same key are the same severity. */
  lemma GravidadeKeyInjective(g: Gravidade, h: Gravidade)
    ensures GravidadeKey(g) == GravidadeKey(h) ==> g == h
  {
    GravidadeKeyRoundTrip(g);
    GravidadeKeyRoundTrip(h);
  }

  function StatusAtendimentoKey(s: StatusAtendimento): string {
    match s
    case EmAndamento => "em_andamento"
    case Finalizado => "finalizado"
    case Encaminhado => "encaminhado"
  }

  /** The severities in the key order of the display table, which is the order of
      the severity selector and of the dashboard filter buttons. */
  const AllGravidades: seq<Gravidade> := [Leve, Moderado, Grave, Critico]

  /** Position of a severity in that order (0 for leve up to 3 for critico). */
  function Rank(g: Gravidade): (r: nat)
    ensures r < |AllGravidades| && AllGravidades[r] == g
  {
    match g
    case Leve => 0
    case Moderado => 1
    case Grave => 2
    case Critico => 3
  }

  /** The order lists every severity exactly once. */
  lemma AllGravidadesEnumerates()
    ensures |AllGravidades| == 4
    ensures forall g: Gravidade :: g in AllGravidades
    ensures forall i, j :: 0 <= i < j < |AllGravidades| ==> AllGravidades[i] != AllGravidades[j]
  {
    forall g: Gravidade
      ensures g in AllGravidades
    {
      assert AllGravidades[Rank(g)] == g;
    }
  }

  // ---------------------------------------------------------------------------
  // The severity display table

  datatype GravidadeStyle = GravidadeStyle(labelText: string, color: string, bgColor: string, icon: string)

  /** The display entry of every severity: the table is total by construction. */
  function GravidadeConfig(g: Gravidade): GravidadeStyle {
    match g
    case Leve => GravidadeStyle("Leve", "#22c55e", "rgba(34,197,94,0.15)", "🟢")
    case Moderado => GravidadeStyle("Moderado", "#f59e0b", "rgba(245,158,11,0.15)", "🟡")
    case Grave => GravidadeStyle("Grave", "#f97316", "rgba(249,115,22,0.15)", "🟠")
    case Critico => GravidadeStyle("Crítico", "#ef4444", "rgba(239,68,68,0.15)", "🔴")
  }

  /** Labels, colours and icons are pairwise distinct, so each identifies its
      severity. */
  lemma GravidadeConfigInjective(g: Gravidade, h: Gravidade)
    requires g != h
    ensures GravidadeConfig(g).labelText != GravidadeConfig(h).labelText
    ensures GravidadeConfig(g).color != GravidadeConfig(h).color
    ensures GravidadeConfig(g).icon != GravidadeConfig(h).icon
  {
  }

  /** `GRAVIDADE_CONFIG[key]?`: the entry for a stored key, `None` outside the enum. */
  function ConfigForKey(k: string): (r: Option<GravidadeStyle>)
    ensures r.Some? <==> GravidadeFromKey(k).Some?
    ensures r.Some? ==> r.value == GravidadeConfig(GravidadeFromKey(k).value)
  {
    match GravidadeFromKey(k)
    case Some(g) => Some(GravidadeConfig(g))
    case None => None
  }

  // ---------------------------------------------------------------------------
  // Records

  datatype Evento = Evento(
    id: string,
    nome: string,
    descricao: Option<string>,
    fotoUrl: Option<string>,
    dataInicio: Option<string>,
    dataFim: Option<string>,
    status: EventoStatus,
    createdBy: Option<string>,
    createdAt: string)

  datatype Usuario = Usuario(
    id: string,
    nome: string,
    email: Option<string>,
    isSuperAdmin: bool,
    isActive: bool,
    createdAt: string)

  /** A user's membership of an event, with the event joined in when the query
      asks for it. */
  datatype EventoUsuario = EventoUsuario(
    id: string,
    eventoId: string,
    usuarioId: string,
    role: EventoRole,
    isActive: bool,
    criadoPor: Option<string>,
    createdAt: string,
    evento: Option<Evento>)

  datatype Permissao = Permissao(
    id: string,
    codigo: string,
    descricao: Option<string>,
    aplicaARole: string)

  datatype Participante = Participante(
    id: string,
    nome: string,
    nfcTagId: string,
    eventoId: Option<string>,
    cpf: Option<string>,
    idade: Option<int>,
    telefone: Option<string>,
    telefoneEmergencia: Option<string>,
    contatoEmergenciaNome: Option<string>,
    alergias: Option<string>,
    condicoesMedicas: Option<string>,
    medicamentos: Option<string>,
    tipoSanguineo: Option<string>,
    fotoUrl: Option<string>,
    peso: Option<real>,
    altura: Option<real>,
    cidadeEstado: Option<string>,
    equipeFamilia: Option<string>,
    biotipo: Option<string>,
    indicativoSaude: Option<real>,
    cirurgias: Option<string>,
    observacaoHakuna: Option<string>,
    atividadeFisicaSemanal: Option<string>,
    planoSaude: Option<string>,
    outrasInformacoesMedicas: Option<string>,
    createdAt: string,
    updatedAt: string)

  datatype Medico = Medico(
    id: string,
    nome: string,
    crm: Option<string>,
    especialidade: Option<string>,
    telefone: Option<string>,
    isAdmin: bool,
    createdAt: string)

  datatype AtendimentoFoto = AtendimentoFoto(
    id: string,
    atendimentoId: string,
    fotoUrl: string,
    legenda: Option<string>,
    createdAt: string)

  /** One encounter, with participant, staff member and photos joined in. */
  datatype Atendimento = Atendimento(
    id: string,
    participanteId: string,
    medicoId: string,
    eventoId: Option<string>,
    descricao: string,
    gravidade: Gravidade,
    latitude: real,
    longitude: real,
    altitude: Option<real>,
    precisaoGps: Option<real>,
    status: StatusAtendimento,
    observacoes: Option<string>,
    createdAt: string,
    updatedAt: string,
    participante: Option<Participante>,
    medico: Option<Medico>,
    fotos: Option<seq<AtendimentoFoto>>)
}
