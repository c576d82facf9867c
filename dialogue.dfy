/**
 * The per-sender dialogue state machine of index.js as functions on values:
 * a session is a stage and a scratch map (`temp`), the store maps a sender id
 * to its session, and `Process` is `procesarMensaje`: it answers one message
 * and gives the new store. The class model in module Bot is proved to compute
 * exactly this.
 */
module Dialogue {
  import opened Text
  import opened Email
  import Replies

  /** `session.stage`; `Unknown` stands for any value outside the seven names. */
  datatype Stage =
    | MenuPrincipal        // 'MENU_PRINCIPAL'
    | DiagRapidoSO         // 'DIAG_RAPIDO_SO'
    | DiagRapidoSintoma    // 'DIAG_RAPIDO_SINTOMA'
    | LimpiezaTipo         // 'LIMPIEZA_TIPO'
    | HardwareTipo         // 'HARDWARE_TIPO'
    | SoporteRemotoCorreo  // 'SOPORTE_REMOTO_CORREO'
    | TicketEstadoId       // 'TICKET_ESTADO_ID'
    | Unknown

  /** The value of one `{stage, temp}` record. */
  datatype SessionState = SessionState(stage: Stage, temp: map<string, string>)

  datatype Option<T> = None | Some(value: T)

  /**
   * What a stage handler does: the reply, the new value of the session it was
   * given, and the key of a store entry it additionally resets, if any.
   */
  datatype Outcome = Outcome(reply: Replies.Reply, next: SessionState, resets: Option<string>)

  /** The reply to one message and the store after it. */
  datatype Turn = Turn(reply: Replies.Reply, sessions: map<string, SessionState>)

  /** The record `getSession` and `resetSession` create. */
  const Fresh: SessionState := SessionState(MenuPrincipal, map[])

  /** The key option `0` resets (index.js:179). */
  const DummyKey: string := "dummy"

  const MenuCommands: set<string> := {"menu", "menú", "principal"}
  const CancelCommands: set<string> := {"salir", "cancelar", "cancel"}

  const MenuOptions: set<string> := {"1", "2", "3", "4", "5", "0"}
  const OsOptions: set<string> := {"1", "2", "3"}
  const SymptomOptions: set<string> := {"1", "2", "3", "4"}
  const LimpiezaOptions: set<string> := {"1", "2", "3"}
  const HardwareOptions: set<string> := {"1", "2", "3", "4"}

  /** `sistemas` (index.js:194). */
  const Sistemas: map<string, string> := map["1" := "Windows", "2" := "macOS", "3" := "Linux"]

  const SystemFallback: string := "tu sistema"

  const Abierto: string := "ABIERTO"
  const EnEspera: string := "EN ESPERA DE REPUESTOS"
  const Cerrado: string := "CERRADO"
  /** The initial value of `estadoSimulado`, overwritten on every path. */
  const EnRevision: string := "EN REVISIÓN TÉCNICA"

  // ---------------------------------------------------------------------------
  // Session store

  /**
   * `getSession` on the store's value: the entry of `from` is created, as the
   * fresh record, only when it is absent; nothing else changes.
   */
  function GetSession(sessions: map<string, SessionState>, from: string): (r: map<string, SessionState>)
    ensures from in r && r[from] == (if from in sessions then sessions[from] else Fresh)
    ensures from in sessions ==> r == sessions
    ensures r.Keys == sessions.Keys + {from}
    ensures forall k :: k in sessions && k != from ==> r[k] == sessions[k]
  {
    if from in sessions then sessions else sessions[from := Fresh]
  }

  // ---------------------------------------------------------------------------
  // Input normalisation

  /** `body.trim().toLowerCase()`. */
  function Normalize(body: string): (m: string)
    ensures IsTrimmed(m)
    ensures |m| <= |body|
  {
    var t := Trim(body);
    ToLowerKeepsTrimmed(t);
    ToLower(t)
  }

  predicate IsGlobalCommand(m: string) {
    m in MenuCommands || m in CancelCommands
  }

  // ---------------------------------------------------------------------------
  // Stage handlers

  /** `manejarMenuPrincipal` (index.js:114-185). */
  function MenuPrincipalStep(s: SessionState, m: string): Outcome {
    if m !in MenuOptions then Outcome(Replies.InvalidMenuOption, s, None)
    else if m == "1" then Outcome(Replies.DiagIntro, s.(stage := DiagRapidoSO), None)
    else if m == "2" then Outcome(Replies.LimpiezaIntro, s.(stage := LimpiezaTipo), None)
    else if m == "3" then Outcome(Replies.HardwareIntro, s.(stage := HardwareTipo), None)
    else if m == "4" then Outcome(Replies.SoporteIntro, s.(stage := SoporteRemotoCorreo), None)
    else if m == "5" then Outcome(Replies.TicketIntro, s.(stage := TicketEstadoId), None)
    else if m == "0" then Outcome(Replies.MensajeDespedida, s, Some(DummyKey))
    else Outcome(Replies.InvalidMenuOption, s, None)
  }

  /** `manejarDiagRapidoSO` (index.js:189-209): records the system in `temp.so`. */
  function DiagRapidoSOStep(s: SessionState, m: string): Outcome {
    if m !in OsOptions then Outcome(Replies.InvalidOs, s, None)
    else
      var temp := s.temp["so" := Sistemas[m]];
      Outcome(Replies.OsPrompt(temp["so"]), SessionState(DiagRapidoSintoma, temp), None)
  }

  /** `session.temp.so || 'tu sistema'`: an absent or empty value falls back. */
  function SystemName(temp: map<string, string>): string {
    if "so" in temp && temp["so"] != "" then temp["so"] else SystemFallback
  }

  /** `manejarDiagRapidoSintoma` (index.js:211-269). */
  function DiagRapidoSintomaStep(s: SessionState, m: string): Outcome {
    if m !in SymptomOptions then Outcome(Replies.InvalidSymptom, s, None)
    else
      var so := SystemName(s.temp);
      Outcome(Replies.Recommendation(m, so), SessionState(MenuPrincipal, map[]), None)
  }

  /** `manejarLimpiezaTipo` (index.js:273-325). */
  function LimpiezaTipoStep(s: SessionState, m: string): Outcome {
    if m !in LimpiezaOptions then Outcome(Replies.InvalidLimpieza, s, None)
    else Outcome(Replies.LimpiezaGuide(m), SessionState(MenuPrincipal, map[]), None)
  }

  /** `manejarHardwareTipo` (index.js:329-389). */
  function HardwareTipoStep(s: SessionState, m: string): Outcome {
    if m !in HardwareOptions then Outcome(Replies.InvalidHardware, s, None)
    else Outcome(Replies.HardwareGuide(m), SessionState(MenuPrincipal, map[]), None)
  }

  /** `manejarSoporteRemotoCorreo` (index.js:393-416). */
  function SoporteRemotoCorreoStep(s: SessionState, m: string): Outcome {
    if !IsEmail(m) then Outcome(Replies.InvalidEmail, s, None)
    else
      var temp := s.temp["email" := m];
      Outcome(Replies.EmailConfirmation(temp["email"]), SessionState(MenuPrincipal, map[]), None)
  }

  /**
   * The simulated ticket status drawn from `random`, the value of
   * `Math.random()` (index.js:424-428).
   */
  function EstadoSimulado(random: real): (r: string)
    ensures r == Abierto || r == EnEspera || r == Cerrado
    ensures r != EnRevision
  {
    if random < 0.33 then Abierto
    else if random < 0.66 then EnEspera
    else Cerrado
  }

  /** `manejarTicketEstadoId` (index.js:420-441): every message is taken as a ticket id. */
  function TicketEstadoIdStep(s: SessionState, m: string, random: real): Outcome {
    var id := Trim(ToUpper(m));
    Outcome(Replies.TicketStatus(id, EstadoSimulado(random)), SessionState(MenuPrincipal, map[]), None)
  }

  // ---------------------------------------------------------------------------
  // Dispatch and the entry point

  /** The `switch (session.stage)` of `procesarMensaje` (index.js:84-109). */
  function Dispatch(s: SessionState, m: string, random: real): (o: Outcome)
    ensures o.resets == None || o.resets == Some(DummyKey)
  {
    match s.stage
    case MenuPrincipal => MenuPrincipalStep(s, m)
    case DiagRapidoSO => DiagRapidoSOStep(s, m)
    case DiagRapidoSintoma => DiagRapidoSintomaStep(s, m)
    case LimpiezaTipo => LimpiezaTipoStep(s, m)
    case HardwareTipo => HardwareTipoStep(s, m)
    case SoporteRemotoCorreo => SoporteRemotoCorreoStep(s, m)
    case TicketEstadoId => TicketEstadoIdStep(s, m, random)
    case Unknown => Outcome(Replies.MenuPrincipal, Fresh, None)
  }

  /** Writes a handler's outcome back into the store. */
  function Apply(sessions: map<string, SessionState>, from: string, o: Outcome): (r: map<string, SessionState>)
    ensures from in r
    ensures o.resets == None ==> r.Keys == sessions.Keys + {from}
    ensures o.resets.Some? ==> r.Keys == sessions.Keys + {from, o.resets.value}
    ensures forall k :: k in sessions && k != from && o.resets != Some(k) ==> r[k] == sessions[k]
  {
    var updated := sessions[from := o.next];
    match o.resets
    case None => updated
    case Some(k) => updated[k := Fresh]
  }

  /**
   * `procesarMensaje(from, body)`, with `random` the value `Math.random()`
   * would return if the ticket stage needs one: the message is normalised
   * once, and everything after that is `Respond`.
   */
  function Process(sessions: map<string, SessionState>, from: string, body: string, random: real): Turn {
    Respond(sessions, from, Normalize(body), random)
  }

  /**
   * `procesarMensaje` from the normalised message on (index.js:68-109): the
   * sender's entry is created if absent, the global commands come first, and
   * otherwise the handler of the session's stage answers. Its properties are
   * the lemmas of module DialogueProperties.
   */
  function Respond(sessions: map<string, SessionState>, from: string, message: string, random: real): Turn {
    var store := GetSession(sessions, from);
    if message in MenuCommands then Turn(Replies.MenuPrincipal, store[from := Fresh])
    else if message in CancelCommands then Turn(Replies.Cancelled, store[from := Fresh])
    else
      var o := Dispatch(store[from], message, random);
      Turn(o.reply, Apply(store, from, o))
  }

  /** The entry `Respond` creates is already there the second time. */
  lemma RespondAfterGetSession(sessions: map<string, SessionState>, from: string, message: string, random: real)
    ensures Respond(GetSession(sessions, from), from, message, random) == Respond(sessions, from, message, random)
  {
    assert GetSession(GetSession(sessions, from), from) == GetSession(sessions, from);
  }
}
