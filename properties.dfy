/**
 * What `procesarMensaje` promises, proved about `Dialogue.Respond` (the bot
 * after normalising the message) and `Dialogue.Process`: global commands come
 * first, an unknown stage falls back to the menu, refused input changes
 * nothing, each stage moves as the source says, and every session the bot can
 * reach keeps the shape the handlers rely on.
 */
module DialogueProperties {
  import opened Text
  import opened Email
  import opened Dialogue
  import Replies

  /** The session `procesarMensaje` works on: the entry after `getSession`. */
  function SessionOf(sessions: map<string, SessionState>, from: string): (s: SessionState)
    ensures s == (if from in sessions then sessions[from] else Fresh)
  {
    GetSession(sessions, from)[from]
  }

  /** A message that is no global command goes to the handler of the session's stage. */
  lemma RespondSteps(sessions: map<string, SessionState>, from: string, m: string, random: real)
    requires !IsGlobalCommand(m)
    ensures var store := GetSession(sessions, from);
      var o := Dispatch(store[from], m, random);
      Respond(sessions, from, m, random) == Turn(o.reply, Apply(store, from, o))
  {
  }

  // ---------------------------------------------------------------------------
  // The store

  /**
   * Only the sender's entry and, for option `0`, the `dummy` entry can change;
   * no entry is ever removed (index.js:49-64, 69, 107, 179).
   */
  lemma RespondIsolation(sessions: map<string, SessionState>, from: string, m: string, random: real)
    ensures var t := Respond(sessions, from, m, random);
      && from in t.sessions
      && (forall k :: k in sessions ==> k in t.sessions)
      && (forall k :: k in t.sessions ==> k in sessions || k == from || k == DummyKey)
      && (forall k :: k in sessions && k != from && k != DummyKey ==> t.sessions[k] == sessions[k])
  {
    if !IsGlobalCommand(m) {
      RespondSteps(sessions, from, m, random);
    }
  }

  /** A sender without an entry is handled exactly as one holding the fresh record (index.js:49-57). */
  lemma AbsentIsFresh(sessions: map<string, SessionState>, from: string, m: string, random: real)
    requires from !in sessions
    ensures Respond(sessions, from, m, random) == Respond(sessions[from := Fresh], from, m, random)
  {
    assert GetSession(sessions, from) == GetSession(sessions[from := Fresh], from);
  }

  // ---------------------------------------------------------------------------
  // Normalisation and the global commands

  /** Normalising twice is normalising once. */
  lemma NormalizeIdempotent(body: string)
    ensures Normalize(Normalize(body)) == Normalize(body)
  {
    TrimOfTrimmed(Normalize(body));
    ToLowerIdempotent(Trim(body));
  }

  /** A menu command resets the session and shows the main menu, whatever the stage (index.js:73-76). */
  lemma MenuCommandResets(sessions: map<string, SessionState>, from: string, m: string, random: real)
    requires m in MenuCommands
    ensures Respond(sessions, from, m, random) == Turn(Replies.MenuPrincipal, sessions[from := Fresh])
  {
  }

  /** A cancel command resets the session and confirms the cancellation (index.js:78-81). */
  lemma CancelCommandResets(sessions: map<string, SessionState>, from: string, m: string, random: real)
    requires m in CancelCommands
    ensures Respond(sessions, from, m, random) == Turn(Replies.Cancelled, sessions[from := Fresh])
  {
  }

  /** A global command is recognised in any letter case and with any whitespace around it (index.js:70-81). */
  lemma {:induction false} GlobalCommandVariants(w1: string, c: string, w2: string)
    requires AllSpace(w1) && AllSpace(w2)
    requires IsGlobalCommand(ToLower(c))
    ensures Normalize(w1 + c + w2) == ToLower(c)
  {
    var l := ToLower(c);
    CommandsAreTrimmed(l);
    assert l != [] && !IsSpace(l[0]) && !IsSpace(l[|l| - 1]);
    TrimSurrounded(w1, c, w2);
  }

  /** Every global command is a non-empty text without surrounding whitespace. */
  lemma CommandsAreTrimmed(m: string)
    requires IsGlobalCommand(m)
    ensures m != [] && IsTrimmed(m)
  {
    if m in MenuCommands {
      assert m == "menu" || m == "menú" || m == "principal";
    } else {
      assert m == "salir" || m == "cancelar" || m == "cancel";
    }
  }

  lemma UpperCaseMenuCommand()
    ensures Normalize("  MENÚ\n") == "menú"
  {
    assert "  MENÚ\n" == "  " + "MENÚ" + "\n";
    assert ToLower("MENÚ") == "menú";
    GlobalCommandVariants("  ", "MENÚ", "\n");
  }

  /** "  MENÚ\n" from any stage brings the main menu back. */
  lemma ShoutedMenuCommand(sessions: map<string, SessionState>, from: string, random: real)
    ensures Process(sessions, from, "  MENÚ\n", random) == Turn(Replies.MenuPrincipal, sessions[from := Fresh])
  {
    UpperCaseMenuCommand();
    MenuCommandResets(sessions, from, "menú", random);
  }

  /** A stage outside the seven known values is reset and shows the main menu (index.js:106-108). */
  lemma UnknownStageResets(sessions: map<string, SessionState>, from: string, m: string, random: real)
    requires from in sessions && sessions[from].stage == Unknown
    requires !IsGlobalCommand(m)
    ensures Respond(sessions, from, m, random) == Turn(Replies.MenuPrincipal, sessions[from := Fresh])
  {
    RespondSteps(sessions, from, m, random);
  }

  // ---------------------------------------------------------------------------
  // Refused input

  /** The stages that offer a numbered choice. */
  predicate IsChoiceStage(st: Stage) {
    st == MenuPrincipal || st == DiagRapidoSO || st == DiagRapidoSintoma
    || st == LimpiezaTipo || st == HardwareTipo
  }

  /** The options a choice stage accepts. */
  function Choices(st: Stage): set<string>
    requires IsChoiceStage(st)
  {
    match st
    case MenuPrincipal => MenuOptions
    case DiagRapidoSO => OsOptions
    case DiagRapidoSintoma => SymptomOptions
    case LimpiezaTipo => LimpiezaOptions
    case HardwareTipo => HardwareOptions
  }

  /** The reply of a stage to input it refuses. */
  function InvalidReply(st: Stage): Replies.Reply {
    match st
    case MenuPrincipal => Replies.InvalidMenuOption
    case DiagRapidoSO => Replies.InvalidOs
    case DiagRapidoSintoma => Replies.InvalidSymptom
    case LimpiezaTipo => Replies.InvalidLimpieza
    case HardwareTipo => Replies.InvalidHardware
    case SoporteRemotoCorreo => Replies.InvalidEmail
    case _ => Replies.MenuPrincipal  // never used: `Rejects` holds at no other stage
  }

  /** The stage refuses the message: an option it does not offer, or a text that is not an address. */
  predicate Rejects(st: Stage, m: string) {
    (IsChoiceStage(st) && m !in Choices(st)) || (st == SoporteRemotoCorreo && !IsEmail(m))
  }

  /**
   * Input a stage refuses changes no session and gets that stage's "not
   * valid" reply (index.js:115-117, 190-192, 212-214, 274-276, 330-332, 396-398).
   */
  lemma InvalidInputIsNoOp(sessions: map<string, SessionState>, from: string, m: string, random: real)
    requires !IsGlobalCommand(m)
    requires Rejects(SessionOf(sessions, from).stage, m)
    ensures Respond(sessions, from, m, random)
         == Turn(InvalidReply(SessionOf(sessions, from).stage), GetSession(sessions, from))
  {
    RespondSteps(sessions, from, m, random);
    var store := GetSession(sessions, from);
    assert store[from := store[from]] == store;
  }

  /** Sending refused input again gives the same reply and the same store. */
  lemma InvalidInputRepeats(sessions: map<string, SessionState>, from: string, m: string, random: real)
    requires !IsGlobalCommand(m)
    requires Rejects(SessionOf(sessions, from).stage, m)
    ensures var t := Respond(sessions, from, m, random);
      Respond(t.sessions, from, m, random) == t
  {
    InvalidInputIsNoOp(sessions, from, m, random);
    var store := GetSession(sessions, from);
    assert SessionOf(store, from) == SessionOf(sessions, from);
    InvalidInputIsNoOp(store, from, m, random);
    assert GetSession(store, from) == store;
  }

  /**
   * At a choice stage, the "not valid" reply comes exactly when the option is
   * not one the stage offers.
   */
  lemma InvalidReplyIffRejected(sessions: map<string, SessionState>, from: string, m: string, random: real)
    requires !IsGlobalCommand(m)
    requires IsChoiceStage(SessionOf(sessions, from).stage)
    ensures Respond(sessions, from, m, random).reply == InvalidReply(SessionOf(sessions, from).stage)
        <==> m !in Choices(SessionOf(sessions, from).stage)
  {
    RespondSteps(sessions, from, m, random);
  }

  // ---------------------------------------------------------------------------
  // The main menu

  /** The stage each of the options 1-5 opens. */
  function FlowOf(m: string): Stage {
    if m == "1" then DiagRapidoSO
    else if m == "2" then LimpiezaTipo
    else if m == "3" then HardwareTipo
    else if m == "4" then SoporteRemotoCorreo
    else TicketEstadoId
  }

  /** The question each of the options 1-5 asks. */
  function IntroOf(m: string): Replies.Reply {
    if m == "1" then Replies.DiagIntro
    else if m == "2" then Replies.LimpiezaIntro
    else if m == "3" then Replies.HardwareIntro
    else if m == "4" then Replies.SoporteIntro
    else Replies.TicketIntro
  }

  /**
   * Options 1-5 of the main menu move the session to the chosen flow and ask
   * that flow's first question; `temp` is left as it was (index.js:119-176).
   */
  lemma MenuOptionOpensFlow(sessions: map<string, SessionState>, from: string, m: string, random: real)
    requires SessionOf(sessions, from).stage == MenuPrincipal
    requires m in {"1", "2", "3", "4", "5"}
    ensures var s := SessionOf(sessions, from);
      Respond(sessions, from, m, random)
      == Turn(IntroOf(m), GetSession(sessions, from)[from := s.(stage := FlowOf(m))])
  {
    RespondSteps(sessions, from, m, random);
  }

  /**
   * Option 0 answers with the hand-off text and resets the entry under the
   * key `dummy`, not the sender's own: the sender's entry is left as it was
   * unless the sender is `dummy` (index.js:178-180).
   */
  lemma HandOffResetsDummy(sessions: map<string, SessionState>, from: string, m: string, random: real)
    requires SessionOf(sessions, from).stage == MenuPrincipal
    requires m == "0"
    ensures Respond(sessions, from, m, random)
         == Turn(Replies.MensajeDespedida, GetSession(sessions, from)[DummyKey := Fresh])
  {
    RespondSteps(sessions, from, m, random);
    var store := GetSession(sessions, from);
    assert store[from := store[from]] == store;
  }

  /** Another customer whose id is `dummy` loses their flow when anyone picks option 0. */
  lemma HandOffWipesOtherDummy()
    ensures var before := map["alice" := Fresh, DummyKey := SessionState(SoporteRemotoCorreo, map[])];
      var t := Respond(before, "alice", "0", 0.5);
      t.reply == Replies.MensajeDespedida
      && t.sessions == map["alice" := Fresh, DummyKey := Fresh]
  {
    var before := map["alice" := Fresh, DummyKey := SessionState(SoporteRemotoCorreo, map[])];
    HandOffResetsDummy(before, "alice", "0", 0.5);
    assert GetSession(before, "alice") == before;
  }

  // ---------------------------------------------------------------------------
  // Quick diagnosis

  /**
   * Choosing a system records its name in `temp.so`, moves on to the symptom
   * question and names the system in it (index.js:189-209).
   */
  lemma SystemChoiceRecorded(sessions: map<string, SessionState>, from: string, m: string, random: real)
    requires SessionOf(sessions, from).stage == DiagRapidoSO
    requires m in OsOptions
    ensures var s := SessionOf(sessions, from);
      Respond(sessions, from, m, random)
      == Turn(Replies.OsPrompt(Sistemas[m]),
              GetSession(sessions, from)[from := SessionState(DiagRapidoSintoma, s.temp["so" := Sistemas[m]])])
  {
    RespondSteps(sessions, from, m, random);
  }

  /**
   * Choosing a symptom gives the recommendation for it, naming the recorded
   * system (or "tu sistema" when none is recorded), and ends the flow
   * (index.js:211-269).
   */
  lemma SymptomChoiceEndsFlow(sessions: map<string, SessionState>, from: string, m: string, random: real)
    requires SessionOf(sessions, from).stage == DiagRapidoSintoma
    requires m in SymptomOptions
    ensures Respond(sessions, from, m, random)
         == Turn(Replies.Recommendation(m, SystemName(SessionOf(sessions, from).temp)),
                 GetSession(sessions, from)[from := Fresh])
  {
    RespondSteps(sessions, from, m, random);
  }

  /** The symptoms the step accepts are exactly those `recomendacion` has advice for (index.js:212, 218-263). */
  lemma SymptomsHaveAdvice(m: string)
    ensures m in SymptomOptions <==> Replies.IsSymptomCode(m)
  {
  }

  /**
   * The advice sent at the symptom stage contains `temp.so`, or `tu sistema`
   * when none is recorded (index.js:216-268).
   */
  lemma SymptomReplyNamesSystem(sessions: map<string, SessionState>, from: string, m: string, random: real)
    requires SessionOf(sessions, from).stage == DiagRapidoSintoma
    requires m in SymptomOptions
    ensures Contains(Replies.Render(Respond(sessions, from, m, random).reply), SystemName(SessionOf(sessions, from).temp))
  {
    SymptomChoiceEndsFlow(sessions, from, m, random);
    SymptomsHaveAdvice(m);
    Replies.RecommendationNamesSystem(m, SystemName(SessionOf(sessions, from).temp));
  }

  /** The system recorded in the first step is the one the recommendation names. */
  lemma {:induction false} DiagnosisRoundTrip(sessions: map<string, SessionState>, from: string, os: string, symptom: string, random: real)
    requires SessionOf(sessions, from).stage == DiagRapidoSO
    requires os in OsOptions && symptom in SymptomOptions
    ensures var t1 := Respond(sessions, from, os, random);
      var t2 := Respond(t1.sessions, from, symptom, random);
      t2.reply == Replies.Recommendation(symptom, Sistemas[os])
      && t2.sessions[from] == Fresh
  {
    SystemChoiceRecorded(sessions, from, os, random);
    var t1 := Respond(sessions, from, os, random);
    var temp := SessionOf(sessions, from).temp["so" := Sistemas[os]];
    assert SessionOf(t1.sessions, from) == SessionState(DiagRapidoSintoma, temp);
    assert SystemName(temp) == Sistemas[os];
    SymptomChoiceEndsFlow(t1.sessions, from, symptom, random);
  }

  /** Option 1, then macOS, then "slow in general": the advice for slowness on macOS. */
  lemma {:induction false} DiagnosisExample(sessions: map<string, SessionState>, from: string, random: real)
    requires SessionOf(sessions, from).stage == MenuPrincipal
    ensures var t1 := Respond(sessions, from, "1", random);
      var t2 := Respond(t1.sessions, from, "2", random);
      var t3 := Respond(t2.sessions, from, "1", random);
      t1.reply == Replies.DiagIntro
      && t2.reply == Replies.OsPrompt("macOS")
      && t3 == Turn(Replies.Recommendation("1", "macOS"), t2.sessions[from := Fresh])
  {
    MenuOptionOpensFlow(sessions, from, "1", random);
    var t1 := Respond(sessions, from, "1", random);
    assert SessionOf(t1.sessions, from).stage == DiagRapidoSO;
    SystemChoiceRecorded(t1.sessions, from, "2", random);
    var t2 := Respond(t1.sessions, from, "2", random);
    var temp := SessionOf(t1.sessions, from).temp["so" := "macOS"];
    assert SessionOf(t2.sessions, from) == SessionState(DiagRapidoSintoma, temp);
    assert SystemName(temp) == "macOS";
    SymptomChoiceEndsFlow(t2.sessions, from, "1", random);
    assert GetSession(t2.sessions, from) == t2.sessions;
  }

  // ---------------------------------------------------------------------------
  // Cleanup, hardware, remote support and tickets

  /** A cleanup choice gives its guide and ends the flow (index.js:273-325). */
  lemma CleanupChoiceEndsFlow(sessions: map<string, SessionState>, from: string, m: string, random: real)
    requires SessionOf(sessions, from).stage == LimpiezaTipo
    requires m in LimpiezaOptions
    ensures Respond(sessions, from, m, random)
         == Turn(Replies.LimpiezaGuide(m), GetSession(sessions, from)[from := Fresh])
  {
    RespondSteps(sessions, from, m, random);
  }

  /** A hardware choice gives its guide and ends the flow (index.js:329-389). */
  lemma HardwareChoiceEndsFlow(sessions: map<string, SessionState>, from: string, m: string, random: real)
    requires SessionOf(sessions, from).stage == HardwareTipo
    requires m in HardwareOptions
    ensures Respond(sessions, from, m, random)
         == Turn(Replies.HardwareGuide(m), GetSession(sessions, from)[from := Fresh])
  {
    RespondSteps(sessions, from, m, random);
  }

  /** No global command begins with a letter other than `m`, `p`, `s` or `c`. */
  lemma NotCommand(m: string)
    requires m == [] || (m[0] != 'm' && m[0] != 'p' && m[0] != 's' && m[0] != 'c')
    ensures !IsGlobalCommand(m)
  {
  }

  /** No global command contains an `@`. */
  lemma CommandsHaveNoAt(m: string)
    requires IsGlobalCommand(m)
    ensures '@' !in m
  {
    if m in MenuCommands {
      assert m == "menu" || m == "menú" || m == "principal";
    } else {
      assert m == "salir" || m == "cancelar" || m == "cancel";
    }
  }

  /** So no global command has the shape of an address. */
  lemma CommandsAreNotAddresses(m: string)
    requires IsEmail(m)
    ensures !IsGlobalCommand(m)
  {
    var i := IndexOf(m, '@');
    assert m[i] == '@';
    if IsGlobalCommand(m) {
      CommandsHaveNoAt(m);
      assert false;
    }
  }

  /**
   * An address of the accepted shape is confirmed, quoted as it was written
   * after normalisation, and ends the flow (index.js:393-416).
   */
  lemma {:induction false} AddressAccepted(sessions: map<string, SessionState>, from: string, m: string, random: real)
    requires SessionOf(sessions, from).stage == SoporteRemotoCorreo
    requires IsEmail(m)
    ensures Respond(sessions, from, m, random)
         == Turn(Replies.EmailConfirmation(m), GetSession(sessions, from)[from := Fresh])
  {
    CommandsAreNotAddresses(m);
    RespondSteps(sessions, from, m, random);
  }

  /** A rejected address leaves the session waiting for one; a good one then ends the flow. */
  lemma {:induction false} AddressRetry(sessions: map<string, SessionState>, from: string)
    requires SessionOf(sessions, from).stage == SoporteRemotoCorreo
    ensures var t1 := Respond(sessions, from, "not-an-email", 0.0);
      var t2 := Respond(t1.sessions, from, "user@example.com", 0.0);
      && t1.reply == Replies.InvalidEmail
      && t1.sessions == GetSession(sessions, from)
      && t2.reply == Replies.EmailConfirmation("user@example.com")
      && t2.sessions[from] == Fresh
  {
    RejectedExample();
    NotCommand("not-an-email");
    InvalidInputIsNoOp(sessions, from, "not-an-email", 0.0);
    var t1 := Respond(sessions, from, "not-an-email", 0.0);
    AcceptedExample();
    assert SessionOf(t1.sessions, from) == SessionOf(sessions, from);
    AddressAccepted(t1.sessions, from, "user@example.com", 0.0);
  }

  /**
   * Every message at the ticket stage is taken as an id: the reply quotes it
   * upper-cased, with one of the three simulated statuses, and the flow ends.
   * The message is already trimmed, so the second `trim` changes nothing
   * (index.js:420-441).
   */
  lemma {:induction false} TicketAnswered(sessions: map<string, SessionState>, from: string, m: string, random: real)
    requires SessionOf(sessions, from).stage == TicketEstadoId
    requires !IsGlobalCommand(m) && IsTrimmed(m)
    ensures Respond(sessions, from, m, random)
         == Turn(Replies.TicketStatus(ToUpper(m), EstadoSimulado(random)), GetSession(sessions, from)[from := Fresh])
  {
    TicketStep(SessionOf(sessions, from), m, random);
    RespondSteps(sessions, from, m, random);
  }

  /** The ticket handler on a trimmed message: the id is the upper-cased message. */
  lemma TicketStep(s: SessionState, m: string, random: real)
    requires s.stage == TicketEstadoId && IsTrimmed(m)
    ensures Dispatch(s, m, random) == Outcome(Replies.TicketStatus(ToUpper(m), EstadoSimulado(random)), Fresh, None)
  {
    DispatchTicket(s, m, random);
    ToUpperKeepsTrimmed(m);
  }

  /** At the ticket stage the switch calls the ticket handler. */
  lemma DispatchTicket(s: SessionState, m: string, random: real)
    requires s.stage == TicketEstadoId
    ensures Dispatch(s, m, random) == TicketEstadoIdStep(s, m, random)
  {
  }

  /** The ticket stage does not refuse an empty message: the id is then empty (index.js:420-441). */
  lemma EmptyTicketId(sessions: map<string, SessionState>, from: string, random: real)
    requires SessionOf(sessions, from).stage == TicketEstadoId
    ensures Respond(sessions, from, "", random)
         == Turn(Replies.TicketStatus("", EstadoSimulado(random)), GetSession(sessions, from)[from := Fresh])
  {
    NotCommand("");
    TicketAnswered(sessions, from, "", random);
  }

  // ---------------------------------------------------------------------------
  // The shape of reachable sessions

  /**
   * A session as the handlers leave it: a known stage, and `temp` empty except
   * while the symptom question is open, when it holds exactly the system name
   * chosen from the list.
   */
  predicate WellFormed(s: SessionState) {
    && s.stage != Unknown
    && (s.stage == DiagRapidoSintoma ==> s.temp.Keys == {"so"} && s.temp["so"] in Sistemas.Values)
    && (s.stage != DiagRapidoSintoma ==> s.temp == map[])
  }

  predicate AllWellFormed(sessions: map<string, SessionState>) {
    forall k :: k in sessions ==> WellFormed(sessions[k])
  }

  /** Each handler leaves a well-formed session well formed. */
  lemma DispatchKeepsWellFormed(s: SessionState, m: string, random: real)
    requires WellFormed(s)
    ensures WellFormed(Dispatch(s, m, random).next)
  {
    if s.stage == DiagRapidoSO && m in OsOptions {
      assert s.temp == map[];
      assert s.temp["so" := Sistemas[m]].Keys == {"so"};
    }
  }

  /** Every entry `procesarMensaje` creates or changes is well formed again. */
  lemma {:induction false} RespondKeepsWellFormed(sessions: map<string, SessionState>, from: string, m: string, random: real)
    requires AllWellFormed(sessions)
    ensures AllWellFormed(Respond(sessions, from, m, random).sessions)
  {
    var store := GetSession(sessions, from);
    assert AllWellFormed(store);
    if IsGlobalCommand(m) {
      assert Respond(sessions, from, m, random).sessions == store[from := Fresh];
    } else {
      var o := Dispatch(store[from], m, random);
      DispatchKeepsWellFormed(store[from], m, random);
      ApplyKeepsWellFormed(store, from, o);
      RespondSteps(sessions, from, m, random);
    }
  }

  /** Writing back a well-formed session, and resetting `dummy`, keeps the store well formed. */
  lemma ApplyKeepsWellFormed(store: map<string, SessionState>, from: string, o: Outcome)
    requires AllWellFormed(store) && WellFormed(o.next)
    ensures AllWellFormed(Apply(store, from, o))
  {
  }

  /** In a well-formed session the "tu sistema" fallback is never used: a system is always recorded. */
  lemma FallbackUnused(s: SessionState)
    requires WellFormed(s) && s.stage == DiagRapidoSintoma
    ensures SystemName(s.temp) == s.temp["so"] && SystemName(s.temp) != SystemFallback
  {
  }
}
