/**
 * The bot as index.js runs it: one `{stage, temp}` object per sender, kept in
 * the module-level `sessions` map and changed in place by the stage handlers.
 *
 * `Bot.View()` reads the objects back as values, and every method is proved to
 * do to that view exactly what the functions of module Dialogue describe, so
 * the lemmas of module DialogueProperties hold of the object model too.
 */
module Bot {
  import opened Text
  import opened Email
  import opened Dialogue
  import Replies

  /** One `{stage, temp}` object. */
  class Session {
    var stage: Stage
    var temp: map<string, string>

    /** The literal `{ stage: 'MENU_PRINCIPAL', temp: {} }`. */
    constructor ()
      ensures Value() == Fresh
    {
      stage := MenuPrincipal;
      temp := map[];
    }

    function Value(): SessionState
      reads this
    {
      SessionState(stage, temp)
    }
  }

  /**
   * Every sender other than `from` and `dummy` still has the very object it
   * had before.
   */
  ghost predicate Untouched(before: map<string, Session>, after: map<string, Session>, from: string) {
    forall k :: k in before && k != from && k != DummyKey ==> k in after && after[k] == before[k]
  }

  lemma UntouchedAfterGetSession(before: map<string, Session>, created: map<string, Session>,
                                 after: map<string, Session>, from: string)
    requires created == before || (from !in before && from in created && created == before[from := created[from]])
    requires Untouched(created, after, from)
    ensures Untouched(before, after, from)
  {
  }

  class Bot {
    /** The `sessions` object: sender id to that sender's session. */
    var sessions: map<string, Session>

    /** Each sender has an object of its own: a handler changing one session changes no other. */
    ghost predicate Valid()
      reads this
    {
      forall a, b :: a in sessions && b in sessions && a != b ==> sessions[a] != sessions[b]
    }

    /** The store as values. */
    ghost function View(): map<string, SessionState>
      reads this, sessions.Values
    {
      map k | k in sessions :: sessions[k].Value()
    }

    /** `const sessions = {}`. */
    constructor ()
      ensures Valid() && View() == map[]
    {
      sessions := map[];
    }

    /**
     * `getSession` (index.js:49-57): the sender's object, created only when
     * there is none; every object already in the store stays where it was.
     */
    method GetSession(from: string) returns (s: Session)
      requires Valid()
      modifies this
      ensures Valid()
      ensures from in sessions && s == sessions[from]
      ensures from in old(sessions) ==> sessions == old(sessions)
      ensures from !in old(sessions) ==> fresh(s) && sessions == old(sessions)[from := s]
      ensures View() == Dialogue.GetSession(old(View()), from)
    {
      if from !in sessions {
        s := new Session();
        sessions := sessions[from := s];
      } else {
        s := sessions[from];
      }
    }

    /**
     * `resetSession` (index.js:59-64): a new fresh object replaces whatever
     * the key held; the objects under other keys stay.
     */
    method ResetSession(key: string)
      requires Valid()
      modifies this
      ensures Valid()
      ensures key in sessions && fresh(sessions[key]) && sessions[key].Value() == Fresh
      ensures sessions == old(sessions)[key := sessions[key]]
      ensures View() == old(View())[key := Fresh]
    {
      var s := new Session();
      sessions := sessions[key := s];
    }

    /**
     * `manejarMenuPrincipal` (index.js:114-185): options 1-5 set the stage;
     * option 0 resets the entry under `dummy` and leaves `session` alone.
     */
    method HandleMenuPrincipal(session: Session, message: string) returns (reply: Replies.Reply)
      requires Valid()
      modifies this, session
      ensures Valid()
      ensures var o := MenuPrincipalStep(old(session.Value()), message);
        reply == o.reply && session.Value() == o.next
      ensures message != "0" ==> sessions == old(sessions)
      ensures message == "0" ==>
        && DummyKey in sessions && fresh(sessions[DummyKey]) && sessions[DummyKey].Value() == Fresh
        && sessions == old(sessions)[DummyKey := sessions[DummyKey]]
    {
      if message !in MenuOptions {
        return Replies.InvalidMenuOption;
      }
      if message == "1" {
        session.stage := DiagRapidoSO;
        reply := Replies.DiagIntro;
      } else if message == "2" {
        session.stage := LimpiezaTipo;
        reply := Replies.LimpiezaIntro;
      } else if message == "3" {
        session.stage := HardwareTipo;
        reply := Replies.HardwareIntro;
      } else if message == "4" {
        session.stage := SoporteRemotoCorreo;
        reply := Replies.SoporteIntro;
      } else if message == "5" {
        session.stage := TicketEstadoId;
        reply := Replies.TicketIntro;
      } else {
        ResetSession(DummyKey);
        reply := Replies.MensajeDespedida;
      }
    }

    /** `manejarDiagRapidoSO` (index.js:189-209). */
    method HandleDiagRapidoSO(session: Session, message: string) returns (reply: Replies.Reply)
      modifies session
      ensures Outcome(reply, session.Value(), None) == DiagRapidoSOStep(old(session.Value()), message)
    {
      if message !in OsOptions {
        return Replies.InvalidOs;
      }
      session.temp := session.temp["so" := Sistemas[message]];
      session.stage := DiagRapidoSintoma;
      reply := Replies.OsPrompt(session.temp["so"]);
    }

    /** `manejarDiagRapidoSintoma` (index.js:211-269). */
    method HandleDiagRapidoSintoma(session: Session, message: string) returns (reply: Replies.Reply)
      modifies session
      ensures Outcome(reply, session.Value(), None) == DiagRapidoSintomaStep(old(session.Value()), message)
    {
      if message !in SymptomOptions {
        return Replies.InvalidSymptom;
      }
      var so := if "so" in session.temp && session.temp["so"] != "" then session.temp["so"] else SystemFallback;
      reply := Replies.Recommendation(message, so);
      session.stage := MenuPrincipal;
      session.temp := map[];
    }

    /** `manejarLimpiezaTipo` (index.js:273-325). */
    method HandleLimpiezaTipo(session: Session, message: string) returns (reply: Replies.Reply)
      modifies session
      ensures Outcome(reply, session.Value(), None) == LimpiezaTipoStep(old(session.Value()), message)
    {
      if message !in LimpiezaOptions {
        return Replies.InvalidLimpieza;
      }
      reply := Replies.LimpiezaGuide(message);
      session.stage := MenuPrincipal;
      session.temp := map[];
    }

    /** `manejarHardwareTipo` (index.js:329-389). */
    method HandleHardwareTipo(session: Session, message: string) returns (reply: Replies.Reply)
      modifies session
      ensures Outcome(reply, session.Value(), None) == HardwareTipoStep(old(session.Value()), message)
    {
      if message !in HardwareOptions {
        return Replies.InvalidHardware;
      }
      reply := Replies.HardwareGuide(message);
      session.stage := MenuPrincipal;
      session.temp := map[];
    }

    /** `manejarSoporteRemotoCorreo` (index.js:393-416): the address is quoted from `temp.email`. */
    method HandleSoporteRemotoCorreo(session: Session, message: string) returns (reply: Replies.Reply)
      modifies session
      ensures Outcome(reply, session.Value(), None) == SoporteRemotoCorreoStep(old(session.Value()), message)
    {
      if !IsEmail(message) {
        return Replies.InvalidEmail;
      }
      session.temp := session.temp["email" := message];
      reply := Replies.EmailConfirmation(session.temp["email"]);
      session.stage := MenuPrincipal;
      session.temp := map[];
    }

    /** `manejarTicketEstadoId` (index.js:420-441), with `random` the value of `Math.random()`. */
    method HandleTicketEstadoId(session: Session, message: string, random: real) returns (reply: Replies.Reply)
      modifies session
      ensures Outcome(reply, session.Value(), None) == TicketEstadoIdStep(old(session.Value()), message, random)
    {
      var id := Trim(ToUpper(message));
      var estado := EnRevision;
      if random < 0.33 {
        estado := Abierto;
      } else if random < 0.66 {
        estado := EnEspera;
      } else {
        estado := Cerrado;
      }
      reply := Replies.TicketStatus(id, estado);
      session.stage := MenuPrincipal;
      session.temp := map[];
    }

    /**
     * The `switch (session.stage)` of `procesarMensaje` (index.js:84-109):
     * the handler of the session's stage answers and changes the session in
     * place; an unknown stage resets the sender's entry.
     */
    method Route(from: string, session: Session, message: string, random: real) returns (reply: Replies.Reply)
      requires Valid() && from in sessions && sessions[from] == session
      modifies this, session
      ensures Valid()
      ensures var o := Dispatch(old(session.Value()), message, random);
        reply == o.reply && View() == Apply(old(View()), from, o)
      ensures Untouched(old(sessions), sessions, from)
    {
      if session.stage == MenuPrincipal {
        reply := RouteMenu(from, session, message);
      } else if session.stage == Unknown {
        ResetSession(from);
        reply := Replies.MenuPrincipal;
      } else {
        reply := RouteStage(from, session, message, random);
      }
    }

    /** The main-menu case of `Route`. */
    method RouteMenu(from: string, session: Session, message: string) returns (reply: Replies.Reply)
      requires Valid() && from in sessions && sessions[from] == session
      requires session.stage == MenuPrincipal
      modifies this, session
      ensures Valid()
      ensures var o := MenuPrincipalStep(old(session.Value()), message);
        reply == o.reply && View() == Apply(old(View()), from, o)
      ensures Untouched(old(sessions), sessions, from)
    {
      if message == "0" {
        reply := RouteHandOff(from, session, message);
      } else {
        reply := RouteMenuOption(from, session, message);
      }
    }

    /** Option 0: only the entry under `dummy` changes. */
    method RouteHandOff(from: string, session: Session, message: string) returns (reply: Replies.Reply)
      requires Valid() && from in sessions && sessions[from] == session
      requires session.stage == MenuPrincipal && message == "0"
      modifies this, session
      ensures Valid()
      ensures reply == Replies.MensajeDespedida && View() == old(View())[DummyKey := Fresh]
      ensures Untouched(old(sessions), sessions, from)
    {
      ghost var before := View();
      reply := HandleMenuPrincipal(session, message);
      forall k | k in sessions && k != DummyKey ensures sessions[k].Value() == before[k] {
        assert sessions[k] == old(sessions[k]);
      }
    }

    /** Any other text at the main menu: only the sender's object changes. */
    method RouteMenuOption(from: string, session: Session, message: string) returns (reply: Replies.Reply)
      requires Valid() && from in sessions && sessions[from] == session
      requires session.stage == MenuPrincipal && message != "0"
      modifies this, session
      ensures Valid()
      ensures var o := MenuPrincipalStep(old(session.Value()), message);
        reply == o.reply && sessions == old(sessions) && View() == old(View())[from := o.next]
    {
      ghost var before := View();
      reply := HandleMenuPrincipal(session, message);
      forall k | k in sessions && k != from ensures sessions[k].Value() == before[k] {
        assert sessions[k] != session;
      }
    }

    /** The other known stages in `Route`: only the session object changes. */
    method RouteStage(from: string, session: Session, message: string, random: real) returns (reply: Replies.Reply)
      requires Valid() && from in sessions && sessions[from] == session
      requires session.stage != MenuPrincipal && session.stage != Unknown
      modifies session
      ensures var o := Dispatch(old(session.Value()), message, random);
        reply == o.reply && View() == Apply(old(View()), from, o)
    {
      ghost var before := View();
      ghost var o := Dispatch(session.Value(), message, random);
      reply := HandleStage(session, message, random);
      forall k | k in sessions && k != from ensures sessions[k].Value() == before[k] {
        assert sessions[k] != session;
      }
      assert View() == before[from := o.next];
    }

    /** The six stages after the main menu, each answered by its handler. */
    method HandleStage(session: Session, message: string, random: real) returns (reply: Replies.Reply)
      requires session.stage != MenuPrincipal && session.stage != Unknown
      modifies session
      ensures var o := Dispatch(old(session.Value()), message, random);
        o.resets == None && reply == o.reply && session.Value() == o.next
    {
      match session.stage {
        case DiagRapidoSO =>
          reply := HandleDiagRapidoSO(session, message);
        case DiagRapidoSintoma =>
          reply := HandleDiagRapidoSintoma(session, message);
        case LimpiezaTipo =>
          reply := HandleLimpiezaTipo(session, message);
        case HardwareTipo =>
          reply := HandleHardwareTipo(session, message);
        case SoporteRemotoCorreo =>
          reply := HandleSoporteRemotoCorreo(session, message);
        case TicketEstadoId =>
          reply := HandleTicketEstadoId(session, message, random);
      }
    }

    /**
     * `procesarMensaje` after `getSession` and the normalisation
     * (index.js:72-109): the global commands, then the stage's handler.
     */
    method Answer(from: string, session: Session, message: string, random: real) returns (reply: Replies.Reply)
      requires Valid() && from in sessions && sessions[from] == session
      modifies this, session
      ensures Valid()
      ensures Turn(reply, View()) == Respond(old(View()), from, message, random)
      ensures Untouched(old(sessions), sessions, from)
    {
      if message in MenuCommands {
        ResetSession(from);
        reply := Replies.MenuPrincipal;
      } else if message in CancelCommands {
        ResetSession(from);
        reply := Replies.Cancelled;
      } else {
        reply := Route(from, session, message, random);
      }
    }

    /**
     * `procesarMensaje` (index.js:68-109): the reply and the new store are
     * those of `Dialogue.Process`, and no object other than the sender's, a
     * new one, or the one under `dummy` is touched. The reply is returned as a
     * `Replies.Reply`; `Replies.Render` gives the text the bot sends.
     */
    method ProcesarMensaje(from: string, body: string, random: real) returns (reply: Replies.Reply)
      requires Valid()
      modifies this, sessions.Values
      ensures Valid()
      ensures Turn(reply, View()) == Process(old(View()), from, body, random)
      ensures Untouched(old(sessions), sessions, from)
    {
      var session := GetSession(from);
      ghost var created := sessions;
      var message := Normalize(body);
      RespondAfterGetSession(old(View()), from, message, random);
      reply := Answer(from, session, message, random);
      UntouchedAfterGetSession(old(sessions), created, sessions, from);
    }
  }
}
