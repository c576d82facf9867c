# WhatsApp PC-maintenance bot: the dialogue state machine

This project models the core of `index.js`, a WhatsApp bot for computer
maintenance. The part modelled is the per-sender dialogue state machine:

- the in-memory `sessions` store, with `getSession` and `resetSession`;
- `procesarMensaje`, which trims and lower-cases the message, handles the
  global commands (`menu`/`menú`/`principal` and `salir`/`cancelar`/`cancel`),
  and otherwise dispatches on `session.stage`;
- the seven stage handlers: main menu, quick diagnosis (system, then symptom),
  cleanup, hardware, remote support (e-mail) and ticket status.

The modules:

- `Text`: ECMAScript `trim`, `toLowerCase` and `toUpperCase`, and a
  substring predicate.
- `Email`: the shape test `^[^\s@]+@[^\s@]+\.[^\s@]+$` of the remote-support
  stage. `IsEmail` is a decision procedure; it is proved equal to a direct
  reading of the regular expression.
- `Replies`: every reply text of the bot. `Reply` is a datatype with one
  constructor per reply kind. It carries the interpolated values (system name,
  e-mail address, ticket id and status) and, for the advice and the guides,
  the code that selects the text. `InvalidSymptom` and `InvalidHardware`
  render the same text, as index.js:213 and 331 do. `Render` gives the exact
  text. Every
  template is written already trimmed. For the seven templates with an
  interpolated value, lemmas prove that trimming the raw template gives that
  text, and that the interpolated values appear in it verbatim. The templates
  without one are copied as they read after `.trim()`, and no lemma is stated
  about them.
- `Dialogue`: the state machine as functions on values.
  - A session is `SessionState(stage, temp)`.
  - `Stage` has one constructor per stage name, plus `Unknown` for any other
    value, which is the `default:` branch.
  - One `...Step` function per handler gives an `Outcome`: the reply, the new
    session, and the key of an extra entry to reset, if any.
  - `Respond` is `procesarMensaje` after normalisation; `Process` includes it.
- `DialogueProperties`: lemmas about `Respond` and `Process`. See the table
  below.
- `Bot`: the imperative model, following the source's form.
  - `Session` is a class whose `stage` and `temp` fields the handlers assign
    in place.
  - `Bot` holds `sessions: map<string, Session>`. `GetSession` and
    `ResetSession` change that map.
  - Each handler method is proved to do exactly what its `Dialogue` step
    function describes.
  - `Bot.ProcesarMensaje` is proved to produce the reply and the store that
    `Dialogue.Process` gives, read back through `View()`. So every lemma of
    `DialogueProperties` holds of the object model.

Behaviour kept as the code has it:

- **Option `0` resets the wrong entry.** It resets the hard-coded key `dummy`
  (index.js:179), not the sender's own session. The sender stays at the main
  menu, and another customer whose id is `dummy` loses their place
  (`HandOffResetsDummy`, `HandOffWipesOtherDummy`).
- **Three ticket statuses.** The ticket status is drawn from three values by
  the thresholds 0.33 and 0.66. The initial `EN REVISIÓN TÉCNICA` is always
  overwritten, so it is never shown (`Dialogue.EstadoSimulado`).
- **Empty ticket id accepted.** The ticket stage accepts any text that is not
  a global command, the empty text included, and quotes it as the id
  (`EmptyTicketId`).
- **Line endings.** `index.js` is stored with CRLF line endings. A template
  literal turns each CRLF into LF, so the reply texts are modelled with `\n`.

## Model

| member | source | states |
|---|---|---|
| Text.IsSpace | index.js:70 | no contract: the ECMAScript WhiteSpace and LineTerminator characters, what `trim` removes and `\s` matches (also index.js:394) |
| Text.Trim | index.js:70 | the result has no whitespace at either end, is no longer than the input, and is empty exactly when the input is all whitespace (ECMAScript set) |
| Text.TrimSurrounded | index.js:70 | `trim` removes exactly the surrounding whitespace: a trimmed non-empty text with any whitespace around it trims back to itself |
| Text.TrimOfTrimmed | index.js:421 | trimming an already trimmed text changes nothing |
| Text.LowerChar | index.js:70 | lower-casing a character never turns whitespace into non-whitespace or back |
| Text.ToLower | index.js:70 | `toLowerCase` maps the text character by character and keeps its length |
| Text.ToLowerIdempotent | index.js:70 | lower-casing twice is lower-casing once |
| Text.ToLowerKeepsTrimmed | index.js:70 | lower-casing keeps a trimmed text trimmed |
| Text.UpperOf | index.js:421 | the upper case of a character is non-empty and is whitespace exactly when the character is |
| Text.ToUpper | index.js:421 | `toUpperCase` is empty exactly for the empty text and never shortens it |
| Text.ToUpperKeepsTrimmed | index.js:421 | upper-casing keeps a trimmed text trimmed, so the `.trim()` after `toUpperCase()` changes nothing on a normalised message |
| Email.IsEmail | index.js:394-396 | no contract: the decision procedure for `^[^\s@]+@[^\s@]+\.[^\s@]+$`, split at the first `@`; see `IsEmailIffPattern` |
| Email.IsEmailIffPattern | index.js:394-396 | the decision procedure accepts a text if and only if it matches `^[^\s@]+@[^\s@]+\.[^\s@]+$` |
| Email.EmailMatches | index.js:394-396 | an accepted text matches the expression at its first `@` |
| Email.MatchIsEmail | index.js:394-396 | every match of the expression is accepted |
| Email.JoinedIsEmail | index.js:394-396 | a non-empty local part and a domain with an inner `.`, neither holding whitespace or `@`, joined by `@`, are accepted |
| Email.EmailShape | index.js:394-396 | an accepted address has no whitespace and exactly one `@` |
| Email.AcceptedExample | index.js:394-396 | `user@example.com` is accepted |
| Email.RejectedExample | index.js:394-396 | `not-an-email` (no `@`) is rejected |
| Replies.Render | index.js:22-436 | no contract: the exact text of each reply, the templates after `.trim()`; its properties are stated by the `*Trimmed` lemmas, `InvalidMenuOptionShowsMenu`, `OsPromptNamesSystem`, `RecommendationNamesSystem`, `ConfirmationQuotesAddress` and `TicketStatusQuotes` |
| Replies.MenuPrincipalText | index.js:22-34 | no contract: `menuPrincipal` after `.trim()`; embedded whole in the invalid-option reply (`InvalidMenuOptionShowsMenu`) |
| Replies.MensajeDespedidaText | index.js:36-41 | no contract: `mensajeDespedida` after `.trim()` |
| Replies.CancelledText | index.js:80 | no contract: the reply to a cancel command |
| Replies.InvalidMenuLead | index.js:116 | no contract: the "invalid option" line and blank line put in front of the menu |
| Replies.InvalidMenuOptionText | index.js:116 | no contract: the lead followed by the main menu; see `InvalidMenuOptionShowsMenu` |
| Replies.DiagIntroText | index.js:122-131 | no contract: the operating-system question after `.trim()` |
| Replies.LimpiezaIntroText | index.js:135-144 | no contract: the cleanup question after `.trim()` |
| Replies.HardwareIntroText | index.js:148-158 | no contract: the hardware question after `.trim()` |
| Replies.SoporteIntroText | index.js:162-168 | no contract: the request for an address after `.trim()` |
| Replies.TicketIntroText | index.js:172-176 | no contract: the request for a ticket id after `.trim()` |
| Replies.InvalidOsText | index.js:191 | no contract: the refusal of an operating-system choice |
| Replies.OsPromptHead | index.js:198-199 | no contract: the symptom question before the system; see `OsPromptTrimmed` |
| Replies.OsPromptTail | index.js:199-208 | no contract: the symptom question after the system; see `OsPromptTrimmed` |
| Replies.OsPromptText | index.js:198-208 | no contract: head, system, tail; see `OsPromptNamesSystem` |
| Replies.InvalidSymptomText | index.js:213 | no contract: the refusal of a symptom choice |
| Replies.Recommendation1Head | index.js:221-222 | no contract: advice 1 before the system; see `Recommendation1Trimmed` |
| Replies.Recommendation1Tail | index.js:222-229 | no contract: advice 1 after the system |
| Replies.Recommendation2Head | index.js:232-233 | no contract: advice 2 before the system; see `Recommendation2Trimmed` |
| Replies.Recommendation2Tail | index.js:233-239 | no contract: advice 2 after the system |
| Replies.Recommendation3Head | index.js:242-243 | no contract: advice 3 before the system; see `Recommendation3Trimmed` |
| Replies.Recommendation3Tail | index.js:243-250 | no contract: advice 3 after the system |
| Replies.Recommendation4Head | index.js:253-254 | no contract: advice 4 before the system; see `Recommendation4Trimmed` |
| Replies.Recommendation4Tail | index.js:254-261 | no contract: advice 4 after the system |
| Replies.RecommendationHead | index.js:218-263 | no contract: the head of the advice for a symptom code |
| Replies.RecommendationTail | index.js:218-263 | no contract: the tail of the advice for a symptom code |
| Replies.IsSymptomCode | index.js:218-263 | no contract: the codes the `switch` has advice for; equal to the accepted options by `SymptomsHaveAdvice` |
| Replies.RecommendationText | index.js:218-263 | no contract: `recomendacion`, head, system and tail for a symptom code and empty otherwise; see `RecommendationNamesSystem` |
| Replies.DiagClosing | index.js:268 | no contract: the line appended to every advice |
| Replies.InvalidLimpiezaText | index.js:275 | no contract: the refusal of a cleanup choice |
| Replies.LimpiezaGuide1 | index.js:282-291 | no contract: cleanup guide 1 after `.trim()` |
| Replies.LimpiezaGuide2 | index.js:294-303 | no contract: cleanup guide 2 after `.trim()` |
| Replies.LimpiezaGuide3 | index.js:306-318 | no contract: cleanup guide 3 after `.trim()` |
| Replies.LimpiezaGuideText | index.js:278-320 | no contract: `respuesta` of the cleanup stage, empty for any other code |
| Replies.InvalidHardwareText | index.js:331 | no contract: the refusal of a hardware choice |
| Replies.HardwareGuide1 | index.js:338-347 | no contract: hardware guide 1 after `.trim()` |
| Replies.HardwareGuide2 | index.js:350-359 | no contract: hardware guide 2 after `.trim()` |
| Replies.HardwareGuide3 | index.js:362-370 | no contract: hardware guide 3 after `.trim()` |
| Replies.HardwareGuide4 | index.js:373-382 | no contract: hardware guide 4 after `.trim()` |
| Replies.HardwareGuideText | index.js:334-384 | no contract: `respuesta` of the hardware stage, empty for any other code |
| Replies.BackToMenuHint | index.js:324 | no contract: the line appended to every cleanup and hardware guide (also index.js:388) |
| Replies.InvalidEmailText | index.js:397 | no contract: the refusal of an address |
| Replies.EmailConfirmationHead | index.js:404-407 | no contract: the confirmation before the address; see `EmailConfirmationTrimmed` |
| Replies.EmailConfirmationTail | index.js:407-411 | no contract: the confirmation after the address |
| Replies.EmailConfirmationText | index.js:404-411 | no contract: head, address, tail; see `ConfirmationQuotesAddress` |
| Replies.TicketHead | index.js:430-431 | no contract: the ticket reply before the id; see `TicketStatusTrimmed` |
| Replies.TicketMiddle | index.js:431-432 | no contract: the ticket reply between the id and the status |
| Replies.TicketTail | index.js:432-436 | no contract: the ticket reply after the status |
| Replies.TicketStatusText | index.js:430-436 | no contract: head, id, middle, status, tail; see `TicketStatusQuotes` |
| Replies.TemplateTrim | index.js:198-208 | `.trim()` of a template removes only its layout whitespace and keeps the interpolated value verbatim |
| Replies.OsPromptTrimmed | index.js:198-208 | trimming the raw symptom-question template gives exactly the modelled text |
| Replies.Recommendation1Trimmed | index.js:220-229 | trimming the raw template for symptom 1 gives exactly its head, the system and its tail |
| Replies.Recommendation2Trimmed | index.js:231-239 | the same for symptom 2 |
| Replies.Recommendation3Trimmed | index.js:241-250 | the same for symptom 3 |
| Replies.Recommendation4Trimmed | index.js:252-261 | the same for symptom 4 |
| Replies.EmailConfirmationTrimmed | index.js:404-411 | trimming the raw confirmation template gives exactly the modelled text |
| Replies.TicketStatusTrimmed | index.js:430-436 | trimming the raw ticket template gives exactly the modelled text |
| Replies.RecommendationNamesSystem | index.js:216-268 | for each of the four symptom codes, the advice sent, closing line included, contains the system it was given |
| Replies.InvalidMenuOptionShowsMenu | index.js:116 | the reply to an invalid menu option contains the whole main menu |
| Replies.OsPromptNamesSystem | index.js:198-199 | the symptom question names the chosen system |
| Replies.ConfirmationQuotesAddress | index.js:404-407 | the remote-support confirmation quotes the address verbatim |
| Replies.TicketStatusQuotes | index.js:430-432 | the ticket reply quotes both the id and the status |
| Dialogue.MenuPrincipalStep | index.js:114-185 | no contract: `manejarMenuPrincipal`; stated by `MenuOptionOpensFlow`, `HandOffResetsDummy`, `InvalidInputIsNoOp` and `InvalidReplyIffRejected` |
| Dialogue.DiagRapidoSOStep | index.js:189-209 | no contract: `manejarDiagRapidoSO`; stated by `SystemChoiceRecorded` and `InvalidInputIsNoOp` |
| Dialogue.SystemName | index.js:216 | no contract: `session.temp.so`, or `'tu sistema'` when that value is absent or empty; see `SymptomChoiceEndsFlow` and `FallbackUnused` |
| Dialogue.DiagRapidoSintomaStep | index.js:211-269 | no contract: `manejarDiagRapidoSintoma`; stated by `SymptomChoiceEndsFlow`, `DiagnosisRoundTrip` and `InvalidInputIsNoOp` |
| Dialogue.LimpiezaTipoStep | index.js:273-325 | no contract: `manejarLimpiezaTipo`; stated by `CleanupChoiceEndsFlow` and `InvalidInputIsNoOp` |
| Dialogue.HardwareTipoStep | index.js:329-389 | no contract: `manejarHardwareTipo`; stated by `HardwareChoiceEndsFlow` and `InvalidInputIsNoOp` |
| Dialogue.SoporteRemotoCorreoStep | index.js:393-416 | no contract: `manejarSoporteRemotoCorreo`; stated by `AddressAccepted`, `AddressRetry` and `InvalidInputIsNoOp` |
| Dialogue.TicketEstadoIdStep | index.js:420-441 | no contract: `manejarTicketEstadoId`; stated by `TicketStep`, `TicketAnswered` and `EmptyTicketId` |
| Dialogue.Respond | index.js:68-109 | no contract: `procesarMensaje` after normalisation; stated by the lemmas of `DialogueProperties` |
| Dialogue.Process | index.js:68-110 | no contract: `procesarMensaje`, normalising the body once and then `Respond`; see `ShoutedMenuCommand` and `Bot.Bot.ProcesarMensaje` |
| Dialogue.GetSession | index.js:49-57 | the sender's entry is created as the fresh record only when absent; an existing entry and every other entry are unchanged; the keys grow by the sender alone |
| Dialogue.Normalize | index.js:70 | the normalised message has no surrounding whitespace and is no longer than the body |
| Dialogue.EstadoSimulado | index.js:424-428 | the simulated status is always `ABIERTO`, `EN ESPERA DE REPUESTOS` or `CERRADO`, never the initial `EN REVISIÓN TÉCNICA` |
| Dialogue.Dispatch | index.js:84-109 | the only entry besides the sender's that a handler can reset is the one under `dummy` |
| Dialogue.Apply | index.js:84-109 | writing back an outcome adds at most the sender and the reset key, and leaves every other entry as it was |
| Dialogue.RespondAfterGetSession | index.js:49-57 | processing is unaffected by a prior `getSession` of the same sender |
| DialogueProperties.SessionOf | index.js:69 | the session a message is handled with is the stored one, or the fresh record for a new sender |
| DialogueProperties.RespondIsolation | index.js:49-64 | after any message the sender has an entry, no entry is removed, only the sender and `dummy` can be added, and every other entry is unchanged |
| DialogueProperties.AbsentIsFresh | index.js:49-57 | a sender with no entry is handled exactly like one holding the fresh record |
| DialogueProperties.NormalizeIdempotent | index.js:70 | normalising twice is normalising once |
| DialogueProperties.MenuCommandResets | index.js:73-76 | `menu`, `menú` and `principal` reset the sender's session and show the main menu, whatever the stage and `temp` |
| DialogueProperties.CancelCommandResets | index.js:78-81 | `salir`, `cancelar` and `cancel` reset the sender's session and confirm the cancellation, whatever the stage |
| DialogueProperties.GlobalCommandVariants | index.js:70-81 | a global command is recognised in any letter case and with any whitespace around it |
| DialogueProperties.CommandsAreTrimmed | index.js:73-78 | every global command is non-empty and has no surrounding whitespace |
| DialogueProperties.UpperCaseMenuCommand | index.js:70-73 | `"  MENÚ\n"` normalises to `menú` |
| DialogueProperties.ShoutedMenuCommand | index.js:68-76 | `"  MENÚ\n"` brings back the main menu and resets the session from any state |
| DialogueProperties.UnknownStageResets | index.js:106-108 | a stage outside the seven names is reset and answered with the main menu |
| DialogueProperties.InvalidInputIsNoOp | index.js:115-117 | input a stage refuses leaves every session as it was and gets that stage's "not valid" text; this covers the menu, the system, symptom, cleanup and hardware choices, and a text that is not an address (also index.js:190-192, 212-214, 274-276, 330-332, 396-398) |
| DialogueProperties.InvalidInputRepeats | index.js:115-117 | sending refused input again gives the same reply and the same store |
| DialogueProperties.InvalidReplyIffRejected | index.js:115-117 | at a numbered-choice stage, the "not valid" reply comes if and only if the option is not one the stage offers |
| DialogueProperties.MenuOptionOpensFlow | index.js:119-176 | options `1`-`5` move to the diagnosis, cleanup, hardware, remote-support and ticket stages, ask that flow's first question, and keep `temp` |
| DialogueProperties.HandOffResetsDummy | index.js:178-180 | option `0` gives the hand-off text, resets the entry under `dummy`, and leaves the sender's own session at the main menu |
| DialogueProperties.HandOffWipesOtherDummy | index.js:178-180 | when another customer's id is `dummy`, that customer's flow is wiped by anyone's option `0` |
| DialogueProperties.SystemChoiceRecorded | index.js:189-209 | systems `1`/`2`/`3` record Windows/macOS/Linux in `temp.so`, move to the symptom question, and name the system in it |
| DialogueProperties.SymptomChoiceEndsFlow | index.js:211-269 | a valid symptom gives its advice, naming `temp.so` or `tu sistema` when none is recorded, and ends the flow at the main menu with an empty `temp` |
| DialogueProperties.SymptomsHaveAdvice | index.js:212-263 | the symptom options the stage accepts are exactly the codes the `switch` has advice for, so every accepted symptom gets a non-empty advice naming the system (`Replies.RecommendationNamesSystem`) |
| DialogueProperties.SymptomReplyNamesSystem | index.js:216-268 | the advice sent at the symptom stage contains `temp.so`, or `tu sistema` when none is recorded |
| DialogueProperties.DiagnosisRoundTrip | index.js:189-269 | the system chosen in the first step is the one the advice of the second step names, and the flow ends |
| DialogueProperties.DiagnosisExample | index.js:119-269 | `1`, `2`, `1` from the main menu gives the diagnosis question, the macOS prompt, and the advice for slowness on macOS |
| DialogueProperties.CleanupChoiceEndsFlow | index.js:273-325 | a cleanup choice gives its guide and ends the flow at the main menu with an empty `temp` |
| DialogueProperties.HardwareChoiceEndsFlow | index.js:329-389 | a hardware choice gives its guide and ends the flow at the main menu with an empty `temp` |
| DialogueProperties.NotCommand | index.js:73-78 | a text not starting with `m`, `p`, `s` or `c` is no global command |
| DialogueProperties.CommandsHaveNoAt | index.js:73-78 | no global command contains `@` |
| DialogueProperties.CommandsAreNotAddresses | index.js:73-78 | no global command is an accepted address, so every address reaches the remote-support handler |
| DialogueProperties.AddressAccepted | index.js:393-416 | an address of the accepted shape is confirmed, quoted as normalised (trimmed and lower-cased, index.js:70, 400), and the flow ends at the main menu with an empty `temp` |
| DialogueProperties.AddressRetry | index.js:393-416 | a rejected address leaves the session waiting for one unchanged; a good address then ends the flow |
| DialogueProperties.TicketAnswered | index.js:420-441 | every non-command message at the ticket stage is taken as an id; the reply carries it upper-cased with one of the simulated statuses, and the flow ends |
| DialogueProperties.TicketStep | index.js:420-421 | on a trimmed message the ticket handler's id is exactly the upper-cased message |
| DialogueProperties.EmptyTicketId | index.js:420-441 | the ticket stage does not refuse an empty message |
| DialogueProperties.DispatchKeepsWellFormed | index.js:84-441 | each handler keeps a session well formed: a known stage, and `temp` holding exactly a listed system name at the symptom stage and empty otherwise |
| DialogueProperties.RespondKeepsWellFormed | index.js:68-109 | processing a message keeps every session in the store well formed |
| DialogueProperties.ApplyKeepsWellFormed | index.js:84-109 | writing back a well-formed session, and resetting `dummy`, keeps the store well formed |
| DialogueProperties.FallbackUnused | index.js:216 | in a reachable session the `tu sistema` fallback is never used |
| Bot.UntouchedAfterGetSession | index.js:49-57 | creating the sender's entry does not disturb any other sender's object |
| Bot.Session.constructor | index.js:51-54 | a new session object is at the main menu with an empty `temp` |
| Bot.Bot.constructor | index.js:18 | the store starts empty |
| Bot.Bot.GetSession | index.js:49-57 | returns the sender's object, creating a fresh one only when there is none; changes the store exactly as `Dialogue.GetSession` |
| Bot.Bot.ResetSession | index.js:59-64 | a new fresh object replaces the one under the key; the objects under other keys stay |
| Bot.Bot.HandleMenuPrincipal | index.js:114-185 | sets the stage (or, for `0`, resets `dummy`) and replies as `Dialogue.MenuPrincipalStep`; other options leave the store's map alone |
| Bot.Bot.HandleDiagRapidoSO | index.js:189-209 | writes `temp.so` and the stage in place, and replies, as `Dialogue.DiagRapidoSOStep` |
| Bot.Bot.HandleDiagRapidoSintoma | index.js:211-269 | replies and ends the flow in place as `Dialogue.DiagRapidoSintomaStep` |
| Bot.Bot.HandleLimpiezaTipo | index.js:273-325 | replies and ends the flow in place as `Dialogue.LimpiezaTipoStep` |
| Bot.Bot.HandleHardwareTipo | index.js:329-389 | replies and ends the flow in place as `Dialogue.HardwareTipoStep` |
| Bot.Bot.HandleSoporteRemotoCorreo | index.js:393-416 | writes `temp.email`, replies from it and ends the flow, as `Dialogue.SoporteRemotoCorreoStep` |
| Bot.Bot.HandleTicketEstadoId | index.js:420-441 | chooses the status from `random`, replies and ends the flow, as `Dialogue.TicketEstadoIdStep` |
| Bot.Bot.Route | index.js:84-109 | the stage switch changes the store as `Dialogue.Dispatch` and `Dialogue.Apply` describe, and touches no other sender's object |
| Bot.Bot.RouteMenu | index.js:85-86 | the main-menu case of the switch, as `Dialogue.MenuPrincipalStep` |
| Bot.Bot.RouteHandOff | index.js:178-180 | option `0` changes only the entry under `dummy` |
| Bot.Bot.RouteMenuOption | index.js:115-176 | any other text at the main menu changes only the sender's session |
| Bot.Bot.RouteStage | index.js:88-104 | the six other known stages change only the sender's session |
| Bot.Bot.HandleStage | index.js:88-104 | each of the six stages is answered by its handler, which resets no other entry |
| Bot.Bot.Answer | index.js:72-109 | the global commands and then the stage switch give exactly `Dialogue.Respond` |
| Bot.Bot.ProcesarMensaje | index.js:68-110 | the reply and the new store are exactly those of `Dialogue.Process`; every sender's object other than the sender's and `dummy`'s is untouched |

## Left out

- The HTTP side is not modelled: Express and body-parser setup, the
  `/whatsapp` and `/` routes, `app.listen`, the `From`/`Body` defaults, the
  Twilio signature validation and the TwiML wrapping (index.js:1-14, 43-47,
  443-479). It is transport plumbing and calls into libraries.
- `Math.random()` (index.js:425) is the parameter `random: real`. The model
  does not restrict it to `[0, 1)`, so it covers every value the call can
  return. Comparing a double with the doubles nearest to 0.33 and 0.66 gives
  the same answer as comparing it with the exact reals, so the thresholds are
  modelled exactly.
- Bot.Bot.ProcesarMensaje: returns the `Replies.Reply` value, not the string.
  `Replies.Render` gives the exact text the bot sends.
- Text.ToLower: maps only Basic Latin and Latin-1 Supplement capitals. Other
  scripts are left unchanged, unlike the full Unicode mapping of
  `toLowerCase`. The global commands use only Basic Latin letters and `ú`,
  and no capital outside the modelled ranges lower-cases to one of them.
- Text.ToUpper: covers Basic Latin and Latin-1 Supplement only (including `ß`
  to `SS`). Other scripts are left unchanged.
- Strings are sequences of Unicode code points, while JavaScript strings are
  UTF-16 code units. This changes nothing for `trim`, for the comparisons, or
  for the e-mail test on characters the bot can receive.
- Plain-object property lookup is modelled as a map lookup. Ids that name
  `Object.prototype` members (such as `constructor`) behave differently in
  JavaScript and are not modelled.
- The prose of the long reply texts is kept verbatim, but no property is
  stated about it beyond the interpolated values and the embedded main menu.
- Concurrency needs no model: Node.js runs each request handler to completion
  on one thread.
