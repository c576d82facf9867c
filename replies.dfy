/**
 * The reply texts of index.js.
 *
 * Every template is given with its `.trim()` already applied. A template
 * with an interpolated value is split into the text before the value (its
 * head) and the text after it (its tail); the `*Trimmed` lemmas prove that
 * trimming the raw template, layout whitespace included, gives exactly head,
 * value and tail, and the lemmas at the end say that the value appears in the
 * reply verbatim. Where a head starts with an emoji, the emoji is written as
 * a literal of its own in front of the rest; the text is the same.
 */
module Replies {
  import opened Text

  /**
   * The replies `procesarMensaje` can give, one constructor per reply kind,
   * carrying the values interpolated into it or the code that selects its
   * text. `Render` gives the text.
   */
  datatype Reply =
    | MenuPrincipal
    | MensajeDespedida
    | Cancelled
    | InvalidMenuOption
    | DiagIntro
    | LimpiezaIntro
    | HardwareIntro
    | SoporteIntro
    | TicketIntro
    | InvalidOs
    | OsPrompt(so: string)
    | InvalidSymptom
    | Recommendation(code: string, so: string)
    | InvalidLimpieza
    | LimpiezaGuide(code: string)
    | InvalidHardware
    | HardwareGuide(code: string)
    | InvalidEmail
    | EmailConfirmation(email: string)
    | TicketStatus(id: string, estado: string)

  /** The exact text of a reply. */
  function Render(r: Reply): string {
    match r
    case MenuPrincipal => MenuPrincipalText()
    case MensajeDespedida => MensajeDespedidaText()
    case Cancelled => CancelledText()
    case InvalidMenuOption => InvalidMenuOptionText()
    case DiagIntro => DiagIntroText()
    case LimpiezaIntro => LimpiezaIntroText()
    case HardwareIntro => HardwareIntroText()
    case SoporteIntro => SoporteIntroText()
    case TicketIntro => TicketIntroText()
    case InvalidOs => InvalidOsText()
    case OsPrompt(so) => OsPromptText(so)
    case InvalidSymptom => InvalidSymptomText()
    case Recommendation(code, so) => RecommendationText(code, so) + DiagClosing()
    case InvalidLimpieza => InvalidLimpiezaText()
    case LimpiezaGuide(code) => LimpiezaGuideText(code) + BackToMenuHint()
    case InvalidHardware => InvalidHardwareText()
    case HardwareGuide(code) => HardwareGuideText(code) + BackToMenuHint()
    case InvalidEmail => InvalidEmailText()
    case EmailConfirmation(email) => EmailConfirmationText(email)
    case TicketStatus(id, estado) => TicketStatusText(id, estado)
  }

  /** The main menu, `menuPrincipal` (index.js:22-34) */
  function MenuPrincipalText(): string {
    "👨‍💻 *Bienvenido al Soporte de " +
    "Mantenimiento de Computadoras*\n" +
    "\n" +
    "Por favor elige una opción:\n" +
    "1️⃣ Diagnóstico rápido\n" +
    "2️⃣ Limpieza y optimización\n" +
    "3️⃣ Problemas de hardware\n" +
    "4️⃣ Soporte remoto\n" +
    "5️⃣ Estado de mi ticket\n" +
    "0️⃣ Hablar con un humano\n" +
    "\n" +
    "Escribe el número de la opción:"
  }

  /** The hand-off to a human specialist, `mensajeDespedida` (index.js:36-41) */
  function MensajeDespedidaText(): string {
    "✅ Listo, te hemos puesto en " +
    "contacto con un especialista " +
    "humano.\n" +
    "En breve se comunicarán contigo.  \n" +
    "\n" +
    "Mientras tanto, si necesitas " +
    "regresar al menú, escribe *menu*."
  }

  /** The reply to a cancel command (index.js:80) */
  function CancelledText(): string {
    "🔚 Proceso cancelado. Escribe *menu* " +
    "para ver las opciones nuevamente."
  }

  /** The main menu under an "invalid option" line (index.js:116, 183) */
  function InvalidMenuLead(): string {
    "❌ Opción no válida.\n" +
    "\n"
  }

  function InvalidMenuOptionText(): string {
    InvalidMenuLead() + MenuPrincipalText()
  }

  /** Option 1: asks for the operating system (index.js:122-131) */
  function DiagIntroText(): string {
    "🩺 *Diagnóstico rápido*\n" +
    "\n" +
    "¿Qué sistema operativo usas?\n" +
    "1️⃣ Windows\n" +
    "2️⃣ macOS\n" +
    "3️⃣ Linux\n" +
    "\n" +
    "Escribe el número de la opción:"
  }

  /** Option 2: asks for the kind of cleanup (index.js:135-144) */
  function LimpiezaIntroText(): string {
    "🧹 *Limpieza y optimización*\n" +
    "\n" +
    "¿Qué tipo de limpieza deseas?\n" +
    "1️⃣ Limpieza de archivos " +
    "temporales\n" +
    "2️⃣ Optimización de inicio\n" +
    "3️⃣ Limpieza completa recomendada\n" +
    "\n" +
    "Escribe el número de la opción:"
  }

  /** Option 3: asks for the hardware problem (index.js:148-158) */
  function HardwareIntroText(): string {
    "🔩 *Problemas de hardware*\n" +
    "\n" +
    "¿Qué problema tienes?\n" +
    "1️⃣ La computadora no enciende\n" +
    "2️⃣ La computadora se apaga sola\n" +
    "3️⃣ Ruidos extraños (ventilador, " +
    "disco, etc.)\n" +
    "4️⃣ Otros\n" +
    "\n" +
    "Escribe el número de la opción:"
  }

  /** Option 4: asks for an e-mail address (index.js:162-168) */
  function SoporteIntroText(): string {
    "🌐 *Soporte remoto*\n" +
    "\n" +
    "Perfecto, podemos conectarnos a tu " +
    "computadora de forma segura.\n" +
    "\n" +
    "Por favor, escribe tu correo " +
    "electrónico para enviarte el enlace " +
    "de la sesión remota:"
  }

  /** Option 5: asks for a ticket id (index.js:172-176) */
  function TicketIntroText(): string {
    "📋 *Estado de mi ticket*\n" +
    "\n" +
    "Por favor, escribe el *ID de tu " +
    "ticket* (ejemplo: TCK-1234):"
  }

  /** Invalid operating-system choice (index.js:191) */
  function InvalidOsText(): string {
    "❌ Opción no válida. Escribe 1, 2 o " +
    "3 para elegir tu sistema operativo."
  }

  /** Text of the symptom question around the chosen system (index.js:198-208) */
  function OsPromptHead(): string {
    "Perfecto, usas *"
  }

  function OsPromptTail(): string {
    "*.\n" +
    "\n" +
    "¿Qué problema describes mejor tu " +
    "situación?\n" +
    "1️⃣ Lento en general\n" +
    "2️⃣ Tarda en iniciar\n" +
    "3️⃣ Aplicaciones se cierran solas\n" +
    "4️⃣ Pantallazos azules / errores " +
    "críticos\n" +
    "\n" +
    "Escribe el número de la opción:"
  }

  /** Invalid symptom choice (index.js:213) */
  function InvalidSymptomText(): string {
    "❌ Opción no válida. Escribe 1, 2, 3 " +
    "o 4."
  }

  /** Text of recommendation 1 around the system name (index.js:221-229) */
  function Recommendation1Head(): string {
    "🔍" +
    " Recomendación para lentitud en *"
  }

  function Recommendation1Tail(): string {
    "*:\n" +
    "- Revisa programas que se ejecutan " +
    "al inicio.\n" +
    "- Desinstala software que no uses.\n" +
    "- Ejecuta un análisis de virus.\n" +
    "- Considera agregar más RAM si es " +
    "posible.\n" +
    "\n" +
    "Si quieres una guía paso a paso " +
    "personalizada, escribe: *menu* y " +
    "luego elige opción 2 (Limpieza y " +
    "optimización)."
  }

  /** Text of recommendation 2 around the system name (index.js:232-239) */
  function Recommendation2Head(): string {
    "⏱️" +
    " Recomendación para inicio lento en " +
    "*"
  }

  function Recommendation2Tail(): string {
    "*:\n" +
    "- Desactiva programas de inicio " +
    "innecesarios.\n" +
    "- Verifica actualizaciones " +
    "pendientes.\n" +
    "- Revisa el estado del disco " +
    "(HDD/SSD).\n" +
    "\n" +
    "Para obtener pasos detallados, " +
    "escribe *menu* y selecciona la " +
    "opción 2."
  }

  /** Text of recommendation 3 around the system name (index.js:242-250) */
  function Recommendation3Head(): string {
    "💥" +
    " Recomendación para aplicaciones " +
    "que se cierran solas en *"
  }

  function Recommendation3Tail(): string {
    "*:\n" +
    "- Actualiza el sistema operativo.\n" +
    "- Actualiza las aplicaciones " +
    "afectadas.\n" +
    "- Revisa si hay problemas de " +
    "memoria (RAM) o espacio en disco.\n" +
    "- Ejecuta un escaneo de malware.\n" +
    "\n" +
    "Si el problema persiste, te " +
    "recomendamos soporte remoto (opción " +
    "4 del menú)."
  }

  /** Text of recommendation 4 around the system name (index.js:253-261) */
  function Recommendation4Head(): string {
    "🧯" +
    " Pantallazos azules / errores " +
    "críticos en *"
  }

  function Recommendation4Tail(): string {
    "*:\n" +
    "- Podría ser un problema de " +
    "controladores o hardware.\n" +
    "- Actualiza drivers y revisa el " +
    "estado del hardware.\n" +
    "- Si instalaste algo recientemente, " +
    "intenta desinstalarlo.\n" +
    "- Haz un respaldo de tu información " +
    "lo antes posible.\n" +
    "\n" +
    "Te recomendamos fuertemente una " +
    "revisión de hardware (opción 3 del " +
    "menú)."
  }

  /** Appended to every recommendation (index.js:268) */
  function DiagClosing(): string {
    "\n" +
    "\n" +
    "Si deseas ver el menú principal, " +
    "escribe *menu*."
  }

  /** Invalid cleanup choice (index.js:275) */
  function InvalidLimpiezaText(): string {
    "❌ Opción no válida. Escribe 1, 2 o " +
    "3."
  }

  /** Cleanup guide 1 (index.js:282-291) */
  function LimpiezaGuide1(): string {
    "🧹 *Limpieza de archivos temporales " +
    "(guía genérica)*\n" +
    "\n" +
    "1. Abre el limpiador de disco o " +
    "herramienta similar en tu sistema.\n" +
    "2. Marca archivos temporales, " +
    "cachés y papelera.\n" +
    "3. Ejecuta la limpieza.\n" +
    "4. Reinicia la computadora.\n" +
    "\n" +
    "Realizar esto al menos 1 vez por " +
    "semana ayuda a mantener el " +
    "rendimiento."
  }

  /** Cleanup guide 2 (index.js:294-303) */
  function LimpiezaGuide2(): string {
    "🚀 *Optimización de inicio*\n" +
    "\n" +
    "1. Revisa la lista de programas que " +
    "inician con el sistema.\n" +
    "2. Desactiva los que no necesites " +
    "para uso diario.\n" +
    "3. Evita desactivar antivirus o " +
    "herramientas de seguridad.\n" +
    "4. Reinicia y mide el tiempo de " +
    "arranque.\n" +
    "\n" +
    "Hacer esto una vez al mes es una " +
    "buena práctica."
  }

  /** Cleanup guide 3 (index.js:306-318) */
  function LimpiezaGuide3(): string {
    "✨ *Limpieza completa recomendada*\n" +
    "\n" +
    "Combinaremos limpieza de archivos " +
    "temporales + optimización de inicio " +
    "+ verificación básica de disco.\n" +
    "\n" +
    "1. Limpia archivos temporales.\n" +
    "2. Optimiza programas de inicio.\n" +
    "3. Verifica el disco en busca de " +
    "errores.\n" +
    "4. Actualiza sistema y drivers " +
    "principales.\n" +
    "5. Reinicia tu equipo.\n" +
    "\n" +
    "Si quieres que hagamos esto por ti " +
    "con soporte remoto, elige la opción " +
    "4 en el *menu*."
  }

  /** Invalid hardware choice (index.js:331) */
  function InvalidHardwareText(): string {
    "❌ Opción no válida. Escribe 1, 2, 3 " +
    "o 4."
  }

  /** Hardware guide 1 (index.js:338-347) */
  function HardwareGuide1(): string {
    "🔌 *La computadora no enciende*\n" +
    "\n" +
    "- Verifica cables de corriente y " +
    "enchufe.\n" +
    "- Prueba otro tomacorriente y/o " +
    "cable.\n" +
    "- Si es laptop, quita batería (si " +
    "es extraíble), mantén presionado el " +
    "botón de encendido 20s y vuelve a " +
    "conectar.\n" +
    "- Si sigue igual, es probable un " +
    "problema de fuente de poder o " +
    "tarjeta madre.\n" +
    "\n" +
    "Te recomendamos agendar una " +
    "revisión física en taller."
  }

  /** Hardware guide 2 (index.js:350-359) */
  function HardwareGuide2(): string {
    "🔥 *La computadora se apaga sola*\n" +
    "\n" +
    "- Revisa ventilación (polvo en " +
    "ventiladores y rejillas).\n" +
    "- Asegúrate de que no esté sobre " +
    "superficies blandas.\n" +
    "- Posible sobrecalentamiento o " +
    "fallo de fuente.\n" +
    "- Usa un programa de monitoreo de " +
    "temperatura.\n" +
    "\n" +
    "Si los apagados son frecuentes, se " +
    "recomienda servicio de limpieza " +
    "interna y cambio de pasta térmica."
  }

  /** Hardware guide 3 (index.js:362-370) */
  function HardwareGuide3(): string {
    "🔊 *Ruidos extraños*\n" +
    "\n" +
    "- Podrían venir del ventilador: " +
    "revisa si hay polvo acumulado.\n" +
    "- Si es un ruido \"de clics\" en el " +
    "disco duro, haz respaldo " +
    "inmediato.\n" +
    "- Si es un zumbido constante, " +
    "revisa ventiladores y fuente.\n" +
    "\n" +
    "Te recomendamos traer el equipo a " +
    "revisión para evitar daños mayores."
  }

  /** Hardware guide 4 (index.js:373-382) */
  function HardwareGuide4(): string {
    "🛠️ *Otros problemas de hardware*\n" +
    "\n" +
    "Cada caso es particular. Te " +
    "sugerimos:\n" +
    "1. Escribir un resumen del " +
    "problema.\n" +
    "2. Adjuntar una foto o video si es " +
    "posible.\n" +
    "3. Considerar una cita en el " +
    "taller.\n" +
    "\n" +
    "Puedes escribir *menu* y elegir " +
    "opción 4 para soporte remoto y una " +
    "revisión guiada."
  }

  /** Appended to every cleanup and hardware guide (index.js:324, 388) */
  function BackToMenuHint(): string {
    "\n" +
    "\n" +
    "Escribe *menu* para regresar al " +
    "menú principal."
  }

  /** Rejected e-mail address (index.js:397) */
  function InvalidEmailText(): string {
    "❌ El formato de correo no parece " +
    "válido. Intenta de nuevo (ejemplo: " +
    "usuario@correo.com) o escribe " +
    "*cancelar* para volver."
  }

  /** Text of the remote-support confirmation around the address (index.js:404-411) */
  function EmailConfirmationHead(): string {
    "📨" +
    " ¡Gracias!\n" +
    "\n" +
    "Enviaremos un enlace de sesión " +
    "remota a: *"
  }

  function EmailConfirmationTail(): string {
    "*  \n" +
    "Revisa tu bandeja de entrada y/o " +
    "spam en los próximos minutos.\n" +
    "\n" +
    "Mientras tanto, si deseas regresar " +
    "al menú principal, escribe *menu*."
  }

  /** Text of the ticket status around the id and the status (index.js:430-436) */
  function TicketHead(): string {
    "📄" +
    " Estado del ticket *"
  }

  function TicketMiddle(): string {
    "*:\n" +
    "- Estado actual: *"
  }
  function TicketTail(): string {
    "*\n" +
    "- Última actualización: hace pocas " +
    "horas (simulado)\n" +
    "\n" +
    "Si necesitas más detalles, responde " +
    "con una breve descripción del " +
    "problema o escribe *menu* para " +
    "volver al inicio."
  }

  // ---------------------------------------------------------------------------
  // Templates with interpolated values. Each of these functions is the text
  // the template gives after `.trim()`; the `*Trimmed` lemmas below prove that
  // trimming the raw template, layout whitespace included, gives exactly it.

  /** The symptom question, naming the chosen system (index.js:198-208). */
  function OsPromptText(so: string): string {
    OsPromptHead() + so + OsPromptTail()
  }

  /** The text of `recomendacion` before the system, per symptom code (index.js:218-263). */
  function RecommendationHead(code: string): string {
    if code == "1" then Recommendation1Head()
    else if code == "2" then Recommendation2Head()
    else if code == "3" then Recommendation3Head()
    else Recommendation4Head()
  }

  /** The text of `recomendacion` after the system, per symptom code (index.js:218-263). */
  function RecommendationTail(code: string): string {
    if code == "1" then Recommendation1Tail()
    else if code == "2" then Recommendation2Tail()
    else if code == "3" then Recommendation3Tail()
    else Recommendation4Tail()
  }

  /** The codes `recomendacion` has advice for (index.js:218-263). */
  predicate IsSymptomCode(code: string) {
    code == "1" || code == "2" || code == "3" || code == "4"
  }

  /**
   * `recomendacion`: the advice for a symptom code, with the system between
   * head and tail; empty for any other code (index.js:218-263).
   */
  function RecommendationText(code: string, so: string): string {
    if IsSymptomCode(code) then
      RecommendationHead(code) + so + RecommendationTail(code)
    else ""
  }

  /** `respuesta` of the cleanup stage; empty for any other code (index.js:278-320). */
  function LimpiezaGuideText(code: string): string {
    if code == "1" then LimpiezaGuide1()
    else if code == "2" then LimpiezaGuide2()
    else if code == "3" then LimpiezaGuide3()
    else ""
  }

  /** `respuesta` of the hardware stage; empty for any other code (index.js:334-384). */
  function HardwareGuideText(code: string): string {
    if code == "1" then HardwareGuide1()
    else if code == "2" then HardwareGuide2()
    else if code == "3" then HardwareGuide3()
    else if code == "4" then HardwareGuide4()
    else ""
  }

  /** The remote-support confirmation, quoting the address (index.js:404-411). */
  function EmailConfirmationText(email: string): string {
    EmailConfirmationHead() + email + EmailConfirmationTail()
  }

  /** The ticket status reply, quoting the id and the status (index.js:430-436). */
  function TicketStatusText(id: string, estado: string): string {
    TicketHead() + (id + TicketMiddle() + estado) + TicketTail()
  }

  // ---------------------------------------------------------------------------
  // The `.trim()` of each template

  /**
   * A template whose visible text starts and ends with a non-whitespace
   * character loses exactly its layout whitespace to `.trim()`, and the
   * interpolated value survives verbatim.
   */
  lemma TemplateTrim(lead: string, head: string, x: string, tail: string, trail: string)
    requires AllSpace(lead) && AllSpace(trail)
    requires head != [] && !IsSpace(head[0])
    requires tail != [] && !IsSpace(tail[|tail| - 1])
    ensures Trim(lead + head + x + tail + trail) == head + x + tail
  {
    var core := head + x + tail;
    assert core[0] == head[0] && core[|core| - 1] == tail[|tail| - 1];
    assert lead + head + x + tail + trail == lead + core + trail;
    TrimSurrounded(lead, core, trail);
  }

  lemma OsPromptTrimmed(so: string)
    ensures Trim("\n" + OsPromptHead() + so + OsPromptTail() + "\n  ") == OsPromptText(so)
  {
    TemplateTrim("\n", OsPromptHead(), so, OsPromptTail(), "\n  ");
  }

  lemma Recommendation1Trimmed(so: string)
    ensures Trim("\n" + Recommendation1Head() + so + Recommendation1Tail() + "\n      ")
         == Recommendation1Head() + so + Recommendation1Tail()
  {
    TemplateTrim("\n", Recommendation1Head(), so, Recommendation1Tail(), "\n      ");
  }

  lemma Recommendation2Trimmed(so: string)
    ensures Trim("\n" + Recommendation2Head() + so + Recommendation2Tail() + "\n      ")
         == Recommendation2Head() + so + Recommendation2Tail()
  {
    TemplateTrim("\n", Recommendation2Head(), so, Recommendation2Tail(), "\n      ");
  }

  lemma Recommendation3Trimmed(so: string)
    ensures Trim("\n" + Recommendation3Head() + so + Recommendation3Tail() + "\n      ")
         == Recommendation3Head() + so + Recommendation3Tail()
  {
    TemplateTrim("\n", Recommendation3Head(), so, Recommendation3Tail(), "\n      ");
  }

  lemma Recommendation4Trimmed(so: string)
    ensures Trim("\n" + Recommendation4Head() + so + Recommendation4Tail() + "\n      ")
         == Recommendation4Head() + so + Recommendation4Tail()
  {
    TemplateTrim("\n", Recommendation4Head(), so, Recommendation4Tail(), "\n      ");
  }

  lemma EmailConfirmationTrimmed(email: string)
    ensures Trim("\n" + EmailConfirmationHead() + email + EmailConfirmationTail() + "\n  ") == EmailConfirmationText(email)
  {
    TemplateTrim("\n", EmailConfirmationHead(), email, EmailConfirmationTail(), "\n  ");
  }

  lemma TicketStatusTrimmed(id: string, estado: string)
    ensures Trim("\n" + TicketHead() + (id + TicketMiddle() + estado) + TicketTail() + "\n  ")
         == TicketStatusText(id, estado)
  {
    TemplateTrim("\n", TicketHead(), id + TicketMiddle() + estado, TicketTail(), "\n  ");
  }

  // ---------------------------------------------------------------------------
  // What the rendered replies say

  /** The reply to an invalid main-menu option ends with the whole menu. */
  lemma InvalidMenuOptionShowsMenu()
    ensures Contains(Render(InvalidMenuOption), Render(MenuPrincipal))
  {
    ContainsSuffix(InvalidMenuLead(), MenuPrincipalText());
  }

  /** The symptom question names the chosen system. */
  lemma OsPromptNamesSystem(so: string)
    ensures Contains(Render(OsPrompt(so)), so)
  {
    ContainsMiddle(OsPromptHead(), so, OsPromptTail());
  }

  /** The advice for every symptom names the system it was given (index.js:216-268). */
  lemma RecommendationNamesSystem(code: string, so: string)
    requires IsSymptomCode(code)
    ensures Contains(Render(Recommendation(code, so)), so)
  {
    ContainsMiddle(RecommendationHead(code), so, RecommendationTail(code));
    ContainsPrefix(RecommendationText(code, so), so, DiagClosing());
  }

  /** The confirmation quotes the address verbatim. */
  lemma ConfirmationQuotesAddress(email: string)
    ensures Contains(Render(EmailConfirmation(email)), email)
  {
    ContainsMiddle(EmailConfirmationHead(), email, EmailConfirmationTail());
  }

  /** The ticket reply quotes both the id and the status. */
  lemma TicketStatusQuotes(id: string, estado: string)
    ensures Contains(Render(TicketStatus(id, estado)), id)
    ensures Contains(Render(TicketStatus(id, estado)), estado)
  {
    ContainsBoth(TicketHead(), id, TicketMiddle(), estado, TicketTail());
  }

  lemma ContainsBoth(a: string, x: string, b: string, y: string, c: string)
    ensures Contains(a + (x + b + y) + c, x) && Contains(a + (x + b + y) + c, y)
  {
    assert a + (x + b + y) + c == a + x + (b + y + c);
    ContainsMiddle(a, x, b + y + c);
    assert a + (x + b + y) + c == (a + x + b) + y + c;
    ContainsMiddle(a + x + b, y, c);
  }
}
