/**
 * Wire-level vocabulary of the code runner client (frontend/src/types/index.ts):
 * the seven message kinds and four languages with their wire strings, the
 * message record and its constructors, the limits and the code templates.
 *
 * Strings that JavaScript measures and indexes (`length`, `charCodeAt`,
 * `substring`) are modelled as sequences of UTF-16 code units; wire names and
 * templates, which are only compared or shown, stay Dafny strings.
 */
module Types {

  /** One UTF-16 code unit. */
  type CodeUnit = c: int | 0 <= c < 0x1_0000

  /** A JavaScript string as its UTF-16 code units. */
  type Text = seq<CodeUnit>

  /** An optional property: `None` is an absent (undefined) field. */
  datatype Option<+T> = None | Some(value: T) {
    function GetOr(default: T): T {
      match this
      case Some(v) => v
      case None => default
    }
  }

  /** RunnerMessageType. */
  datatype MessageType = Code | Input | Stdout | Stderr | CompileErr | Exit | Echo

  /** The enum's string value, which is what travels in the `type` field. */
  function TypeName(k: MessageType): string {
    match k
    case Code => "code"
    case Input => "input"
    case Stdout => "stdout"
    case Stderr => "stderr"
    case CompileErr => "compile_err"
    case Exit => "exit"
    case Echo => "echo"
  }

  /** The kind a received `type` string denotes, as the `switch` in the message
      handler decides it by strict equality; `None` for any other string. */
  function ParseType(s: string): (r: Option<MessageType>)
    ensures r.Some? ==> TypeName(r.value) == s
  {
    if s == "code" then Some(Code)
    else if s == "input" then Some(Input)
    else if s == "stdout" then Some(Stdout)
    else if s == "stderr" then Some(Stderr)
    else if s == "compile_err" then Some(CompileErr)
    else if s == "exit" then Some(Exit)
    else if s == "echo" then Some(Echo)
    else None
  }

  /** Every kind is recognised from its own wire string. */
  lemma ParseTypeName(k: MessageType)
    ensures ParseType(TypeName(k)) == Some(k)
  {
  }

  /** No two kinds share a wire string. */
  lemma TypeNameInjective(a: MessageType, b: MessageType)
    ensures TypeName(a) == TypeName(b) <==> a == b
  {
    ParseTypeName(a);
    ParseTypeName(b);
  }

  /** Language. */
  datatype Language = Python | Java | Cpp | JavaScript

  function LanguageName(l: Language): string {
    match l
    case Python => "Python"
    case Java => "Java"
    case Cpp => "C++"
    case JavaScript => "JavaScript"
  }

  function ParseLanguage(s: string): (r: Option<Language>)
    ensures r.Some? ==> LanguageName(r.value) == s
  {
    if s == "Python" then Some(Python)
    else if s == "Java" then Some(Java)
    else if s == "C++" then Some(Cpp)
    else if s == "JavaScript" then Some(JavaScript)
    else None
  }

  lemma ParseLanguageName(l: Language)
    ensures ParseLanguage(LanguageName(l)) == Some(l)
  {
  }

  /** No two languages share a wire string ("Java" is a prefix of "JavaScript", not equal to it). */
  lemma LanguageNameInjective(a: Language, b: Language)
    ensures LanguageName(a) == LanguageName(b) <==> a == b
  {
    ParseLanguageName(a);
    ParseLanguageName(b);
  }

  /** RunnerMessage: a kind and five optional fields (`return_code` is `returnCode`). */
  datatype RunnerMessage = RunnerMessage(
    kind: MessageType,
    language: Option<Language>,
    source: Option<Text>,
    data: Option<Text>,
    stderr: Option<Text>,
    returnCode: Option<int>)

  /** Partial<RunnerMessage>: the kind may be absent as well. */
  datatype PartialMessage = PartialMessage(
    kind: Option<MessageType>,
    language: Option<Language>,
    source: Option<Text>,
    data: Option<Text>,
    stderr: Option<Text>,
    returnCode: Option<int>)

  /** The default argument `{}`. */
  const NoFields: PartialMessage := PartialMessage(None, None, None, None, None, None)

  /** createRunnerMessage: `{ type, ...data }`. The spread comes last, so a kind
      supplied in `d` replaces `t`; every other field is copied from `d`. */
  function CreateRunnerMessage(t: MessageType, d: PartialMessage): (m: RunnerMessage)
    ensures d.kind.None? ==> m.kind == t
    ensures d.kind.Some? ==> m.kind == d.kind.value
    ensures m.language == d.language && m.source == d.source && m.data == d.data
    ensures m.stderr == d.stderr && m.returnCode == d.returnCode
  {
    RunnerMessage(d.kind.GetOr(t), d.language, d.source, d.data, d.stderr, d.returnCode)
  }

  /** createCompileMessage: a `code` message carrying exactly the language and the source. */
  function CreateCompileMessage(source: Text, language: Language): (m: RunnerMessage)
    ensures m.kind == Code && m.language == Some(language) && m.source == Some(source)
    ensures m.data.None? && m.stderr.None? && m.returnCode.None?
  {
    CreateRunnerMessage(Code, NoFields.(language := Some(language), source := Some(source)))
  }

  /** createInputMessage: an `input` message carrying exactly `data`. */
  function CreateInputMessage(data: Text): (m: RunnerMessage)
    ensures m.kind == Input && m.data == Some(data)
    ensures m.language.None? && m.source.None? && m.stderr.None? && m.returnCode.None?
  {
    CreateRunnerMessage(Input, NoFields.(data := Some(data)))
  }

  /** createExitMessage: an `exit` message with no field besides its kind. */
  function CreateExitMessage(): (m: RunnerMessage)
    ensures m.kind == Exit
    ensures m.language.None? && m.source.None? && m.data.None? && m.stderr.None? && m.returnCode.None?
  {
    CreateRunnerMessage(Exit, NoFields)
  }

  /**
   * A message as a JSON object carries it: the `type` and `language` fields
   * as their strings. This is the value `JSON.stringify` writes and
   * `JSON.parse` gives back; the JSON text itself is not modelled.
   */
  datatype Frame = Frame(
    typeName: string,
    language: Option<string>,
    source: Option<Text>,
    data: Option<Text>,
    stderr: Option<Text>,
    returnCode: Option<int>)

  function ToFrame(m: RunnerMessage): Frame {
    Frame(
      TypeName(m.kind),
      match m.language case None => None case Some(l) => Some(LanguageName(l)),
      m.source, m.data, m.stderr, m.returnCode)
  }

  /** Reads a frame back as a message; `None` when its `type` or `language` is not one of the enum strings. */
  function FromFrame(f: Frame): Option<RunnerMessage> {
    match ParseType(f.typeName)
    case None => None
    case Some(k) =>
      match f.language
      case None => Some(RunnerMessage(k, None, f.source, f.data, f.stderr, f.returnCode))
      case Some(name) =>
        match ParseLanguage(name)
        case None => None
        case Some(l) => Some(RunnerMessage(k, Some(l), f.source, f.data, f.stderr, f.returnCode))
  }

  /** Every message survives the trip to its object form and back, and a frame
      that reads back as a message is exactly that message's frame. */
  lemma FrameRoundTrip(m: RunnerMessage, f: Frame)
    ensures FromFrame(ToFrame(m)) == Some(m)
    ensures FromFrame(f) == Some(m) ==> ToFrame(m) == f
  {
    ParseTypeName(m.kind);
    if m.language.Some? {
      ParseLanguageName(m.language.value);
    }
  }

  // config
  const RUNNER_BASE_URL: string := "ws://localhost:8080"
  /** Seconds a session may stay connected. */
  const CONNECTION_TIME_LIMIT: int := 180
  /** Code units of stdout/stderr a session may receive. */
  const MAX_OUTPUT_LENGTH: int := 100000

  /** defaultTemplates: one starter program per language, so the lookup is total. */
  function DefaultTemplate(l: Language): (t: string)
    ensures |t| > 0
  {
    match l
    case Python =>
      "# Python code\n"
      + "print(\"Hello, World!\")\n"
      + "\n"
      + "# Your code here\n"
    case Java =>
      "public class Main {\n"
      + "    public static void main(String[] args) {\n"
      + "        System.out.println(\"Hello, World!\");\n"
      + "\n"
      + "        // Your code here\n"
      + "    }\n"
      + "}"
    case Cpp =>
      "#include <iostream>\n"
      + "using namespace std;\n"
      + "\n"
      + "int main() {\n"
      + "    cout << \"Hello, World!\" << endl;\n"
      + "\n"
      + "    // Your code here\n"
      + "\n"
      + "    return 0;\n"
      + "}"
    case JavaScript =>
      "// JavaScript code\n"
      + "console.log(\"Hello, World!\");\n"
      + "\n"
      + "// Your code here\n"
  }
}
