/**
  * packages/agent-adapter/src/claude-code.ts:27-68: the script that starts the agent, read back
  * the way a shell reads it (POSIX.1-2017, Shell Command Language, sections 2.2 and 2.6).
  */
module ShellQuote {
  import opened Wrappers

  // ----- Writing -----

  function Escape(s: string): string {
    if s == [] then [] else (if s[0] == '\'' then "'\\''" else [s[0]]) + Escape(s[1..])
  }

  function Shq(s: string): string {
    "'" + Escape(s) + "'"
  }

  function Join(parts: seq<string>, separator: string): string {
    if parts == [] then ""
    else if |parts| == 1 then parts[0]
    else parts[0] + separator + Join(parts[1..], separator)
  }

  function QuoteAll(args: seq<string>): (r: seq<string>)
    ensures |r| == |args| && forall i :: 0 <= i < |args| ==> r[i] == Shq(args[i])
  {
    seq(|args|, i requires 0 <= i < |args| => Shq(args[i]))
  }

  datatype RunnerOptions = RunnerOptions(bin: string, cwd: string, promptFile: string, allowedTools: string,
                                         permissionMode: Option<string>)

  const SHEBANG := "#!/bin/bash"
  const REMARK := "# samdi가 만든 실행 스크립트. Claude Code에 작업 지시를 넘긴다."

  method BuildRunnerScript(opts: RunnerOptions) returns (script: string)
    ensures script == RunnerScript(opts)
  {
    var flags := ["--allowedTools", Shq(opts.allowedTools)];
    if opts.permissionMode.GetOr("") != "" {
      flags := flags + ["--permission-mode", Shq(opts.permissionMode.value)];
    }
    assert flags == Flags(opts);
    script := Join([SHEBANG, REMARK,
                    "cd " + Shq(opts.cwd) + " || exit 1",
                    "prompt=$(cat " + Shq(opts.promptFile) + ")",
                    "exec " + Shq(opts.bin) + " " + Join(flags, " ") + " -- \"$prompt\"",
                    ""], "\n");
  }

  function Flags(opts: RunnerOptions): seq<string> {
    ["--allowedTools", Shq(opts.allowedTools)]
    + if opts.permissionMode.GetOr("") != "" then ["--permission-mode", Shq(opts.permissionMode.value)] else []
  }

  function RunnerScript(opts: RunnerOptions): string {
    Join([SHEBANG, REMARK,
          "cd " + Shq(opts.cwd) + " || exit 1",
          "prompt=$(cat " + Shq(opts.promptFile) + ")",
          "exec " + Shq(opts.bin) + " " + Join(Flags(opts), " ") + " -- \"$prompt\"",
          ""], "\n")
  }

  const ASK_RULE :=
    "민감한 작업 전 승인 요청: 같은 주소로 '{\"type\":\"ask\",\"question\":\"<질문>\"}'을 보내면 " +
    "응답으로 {\"decision\":\"approve\"|\"deny\"}가 온다. approve일 때만 진행하라."

  const JSON_HEADER := "content-type: application/json"

  /** The command an agent is told to report with. */
  function ReportCommand(url: string, body: string): string {
    "curl -s -X POST " + url + " -H '" + JSON_HEADER + "' -d '" + body + "'"
  }

  function CurlRule(name: string, url: string, body: string): string {
    name + ": " + ReportCommand(url, body)
  }

  function ReportInstruction(url: string): string {
    Join(["---",
          "[samdi 보고 규약] 작업을 마치면 반드시 아래 형식으로 보고하라.",
          CurlRule("성공", url, "{\"type\":\"completed\",\"summary\":\"<한 줄 요약>\"}"),
          CurlRule("실패", url, "{\"type\":\"failed\",\"reason\":\"<사유>\"}"),
          ASK_RULE], "\n")
  }

  /** What the adapter writes to the prompt file. */
  function PromptText(instruction: string, url: string): string {
    instruction + "\n\n" + ReportInstruction(url)
  }

  // ----- Reading: words -----

  /** What was read, and the text after it. */
  datatype Word = Word(text: string, rest: string)

  /** Unquoted characters that end a word. */
  predicate Delimiter(c: char) {
    || c == ' ' || c == '\t' || c == '\n' || c == '|' || c == '&' || c == ';'
    || c == '<' || c == '>' || c == '(' || c == ')'
  }

  /** Unquoted characters that stand for themselves wherever they are. */
  predicate Plain(c: char) {
    NameChar(c) || '+' <= c <= '/' || c == ':' || c == '@' || c == '%'
  }

  predicate NameChar(c: char) {
    'a' <= c <= 'z' || 'A' <= c <= 'Z' || '0' <= c <= '9' || c == '_'
  }

  function Prepend(text: string, w: Option<Word>): Option<Word> {
    if w.Some? then Some(w.value.(text := text + w.value.text)) else None
  }

  /** Up to the closing single quote, every character as it is (section 2.2.2). */
  function SingleQuoted(s: string): (w: Option<Word>)
    ensures w.Some? ==> |w.value.rest| < |s|
  {
    if s == [] then None
    else if s[0] == '\'' then Some(Word("", s[1..]))
    else Prepend([s[0]], SingleQuoted(s[1..]))
  }

  /** Up to the closing double quote, `$prompt` replaced by its value (sections 2.2.3 and 2.6.2). */
  function DoubleQuoted(s: string, prompt: string): (w: Option<Word>)
    ensures w.Some? ==> |w.value.rest| < |s|
  {
    if s == [] then None
    else if s[0] == '"' then Some(Word("", s[1..]))
    else if s[0] == '`' then None
    else if s[0] == '$' then
      if "$prompt" <= s && (|s| == 7 || !NameChar(s[7])) then Prepend(prompt, DoubleQuoted(s[7..], prompt)) else None
    else if s[0] == '\\' && |s| > 1 && s[1] in "$`\"\\\n" then
      Prepend(if s[1] == '\n' then "" else [s[1]], DoubleQuoted(s[2..], prompt))
    else Prepend([s[0]], DoubleQuoted(s[1..], prompt))
  }

  /** One quoted stretch or plain character; None for anything else the shell gives a meaning to. */
  function ReadPart(s: string, prompt: string): (w: Option<Word>)
    requires s != []
    ensures w.Some? ==> |w.value.rest| < |s|
  {
    if s[0] == '\'' then SingleQuoted(s[1..])
    else if s[0] == '"' then DoubleQuoted(s[1..], prompt)
    else if s[0] == '\\' then
      if |s| == 1 then None else Some(Word(if s[1] == '\n' then "" else [s[1]], s[2..]))
    else if Plain(s[0]) then Some(Word([s[0]], s[1..]))
    else None
  }

  function ReadWord(s: string, prompt: string): (w: Option<Word>)
    ensures w.Some? ==> |w.value.rest| <= |s| && (s != [] && !Delimiter(s[0]) ==> |w.value.rest| < |s|)
    decreases |s|
  {
    if s == [] || Delimiter(s[0]) then Some(Word("", s))
    else
      match ReadPart(s, prompt)
      case None => None
      case Some(part) => Prepend(part.text, ReadWord(part.rest, prompt))
  }

  /** A simple command: its words, and the text from the operator or newline that ends it. */
  datatype Command = Command(words: seq<string>, rest: string)

  function ReadCommand(s: string, prompt: string): Option<Command>
    decreases |s|
  {
    if s == [] then Some(Command([], s))
    else if s[0] == ' ' || s[0] == '\t' then ReadCommand(s[1..], prompt)
    else if Delimiter(s[0]) then Some(Command([], s))
    else
      match ReadWord(s, prompt)
      case None => None
      case Some(w) =>
        match ReadCommand(w.rest, prompt)
        case None => None
        case Some(c) => Some(c.(words := [w.text] + c.words))
  }

  // ----- Reading: the script -----

  /** The program a script ends up as: where it runs and its arguments, the program first. */
  datatype Launch = Launch(cwd: string, argv: seq<string>)

  /** Command substitution drops newlines at the end (section 2.6.3). */
  function StripNewlines(s: string): (r: string)
    ensures r <= s && (forall i :: |r| <= i < |s| ==> s[i] == '\n') && (r != [] ==> r[|r| - 1] != '\n')
  {
    if s != [] && s[|s| - 1] == '\n' then StripNewlines(s[..|s| - 1]) else s
  }

  function AfterLine(s: string): (rest: string)
    ensures |rest| <= |s| && (s != [] ==> |rest| < |s|)
  {
    if s == [] then [] else if s[0] == '\n' then s[1..] else AfterLine(s[1..])
  }

  function SkipComments(s: string): string
    decreases |s|
  {
    if s != [] && s[0] == '#' then SkipComments(AfterLine(s)) else s
  }

  /** A command of one operand, followed by exactly this text: the operand and what comes after. */
  function ReadOperand(s: string, name: string, ending: string): Option<Word> {
    match ReadCommand(s, "")
    case None => None
    case Some(c) =>
      if |c.words| == 2 && c.words[0] == name && ending <= c.rest
      then Some(Word(c.words[1], c.rest[|ending|..])) else None
  }

  /** The last line of the script: exec and the program's arguments. */
  function ReadExec(s: string, prompt: string): Option<seq<string>> {
    match ReadCommand(s, prompt)
    case None => None
    case Some(c) => if |c.words| > 1 && c.words[0] == "exec" && c.rest == "\n" then Some(c.words[1..]) else None
  }

  const OR_EXIT := "|| exit 1\nprompt=$("
  const SUBSTITUTED := ")\n"

  /** Runs a script of the runner's shape: cd or exit, read the prompt, exec. A missing file reads as nothing. */
  function RunScript(script: string, dirs: set<string>, files: map<string, string>): Option<Launch> {
    match ReadOperand(SkipComments(script), "cd", OR_EXIT)
    case None => None
    case Some(cd) =>
      if cd.text !in dirs then None
      else
        match ReadOperand(cd.rest, "cat", SUBSTITUTED)
        case None => None
        case Some(cat) =>
          match ReadExec(cat.rest, StripNewlines(if cat.text in files then files[cat.text] else ""))
          case None => None
          case Some(argv) => Some(Launch(cd.text, argv))
  }

  // ----- Quoting is read back -----

  /** Inside an open single quote, to the end of the word. */
  function ReadOpen(s: string, prompt: string): Option<Word> {
    match SingleQuoted(s)
    case None => None
    case Some(part) => Prepend(part.text, ReadWord(part.rest, prompt))
  }

  lemma Prepended(a: string, b: string, w: Option<Word>)
    ensures Prepend(a, Prepend(b, w)) == Prepend(a + b, w)
    ensures Prepend("", w) == w
  {
    if w.Some? {
      assert a + (b + w.value.text) == (a + b) + w.value.text;
      assert "" + w.value.text == w.value.text;
    }
  }

  lemma OpenAtCharacter(c: char, rest: string, prompt: string)
    requires c != '\''
    ensures ReadOpen([c] + rest, prompt) == Prepend([c], ReadOpen(rest, prompt))
  {
    assert ([c] + rest)[1..] == rest;
    if SingleQuoted(rest).Some? {
      var part := SingleQuoted(rest).value;
      Prepended([c], part.text, ReadWord(part.rest, prompt));
    }
  }

  lemma OpenAtEnd(tail: string, prompt: string)
    ensures ReadOpen("'" + tail, prompt) == ReadWord(tail, prompt)
  {
    assert ("'" + tail)[1..] == tail;
    Prepended("", "", ReadWord(tail, prompt));
  }

  lemma QuoteOpens(rest: string, prompt: string)
    ensures ReadWord("'" + rest, prompt) == ReadOpen(rest, prompt)
  {
    assert ("'" + rest)[1..] == rest;
  }

  /** Leaving the quotes for one escaped quote and coming back. */
  lemma OpenAtQuote(rest: string, prompt: string)
    ensures ReadOpen("'\\''" + rest, prompt) == Prepend("'", ReadOpen(rest, prompt))
  {
    var escaped := "\\'" + ("'" + rest);
    assert "'\\''" + rest == "'" + escaped;
    OpenAtEnd(escaped, prompt);
    assert escaped[2..] == "'" + rest;
    QuoteOpens(rest, prompt);
    assert ReadPart(escaped, prompt) == Some(Word("'", "'" + rest));
    assert ReadWord(escaped, prompt) == Prepend("'", ReadWord("'" + rest, prompt));
  }

  lemma EscapeHead(a: string, tail: string)
    requires a != []
    ensures Escape(a) + "'" + tail
         == (if a[0] == '\'' then "'\\''" else [a[0]]) + (Escape(a[1..]) + "'" + tail)
  {}

  lemma {:induction false} OpenQuoteReads(a: string, tail: string, prompt: string)
    requires tail == [] || Delimiter(tail[0])
    ensures ReadOpen(Escape(a) + "'" + tail, prompt) == Some(Word(a, tail))
  {
    if a == [] {
      assert Escape(a) + "'" + tail == "'" + tail;
      OpenAtEnd(tail, prompt);
    } else {
      var rest := Escape(a[1..]) + "'" + tail;
      OpenQuoteReads(a[1..], tail, prompt);
      EscapeHead(a, tail);
      assert [a[0]] + a[1..] == a;
      if a[0] == '\'' {
        OpenAtQuote(rest, prompt);
      } else {
        OpenAtCharacter(a[0], rest, prompt);
      }
    }
  }

  predicate EndsWord(tail: string) {
    tail == [] || Delimiter(tail[0])
  }

  /** `form` is one word that reads as `value`, and reading stops right behind it. */
  ghost predicate Reads(form: string, value: string, prompt: string) {
    && form != [] && !Delimiter(form[0])
    && forall tail :: EndsWord(tail) ==> ReadWord(form + tail, prompt) == Some(Word(value, tail))
  }

  lemma QuotedPrefixReads(a: string, tail: string, prompt: string)
    requires EndsWord(tail)
    ensures ReadWord(Shq(a) + tail, prompt) == Some(Word(a, tail))
  {
    OpenQuoteReads(a, tail, prompt);
    QuoteOpens(Escape(a) + "'" + tail, prompt);
    QuotedText(a, tail);
  }

  lemma QuotedText(a: string, tail: string)
    ensures "'" + (Escape(a) + "'" + tail) == Shq(a) + tail
  {}

  /** A quoted string is one word, whatever it holds. */
  lemma QuotedReads(a: string, prompt: string)
    ensures Reads(Shq(a), a, prompt)
  {
    var form := Shq(a);
    assert form[0] == '\'';
    forall tail | EndsWord(tail) ensures ReadWord(form + tail, prompt) == Some(Word(a, tail)) {
      QuotedPrefixReads(a, tail, prompt);
    }
  }

  lemma PlainStarts(c: char, rest: string, prompt: string)
    requires Plain(c)
    ensures ReadWord([c] + rest, prompt) == Prepend([c], ReadWord(rest, prompt))
  {
    assert ([c] + rest)[1..] == rest;
  }

  lemma {:induction false} PlainPrefixReads(a: string, tail: string, prompt: string)
    requires EndsWord(tail) && forall i :: 0 <= i < |a| ==> Plain(a[i])
    ensures ReadWord(a + tail, prompt) == Some(Word(a, tail))
  {
    if a == [] {
      assert a + tail == tail;
    } else {
      PlainPrefixReads(a[1..], tail, prompt);
      PlainGrows(a[0], a[1..] + tail, Word(a[1..], tail), prompt);
      FirstCharacter(a, tail);
    }
  }

  lemma PlainGrows(c: char, rest: string, word: Word, prompt: string)
    requires Plain(c) && ReadWord(rest, prompt) == Some(word)
    ensures ReadWord([c] + rest, prompt) == Some(Word([c] + word.text, word.rest))
  {
    PlainStarts(c, rest, prompt);
  }

  lemma FirstCharacter(a: string, tail: string)
    requires a != []
    ensures [a[0]] + (a[1..] + tail) == a + tail && [a[0]] + a[1..] == a
  {}

  lemma PlainReads(a: string, prompt: string)
    requires a != [] && forall i :: 0 <= i < |a| ==> Plain(a[i])
    ensures Reads(a, a, prompt)
  {
    assert Plain(a[0]);
    forall tail | EndsWord(tail) ensures ReadWord(a + tail, prompt) == Some(Word(a, tail)) {
      PlainPrefixReads(a, tail, prompt);
    }
  }

  const PROMPT_WORD := "\"$prompt\""

  lemma ExpansionReads(tail: string, prompt: string)
    ensures DoubleQuoted("$prompt\"" + tail, prompt) == Some(Word(prompt, tail))
  {
    var body, closing := "$prompt\"" + tail, "\"" + tail;
    assert body[7..] == closing && body[7] == '"' && closing[1..] == tail;
    assert DoubleQuoted(closing, prompt) == Some(Word("", tail));
    assert prompt + "" == prompt;
  }

  /** In double quotes the variable is one word too: its value is not split. */
  lemma PromptReads(prompt: string)
    ensures Reads(PROMPT_WORD, prompt, prompt)
  {
    forall tail | EndsWord(tail) ensures ReadWord(PROMPT_WORD + tail, prompt) == Some(Word(prompt, tail)) {
      ExpansionReads(tail, prompt);
      DoubleQuoteOpens("$prompt\"" + tail, Word(prompt, tail), prompt);
      ExpansionText(tail);
    }
  }

  lemma DoubleQuoteOpens(rest: string, word: Word, prompt: string)
    requires DoubleQuoted(rest, prompt) == Some(word) && EndsWord(word.rest)
    ensures ReadWord("\"" + rest, prompt) == Some(word)
  {
    assert ("\"" + rest)[1..] == rest;
    assert word.text + "" == word.text;
  }

  lemma ExpansionText(tail: string)
    ensures "\"" + ("$prompt\"" + tail) == PROMPT_WORD + tail
  {}

  lemma WordThenCommand(form: string, value: string, tail: string, prompt: string)
    requires Reads(form, value, prompt) && EndsWord(tail) && ReadCommand(tail, prompt).Some?
    ensures var c := ReadCommand(tail, prompt).value;
      ReadCommand(form + tail, prompt) == Some(c.(words := [value] + c.words))
  {
    assert (form + tail)[0] == form[0];
  }

  lemma BlankThenCommand(tail: string, prompt: string)
    ensures ReadCommand(" " + tail, prompt) == ReadCommand(tail, prompt)
  {
    assert (" " + tail)[1..] == tail;
  }

  lemma JoinCons(forms: seq<string>, end: string)
    requires |forms| > 1
    ensures Join(forms, " ") + end == forms[0] + (" " + (Join(forms[1..], " ") + end))
  {}

  lemma ReadsCons(form: string, value: string, tail: string, values: seq<string>, rest: string, prompt: string)
    requires Reads(form, value, prompt) && ReadCommand(tail, prompt) == Some(Command(values, rest))
    ensures ReadCommand(form + (" " + tail), prompt) == Some(Command([value] + values, rest))
  {
    BlankThenCommand(tail, prompt);
    WordThenCommand(form, value, " " + tail, prompt);
  }

  /** Words joined by spaces, in front of what ends the command, are read as the list of their values. */
  lemma {:induction false} CommandReads(forms: seq<string>, values: seq<string>, end: string, rest: string,
                                        prompt: string)
    requires |forms| == |values| && forall i :: 0 <= i < |forms| ==> Reads(forms[i], values[i], prompt)
    requires EndsWord(end) && ReadCommand(end, prompt) == Some(Command([], rest))
    ensures ReadCommand(Join(forms, " ") + end, prompt) == Some(Command(values, rest))
    decreases |forms|
  {
    if forms == [] {
      assert "" + end == end;
    } else if |forms| == 1 {
      WordThenCommand(forms[0], values[0], end, prompt);
      assert values == [values[0]] + [];
    } else {
      CommandReads(forms[1..], values[1..], end, rest, prompt);
      JoinCons(forms, end);
      ReadsCons(forms[0], values[0], Join(forms[1..], " ") + end, values[1..], rest, prompt);
      assert values == [values[0]] + values[1..];
    }
  }

  /** Quoting each of a list of strings and joining them with spaces is read back as exactly that list. */
  lemma QuotedListReads(args: seq<string>, prompt: string)
    ensures ReadCommand(Join(QuoteAll(args), " "), prompt) == Some(Command(args, ""))
  {
    forall i | 0 <= i < |args| ensures Reads(QuoteAll(args)[i], args[i], prompt) {
      QuotedReads(args[i], prompt);
    }
    CommandReads(QuoteAll(args), args, "", "", prompt);
    assert Join(QuoteAll(args), " ") + "" == Join(QuoteAll(args), " ");
  }

  // ----- The script is read back -----

  /** The arguments the agent is meant to get, behind the program. */
  function Arguments(opts: RunnerOptions, prompt: string): seq<string> {
    ["--allowedTools", opts.allowedTools]
    + (if opts.permissionMode.GetOr("") != "" then ["--permission-mode", opts.permissionMode.value] else [])
    + ["--", prompt]
  }

  function ExecForms(opts: RunnerOptions): seq<string> {
    ["exec", Shq(opts.bin)] + Flags(opts) + ["--", PROMPT_WORD]
  }

  lemma FlagsRead(opts: RunnerOptions, prompt: string, i: nat)
    requires i < |Flags(opts)|
    ensures Reads(Flags(opts)[i], Arguments(opts, prompt)[i], prompt)
  {
    PlainReads("--allowedTools", prompt);
    PlainReads("--permission-mode", prompt);
    QuotedReads(opts.allowedTools, prompt);
    QuotedReads(opts.permissionMode.GetOr(""), prompt);
  }

  lemma ExecFormsRead(opts: RunnerOptions, prompt: string, i: nat)
    requires i < |ExecForms(opts)|
    ensures Reads(ExecForms(opts)[i], (["exec", opts.bin] + Arguments(opts, prompt))[i], prompt)
  {
    if 2 <= i < 2 + |Flags(opts)| {
      FlagsRead(opts, prompt, i - 2);
    } else {
      PlainReads("exec", prompt);
      QuotedReads(opts.bin, prompt);
      PlainReads("--", prompt);
      PromptReads(prompt);
    }
  }

  lemma ExecReads(opts: RunnerOptions, prompt: string)
    ensures ReadExec(Join(ExecForms(opts), " ") + "\n", prompt) == Some([opts.bin] + Arguments(opts, prompt))
  {
    ExecCommandReads(opts, prompt);
    assert (["exec", opts.bin] + Arguments(opts, prompt))[1..] == [opts.bin] + Arguments(opts, prompt);
  }

  lemma ExecCommandReads(opts: RunnerOptions, prompt: string)
    ensures ReadCommand(Join(ExecForms(opts), " ") + "\n", prompt)
         == Some(Command(["exec", opts.bin] + Arguments(opts, prompt), "\n"))
  {
    var forms, values := ExecForms(opts), ["exec", opts.bin] + Arguments(opts, prompt);
    forall i | 0 <= i < |forms| ensures Reads(forms[i], values[i], prompt) {
      ExecFormsRead(opts, prompt, i);
    }
    CommandReads(forms, values, "\n", "\n", prompt);
  }

  lemma ExecText(opts: RunnerOptions)
    ensures Join(ExecForms(opts), " ") == "exec " + Shq(opts.bin) + " " + Join(Flags(opts), " ") + " -- \"$prompt\""
  {
    JoinBoth(["exec", Shq(opts.bin)], Flags(opts), " ");
    JoinBoth(["exec", Shq(opts.bin)] + Flags(opts), ["--", PROMPT_WORD], " ");
    assert "exec" + " " == "exec ";
    assert " " + ("--" + " " + PROMPT_WORD) == " -- \"$prompt\"";
  }

  lemma {:induction false} JoinBoth(a: seq<string>, b: seq<string>, separator: string)
    requires a != [] && b != []
    ensures Join(a + b, separator) == Join(a, separator) + separator + Join(b, separator)
    decreases |a|
  {
    assert (a + b)[1..] == a[1..] + b;
    if |a| > 1 {
      JoinBoth(a[1..], b, separator);
    }
  }

  lemma {:induction false} AfterLineSkips(line: string, rest: string)
    requires '\n' !in line
    ensures AfterLine(line + "\n" + rest) == rest
  {
    if line == [] {
      assert ("" + "\n" + rest)[1..] == rest;
    } else {
      assert line[0] != '\n';
      assert (line + "\n" + rest)[1..] == line[1..] + "\n" + rest;
      AfterLineSkips(line[1..], rest);
    }
  }

  lemma CommentSkipped(line: string, rest: string)
    requires line != [] && line[0] == '#' && '\n' !in line
    ensures SkipComments(line + "\n" + rest) == SkipComments(rest)
  {
    AfterLineSkips(line, rest);
  }

  lemma OneLineEach()
    ensures '\n' !in SHEBANG && '\n' !in REMARK && SHEBANG[0] == '#' && REMARK[0] == '#'
  {}

  lemma OperandText(name: string, operand: string, blank: string, end: string)
    ensures Join([name, Shq(operand)], " ") + (blank + end) == name + " " + Shq(operand) + blank + end
  {
    assert [name, Shq(operand)][1..] == [Shq(operand)];
  }

  lemma OperandReads(name: string, operand: string, blank: string, ending: string, rest: string)
    requires name != [] && forall i :: 0 <= i < |name| ==> Plain(name[i])
    requires ending != [] && Delimiter(ending[0]) && ending[0] != ' ' && ending[0] != '\t'
    requires blank == "" || blank == " "
    ensures ReadOperand(name + " " + Shq(operand) + blank + (ending + rest), name, ending) == Some(Word(operand, rest))
  {
    var end := ending + rest;
    assert ReadCommand(end, "") == Some(Command([], end));
    if blank == "" {
      assert blank + end == end;
    } else {
      BlankThenCommand(end, "");
    }
    PlainReads(name, "");
    QuotedReads(operand, "");
    OperandText(name, operand, blank, end);
    CommandReads([name, Shq(operand)], [name, operand], blank + end, end, "");
    assert end[|ending|..] == rest;
  }

  lemma SixLines(a: string, b: string, c: string, d: string, e: string, newline: string)
    ensures Join([a, b, c, d, e, ""], newline)
         == a + newline + (b + newline + (c + newline + (d + newline + (e + newline))))
  {
    JoinBoth([a], [b, c, d, e, ""], newline);
    JoinBoth([b], [c, d, e, ""], newline);
    JoinBoth([c], [d, e, ""], newline);
    JoinBoth([d], [e, ""], newline);
    JoinBoth([e], [""], newline);
    assert [a] + [b, c, d, e, ""] == [a, b, c, d, e, ""] && [b] + [c, d, e, ""] == [b, c, d, e, ""];
    assert [c] + [d, e, ""] == [c, d, e, ""] && [d] + [e, ""] == [d, e, ""] && [e] + [""] == [e, ""];
    assert e + newline + "" == e + newline;
  }

  /** The pieces of the lines, regrouped into what ends and what begins a command. */
  lemma Regroup(cd: string, cwd: string, exit: string, newline: string, substitution: string,
                cat: string, file: string, closing: string, exec: string)
    ensures (cd + " " + cwd + (" " + exit)) + newline + ((substitution + (cat + " ") + file + closing) + newline + exec)
         == cd + " " + cwd + " "
            + ((exit + newline + substitution) + (cat + " " + file + "" + ((closing + newline) + exec)))
  {}

  lemma Literals()
    ensures "cd" + " " == "cd " && " " + "|| exit 1" == " || exit 1" && "prompt=$(" + ("cat" + " ") == "prompt=$(cat "
    ensures "|| exit 1" + "\n" + "prompt=$(" == OR_EXIT && ")" + "\n" == SUBSTITUTED
  {}

  /** The script, split where its commands end. */
  lemma ScriptText(opts: RunnerOptions)
    ensures RunnerScript(opts) == SHEBANG + "\n" + (REMARK + "\n" + ("cd" + " " + Shq(opts.cwd) + " " + (OR_EXIT
      + ("cat" + " " + Shq(opts.promptFile) + "" + (SUBSTITUTED + (Join(ExecForms(opts), " ") + "\n"))))))
  {
    var q, f, execLine := Shq(opts.cwd), Shq(opts.promptFile), Join(ExecForms(opts), " ");
    ExecText(opts);
    SixLines(SHEBANG, REMARK, "cd " + q + " || exit 1", "prompt=$(cat " + f + ")", execLine, "\n");
    Literals();
    assert "cd " + q + " || exit 1" == "cd" + " " + q + (" " + "|| exit 1");
    assert "prompt=$(cat " + f + ")" == "prompt=$(" + ("cat" + " ") + f + ")";
    Regroup("cd", q, "|| exit 1", "\n", "prompt=$(", "cat", f, ")", execLine + "\n");
  }

  /**
    * Run by a shell, the script enters its directory and starts the program with exactly these
    * arguments: the options, the end-of-options mark, and the prompt file's text as one argument,
    * without newlines at its end. It starts nothing when the directory is not there.
    */
  lemma ScriptLaunches(opts: RunnerOptions, dirs: set<string>, files: map<string, string>)
    ensures RunScript(RunnerScript(opts), dirs, files) ==
      if opts.cwd !in dirs then None
      else
        var prompt := StripNewlines(if opts.promptFile in files then files[opts.promptFile] else "");
        Some(Launch(opts.cwd, [opts.bin] + Arguments(opts, prompt)))
  {
    var execLine := Join(ExecForms(opts), " ") + "\n";
    var catLine := "cat" + " " + Shq(opts.promptFile) + "" + (SUBSTITUTED + execLine);
    var cdLine := "cd" + " " + Shq(opts.cwd) + " " + (OR_EXIT + catLine);
    ScriptText(opts);
    OneLineEach();
    CommentSkipped(SHEBANG, REMARK + "\n" + cdLine);
    CommentSkipped(REMARK, cdLine);
    OperandReads("cd", opts.cwd, " ", OR_EXIT, catLine);
    OperandReads("cat", opts.promptFile, "", SUBSTITUTED, execLine);
    ExecReads(opts, StripNewlines(if opts.promptFile in files then files[opts.promptFile] else ""));
  }

  lemma JoinEnds(parts: seq<string>, last: string, separator: string)
    requires parts != [] && last != []
    ensures var joined := Join(parts + [last], separator); joined != [] && joined[|joined| - 1] == last[|last| - 1]
  {
    JoinBoth(parts, [last], separator);
  }

  /** The prompt file does not end in a newline, so the substitution drops nothing. */
  lemma PromptKeepsItsEnd(instruction: string, url: string)
    ensures StripNewlines(PromptText(instruction, url)) == PromptText(instruction, url)
  {
    var parts := ["---", "[samdi 보고 규약] 작업을 마치면 반드시 아래 형식으로 보고하라.",
                  CurlRule("성공", url, "{\"type\":\"completed\",\"summary\":\"<한 줄 요약>\"}"),
                  CurlRule("실패", url, "{\"type\":\"failed\",\"reason\":\"<사유>\"}")];
    JoinEnds(parts, ASK_RULE, "\n");
    assert parts + [ASK_RULE] == [parts[0], parts[1], parts[2], parts[3], ASK_RULE];
    assert Join(parts + [ASK_RULE], "\n") == ReportInstruction(url);
  }

  // ----- What the agent is told -----

  lemma {:induction false} NothingToEscape(s: string)
    requires '\'' !in s
    ensures Escape(s) == s
  {
    if s != [] {
      assert s[0] != '\'' && '\'' !in s[1..];
      NothingToEscape(s[1..]);
      assert [s[0]] + s[1..] == s;
    }
  }

  lemma ReportForms(url: string, header: string, body: string)
    ensures Join(PostForms(url, header, body), " ")
         == "curl -s -X POST " + url + " -H " + header + " -d " + body
  {
    var words, rest := ["curl", "-s", "-X", "POST"], ["-H", header, "-d", body];
    PostFormsSplit(url, header, body);
    JoinBoth(words, [url] + rest, " ");
    JoinBoth([url], rest, " ");
    FourWords();
    HeaderAndBody(header, body);
    PostPieces(Join(words, " "), url, Join(rest, " "), " -H " + header + " -d " + body);
  }

  lemma PostFormsSplit(url: string, header: string, body: string)
    ensures PostForms(url, header, body) == ["curl", "-s", "-X", "POST"] + ([url] + ["-H", header, "-d", body])
  {}

  lemma PostPieces(words: string, url: string, rest: string, end: string)
    requires words + " " == "curl -s -X POST " && " " + rest == end
    ensures words + " " + (url + " " + rest) == "curl -s -X POST " + url + end
  {
    assert words + " " + (url + " " + rest) == (words + " ") + url + (" " + rest);
  }

  lemma FourWords()
    ensures Join(["curl", "-s", "-X", "POST"], " ") + " " == "curl -s -X POST "
  {
    JoinBoth(["curl", "-s"], ["-X", "POST"], " ");
    assert ["curl", "-s"] + ["-X", "POST"] == ["curl", "-s", "-X", "POST"];
    assert Join(["curl", "-s"], " ") == "curl -s" && Join(["-X", "POST"], " ") == "-X POST";
  }

  lemma HeaderAndBody(header: string, body: string)
    ensures " " + Join(["-H", header, "-d", body], " ") == " -H " + header + " -d " + body
  {
    JoinBoth(["-H", header], ["-d", body], " ");
    assert ["-H", header] + ["-d", body] == ["-H", header, "-d", body];
    assert Join(["-H", header], " ") == "-H" + " " + header && Join(["-d", body], " ") == "-d" + " " + body;
    assert " " + "-H" + " " == " -H " && " " + "-d" + " " == " -d ";
  }

  function PostForms(url: string, header: string, body: string): seq<string> {
    ["curl", "-s", "-X", "POST", url, "-H", header, "-d", body]
  }

  lemma PostFormsRead(url: string, header: string, body: string, i: nat)
    requires url != [] && (forall k :: 0 <= k < |url| ==> Plain(url[k])) && i < 9
    ensures Reads(PostForms(url, Shq(header), Shq(body))[i], PostForms(url, header, body)[i], "")
  {
    if i == 6 {
      QuotedReads(header, "");
    } else if i == 8 {
      QuotedReads(body, "");
    } else {
      PlainReads(PostForms(url, header, body)[i], "");
    }
  }

  lemma PostFormsPost(url: string, header: string, body: string)
    requires url != [] && forall k :: 0 <= k < |url| ==> Plain(url[k])
    ensures ReadCommand(Join(PostForms(url, Shq(header), Shq(body)), " "), "")
         == Some(Command(PostForms(url, header, body), ""))
  {
    var forms, values := PostForms(url, Shq(header), Shq(body)), PostForms(url, header, body);
    forall i | 0 <= i < |forms| ensures Reads(forms[i], values[i], "") {
      PostFormsRead(url, header, body, i);
    }
    CommandReads(forms, values, "", "", "");
    assert Join(forms, " ") + "" == Join(forms, " ");
  }

  lemma QuotesAround(start: string, header: string, body: string)
    ensures start + " -H '" + header + "' -d '" + body + "'"
         == start + " -H " + ("'" + header + "'") + " -d " + ("'" + body + "'")
  {}

  lemma ReportCommandText(url: string, body: string)
    requires '\'' !in body
    ensures ReportCommand(url, body) == Join(PostForms(url, Shq(JSON_HEADER), Shq(body)), " ")
  {
    NothingToEscape(body);
    NothingToEscape(JSON_HEADER);
    QuotesAround("curl -s -X POST " + url, JSON_HEADER, body);
    ReportForms(url, Shq(JSON_HEADER), Shq(body));
  }

  /**
    * Typed into a shell, the command an agent reports with posts exactly the body to the url, as
    * long as there is no quote in the one and only plain characters in the other.
    */
  lemma ReportCommandPosts(url: string, body: string)
    requires url != [] && (forall k :: 0 <= k < |url| ==> Plain(url[k])) && '\'' !in body
    ensures ReadCommand(ReportCommand(url, body), "")
         == Some(Command(["curl", "-s", "-X", "POST", url, "-H", "content-type: application/json", "-d", body], ""))
  {
    ReportCommandText(url, body);
    PostFormsPost(url, JSON_HEADER, body);
  }

  /** The rules to report by: how to report success, how failure, and how to ask, all to the same url. */
  lemma RulesTell(url: string)
    ensures var lines := [
        "---",
        "[samdi 보고 규약] 작업을 마치면 반드시 아래 형식으로 보고하라.",
        "성공" + ": " + ReportCommand(url, "{\"type\":\"completed\",\"summary\":\"<한 줄 요약>\"}"),
        "실패" + ": " + ReportCommand(url, "{\"type\":\"failed\",\"reason\":\"<사유>\"}"),
        ASK_RULE];
      ReportInstruction(url) == Join(lines, "\n")
  {}

  /**
    * The agent is started with one last argument that is the task's instruction to the letter, a
    * blank line, and the rules to report by. No quote, newline or dollar sign in the texts
    * changes, splits or swallows any of it.
    */
  lemma AgentGetsThePrompt(opts: RunnerOptions, dirs: set<string>, files: map<string, string>,
                           instruction: string, url: string)
    requires opts.cwd in dirs && opts.promptFile in files && files[opts.promptFile] == PromptText(instruction, url)
    ensures RunScript(RunnerScript(opts), dirs, files).Some?
    ensures var Launch(cwd, argv) := RunScript(RunnerScript(opts), dirs, files).value;
      var permission := if opts.permissionMode.Some? && opts.permissionMode.value != ""
                        then ["--permission-mode", opts.permissionMode.value] else [];
      && cwd == opts.cwd
      && argv == [opts.bin, "--allowedTools", opts.allowedTools] + permission
                 + ["--", instruction + "\n\n" + ReportInstruction(url)]
  {
    ScriptLaunches(opts, dirs, files);
    PromptKeepsItsEnd(instruction, url);
    ArgumentsTell(opts, PromptText(instruction, url));
    InstructionThenRules(instruction, url);
  }

  lemma ArgumentsTell(opts: RunnerOptions, prompt: string)
    ensures var permission := if opts.permissionMode.Some? && opts.permissionMode.value != ""
                              then ["--permission-mode", opts.permissionMode.value] else [];
      [opts.bin] + Arguments(opts, prompt)
      == [opts.bin, "--allowedTools", opts.allowedTools] + permission + ["--", prompt]
  {}

  lemma InstructionThenRules(instruction: string, url: string)
    ensures PromptText(instruction, url) == instruction + "\n\n" + ReportInstruction(url)
  {}
}
