/**
 * Shell quoting: the env file sourced inside the sandbox, and the commands of the external subagents.
 *
 * `LexWord`, `Words` and `ParseEnv` read text the way a shell does, by the Shell Command Language of
 * IEEE Std 1003.1-2017: section 2.2.1 (escape character), 2.2.2 (single quotes), 2.3 (token recognition)
 * and rule 7 of 2.10.2 (assignments). They are an independent reading of what the quoting code writes.
 * A construct that would be expanded (section 2.6) or that joins commands (section 2.9) has no value here.
 */
module ShellQuote {
  import opened Options
  import Text

  datatype Lexed = Lexed(value: string, rest: string)
  datatype Assignment = Assignment(name: string, value: string)
  datatype EnvFile = Written(body: string) | InvalidName(name: string)

  // ----- how a shell reads -----

  predicate Blank(c: char) {
    c == ' ' || c == '\t'
  }

  /** What ends an unquoted word: blanks, newline and the characters that start an operator. */
  predicate Delimiter(c: char) {
    Blank(c) || c == '\n' || c in "|&;<>()"
  }

  /** Starts an expansion, a pattern, a double quote or a comment when not quoted. */
  predicate Special(c: char) {
    c in "$`\"*?[{#~"
  }

  predicate NulFree(s: string) {
    forall i :: 0 <= i < |s| ==> s[i] != '\0'
  }

  /** An unquoted character that stands for itself. */
  predicate Ordinary(c: char) {
    !Delimiter(c) && !Special(c) && c != '\0' && c != '\'' && c != '\\'
  }

  predicate EndsWord(t: string) {
    t == "" || Delimiter(t[0])
  }

  function Prepend(c: char, l: Option<Lexed>): Option<Lexed> {
    match l
    case None => None
    case Some(w) => Some(Lexed([c] + w.value, w.rest))
  }

  /** The value of the rest of the word at the start of `t`, after quote removal, and the text behind it. */
  function LexWord(t: string, quoted: bool): Option<Lexed> {
    if t == "" then
      if quoted then None else Some(Lexed("", ""))
    else if t[0] == '\0' then None
    else if quoted then
      if t[0] == '\'' then LexWord(t[1..], false) else Prepend(t[0], LexWord(t[1..], true))
    else if t[0] == '\'' then LexWord(t[1..], true)
    else if t[0] == '\\' then
      if |t| == 1 || t[1] == '\0' then None
      else if t[1] == '\n' then LexWord(t[2..], false)
      else Prepend(t[1], LexWord(t[2..], false))
    else if Delimiter(t[0]) then Some(Lexed("", t))
    else if Special(t[0]) then None
    else Prepend(t[0], LexWord(t[1..], false))
  }

  lemma {:induction false} LexWordShortens(t: string, quoted: bool)
    requires LexWord(t, quoted).Some?
    ensures |LexWord(t, quoted).value.rest| <= |t|
    ensures EndsWord(LexWord(t, quoted).value.rest)
    ensures t != "" && !quoted && !Delimiter(t[0]) ==> |LexWord(t, quoted).value.rest| < |t|
  {
    if t == "" {
    } else if !quoted && t[0] == '\\' {
      LexWordShortens(t[2..], false);
    } else if quoted || !Delimiter(t[0]) {
      LexWordShortens(t[1..], if t[0] == '\'' then !quoted else quoted);
    }
  }

  /** The words of one simple command without redirections. */
  function Words(t: string): Option<seq<string>>
    decreases |t|
  {
    if t == "" then Some([])
    else if Blank(t[0]) then Words(t[1..])
    else if |t| >= 2 && t[0] == '\\' && t[1] == '\n' then Words(t[2..])
    else if Delimiter(t[0]) then None
    else match LexWord(t, false)
      case None => None
      case Some(w) =>
        LexWordShortens(t, false);
        match Words(w.rest)
        case None => None
        case Some(ws) => Some([w.value] + ws)
  }

  /** A name by section 3.235 of the Base Definitions: letters, digits and underscores, no digit first. */
  predicate NameStart(c: char) {
    c == '_' || 'a' <= c <= 'z' || 'A' <= c <= 'Z'
  }

  predicate NameChar(c: char) {
    NameStart(c) || '0' <= c <= '9'
  }

  function NameLength(t: string): (n: nat)
    ensures n <= |t|
  {
    if t != "" && NameChar(t[0]) then 1 + NameLength(t[1..]) else 0
  }

  /** A file of assignments, one to a line: the list of what it assigns, in order. */
  function ParseEnv(t: string): Option<seq<Assignment>>
    decreases |t|
  {
    if t == "" then Some([])
    else
      var n := NameLength(t);
      if n == 0 || !NameStart(t[0]) || n >= |t| || t[n] != '=' then None
      else match LexWord(t[n + 1..], false)
        case None => None
        case Some(w) =>
          LexWordShortens(t[n + 1..], false);
          if w.rest == "" || w.rest[0] != '\n' then None
          else match ParseEnv(w.rest[1..])
            case None => None
            case Some(later) => Some([Assignment(t[..n], w.value)] + later)
  }

  // ----- what is written -----

  function QuotedBody(s: string): string {
    if s == "" then ""
    else (if s[0] == '\'' then "'\\''" else [s[0]]) + QuotedBody(s[1..])
  }

  function Quoted(s: string): string {
    "'" + QuotedBody(s) + "'"
  }

  lemma {:induction false} QuotedBodySnoc(s: string, c: char)
    ensures QuotedBody(s + [c]) == QuotedBody(s) + (if c == '\'' then "'\\''" else [c])
  {
    if s == "" {
      assert s + [c] == [c];
      assert QuotedBody([c][1..]) == "";
    } else {
      assert (s + [c])[1..] == s[1..] + [c];
      QuotedBodySnoc(s[1..], c);
    }
  }

  predicate AsciiLetter(c: char) {
    'A' <= c <= 'Z' || 'a' <= c <= 'z'
  }

  predicate IsValidEnvName(name: string) {
    && name != ""
    && (AsciiLetter(name[0]) || name[0] == '_')
    && forall i :: 1 <= i < |name| ==> AsciiLetter(name[i]) || '0' <= name[i] <= '9' || name[i] == '_'
  }

  function EnvLine(a: Assignment): string {
    a.name + "=" + Quoted(a.value) + "\n"
  }

  function EnvBody(secrets: seq<Assignment>): string {
    if secrets == [] then "" else EnvLine(secrets[0]) + EnvBody(secrets[1..])
  }

  lemma {:induction false} EnvBodySnoc(secrets: seq<Assignment>, a: Assignment)
    ensures EnvBody(secrets + [a]) == EnvBody(secrets) + EnvLine(a)
  {
    if secrets == [] {
      assert secrets + [a] == [a];
      assert EnvBody([a][1..]) == "";
    } else {
      assert (secrets + [a])[1..] == secrets[1..] + [a];
      EnvBodySnoc(secrets[1..], a);
      assert EnvLine(secrets[0]) + (EnvBody(secrets[1..]) + EnvLine(a)) == EnvBody(secrets) + EnvLine(a);
    }
  }

  predicate AllNulFree(secrets: seq<Assignment>) {
    forall i :: 0 <= i < |secrets| ==> NulFree(secrets[i].value)
  }

  predicate AllNamesValid(secrets: seq<Assignment>) {
    forall i :: 0 <= i < |secrets| ==> IsValidEnvName(secrets[i].name)
  }

  // ----- one value -----

  /** A quote inside the quotes: close them, escape one quote, open them again. */
  lemma LexEscapedQuote(inner: string)
    ensures LexWord("'\\''" + inner, true) == Prepend('\'', LexWord(inner, true))
  {
    var t := "'\\''" + inner;
    assert t[1..] == "\\''" + inner;
    assert t[1..][2..] == "'" + inner;
    assert t[1..][2..][1..] == inner;
    assert LexWord(t[1..][2..], false) == LexWord(inner, true);
  }

  lemma LexPlainQuoted(c: char, inner: string)
    requires c != '\''
    ensures LexWord([c] + inner, true) == if c == '\0' then None else Prepend(c, LexWord(inner, true))
  {
    assert ([c] + inner)[1..] == inner;
  }

  lemma QuotedBodyFirst(v: string, tail: string)
    requires v != ""
    ensures QuotedBody(v) + tail == (if v[0] == '\'' then "'\\''" else [v[0]]) + (QuotedBody(v[1..]) + tail)
  {
  }

  /** Inside the quotes: the escaped form of `v` and then the closing quote. */
  lemma {:induction false} LexQuotedBody(v: string, rest: string)
    requires EndsWord(rest)
    ensures LexWord(QuotedBody(v) + ("'" + rest), true) == if NulFree(v) then Some(Lexed(v, rest)) else None
  {
    if v == "" {
      assert QuotedBody(v) + ("'" + rest) == "'" + rest;
      assert ("'" + rest)[1..] == rest;
      LexNothing(rest);
    } else {
      var inner := QuotedBody(v[1..]) + ("'" + rest);
      LexQuotedBody(v[1..], rest);
      NulFreeHead(v);
      QuotedBodyFirst(v, "'" + rest);
      if v[0] == '\'' {
        LexEscapedQuote(inner);
      } else {
        LexPlainQuoted(v[0], inner);
      }
      assert [v[0]] + v[1..] == v;
    }
  }

  lemma NulFreeHead(v: string)
    requires v != ""
    ensures NulFree(v) <==> v[0] != '\0' && NulFree(v[1..])
  {
    if v[0] != '\0' && NulFree(v[1..]) {
      forall i | 0 <= i < |v| ensures v[i] != '\0' {
        if i > 0 { assert v[i] == v[1..][i - 1]; }
      }
    }
    if NulFree(v) {
      forall i | 0 <= i < |v[1..]| ensures v[1..][i] != '\0' { assert v[1..][i] == v[i + 1]; }
    }
  }

  lemma LexNothing(rest: string)
    requires EndsWord(rest)
    ensures LexWord(rest, false) == Some(Lexed("", rest))
  {
  }

  /** A quoted value is one word with exactly that value, precisely when the value has no NUL. */
  lemma QuotedRoundTrip(v: string, rest: string)
    requires EndsWord(rest)
    ensures LexWord(Quoted(v) + rest, false) == Some(Lexed(v, rest)) <==> NulFree(v)
    ensures !NulFree(v) ==> LexWord(Quoted(v) + rest, false) == None
  {
    LexNothing(rest);
    LexQuotedBody(v, rest);
    var t := Quoted(v) + rest;
    assert t[0] == '\'';
    assert t[1..] == QuotedBody(v) + ("'" + rest);
  }

  // ----- the env file -----

  lemma {:induction false} NameLengthIs(name: string, rest: string)
    requires forall i :: 0 <= i < |name| ==> NameChar(name[i])
    requires rest != "" && !NameChar(rest[0])
    ensures NameLength(name + rest) == |name|
  {
    if name == "" {
      assert name + rest == rest;
    } else {
      assert (name + rest)[1..] == name[1..] + rest;
      NameLengthIs(name[1..], rest);
    }
  }

  lemma EnvLineText(a: Assignment, body: string)
    ensures EnvLine(a) + body == a.name + ("=" + (Quoted(a.value) + ("\n" + body)))
  {
  }

  lemma NameThenValue(name: string, value: string)
    requires IsValidEnvName(name)
    ensures var t := name + ("=" + value);
      NameLength(t) == |name| && NameStart(t[0]) && t[|name|] == '=' && t[..|name|] == name && t[|name| + 1..] == value
  {
    NameLengthIs(name, "=" + value);
  }

  lemma ParseEnvLine(a: Assignment, body: string)
    requires IsValidEnvName(a.name)
    ensures ParseEnv(EnvLine(a) + body)
         == if !NulFree(a.value) || ParseEnv(body) == None then None else Some([a] + ParseEnv(body).value)
  {
    var later := "\n" + body;
    EnvLineText(a, body);
    NameThenValue(a.name, Quoted(a.value) + later);
    QuotedRoundTrip(a.value, later);
    assert later[1..] == body;
  }

  lemma {:induction false} NameCharsTaken(name: string, rest: string)
    requires rest != "" && !NameChar(rest[0])
    ensures NameLength(name + rest) <= |name|
    ensures NameLength(name + rest) == |name| <==> forall i :: 0 <= i < |name| ==> NameChar(name[i])
  {
    if name == "" {
      assert name + rest == rest;
    } else {
      assert (name + rest)[1..] == name[1..] + rest;
      NameCharsTaken(name[1..], rest);
      if NameChar(name[0]) && forall i :: 0 <= i < |name[1..]| ==> NameChar(name[1..][i]) {
        forall i | 0 <= i < |name| ensures NameChar(name[i]) {
          if i > 0 { assert name[i] == name[1..][i - 1]; }
        }
      }
      if forall i :: 0 <= i < |name| ==> NameChar(name[i]) {
        forall i | 0 <= i < |name[1..]| ensures NameChar(name[1..][i]) {
          assert name[1..][i] == name[i + 1];
        }
      }
    }
  }

  /** A name is accepted exactly if a shell takes it as the name of an assignment. */
  lemma ValidNameIff(name: string)
    ensures IsValidEnvName(name) <==> ParseEnv(EnvLine(Assignment(name, ""))) == Some([Assignment(name, "")])
  {
    var a := Assignment(name, "");
    if IsValidEnvName(name) {
      ParseEnvLine(a, "");
      assert EnvLine(a) + "" == EnvLine(a) && ParseEnv("") == Some([]) && NulFree("");
      assert [a] + [] == [a];
    } else if ParseEnv(EnvLine(a)) == Some([a]) {
      EnvLineText(a, "");
      assert EnvLine(a) + "" == EnvLine(a);
      NameRead(name, "=" + (Quoted("") + ("\n" + "")), a);
    }
  }

  lemma NameRead(name: string, rest: string, a: Assignment)
    requires rest != "" && rest[0] == '=' && a.name == name && ParseEnv(name + rest) == Some([a])
    ensures IsValidEnvName(name)
  {
    NameCharsTaken(name, rest);
    FirstName(name + rest);
    assert name == (name + rest)[..NameLength(name + rest)];
    assert (name + rest)[0] == name[0];
  }

  /** The name of the first assignment read is the run of name characters at the start. */
  lemma FirstName(t: string)
    requires t != "" && ParseEnv(t).Some?
    ensures ParseEnv(t).value != [] && NameStart(t[0]) && NameLength(t) > 0
    ensures ParseEnv(t).value[0].name == t[..NameLength(t)]
  {
  }

  /** The whole file reads back as exactly the list it was written from, unless some value has a NUL. */
  lemma {:induction false} EnvFileRoundTrip(secrets: seq<Assignment>)
    requires AllNamesValid(secrets)
    ensures ParseEnv(EnvBody(secrets)) == Some(secrets) <==> AllNulFree(secrets)
    ensures !AllNulFree(secrets) ==> ParseEnv(EnvBody(secrets)) == None
  {
    if secrets != [] {
      var a, later := secrets[0], secrets[1..];
      assert AllNulFree(secrets) <==> NulFree(a.value) && AllNulFree(later) by {
        if NulFree(a.value) && AllNulFree(later) {
          forall i | 0 <= i < |secrets| ensures NulFree(secrets[i].value) {
            if i > 0 { assert secrets[i] == later[i - 1]; }
          }
        }
      }
      EnvFileRoundTrip(later);
      ParseEnvLine(a, EnvBody(later));
      assert [a] + later == secrets;
    }
  }

  /** Two lists that write the same file are the same list. */
  lemma EnvFileDetermines(left: seq<Assignment>, right: seq<Assignment>)
    requires AllNamesValid(left) && AllNulFree(left) && AllNamesValid(right) && AllNulFree(right)
    requires EnvBody(left) == EnvBody(right)
    ensures left == right
  {
    EnvFileRoundTrip(left);
    EnvFileRoundTrip(right);
  }

  method ShellSingleQuote(s: string) returns (out: string)
    ensures out == Quoted(s)
    ensures NulFree(s) ==> LexWord(out, false) == Some(Lexed(s, ""))
  {
    out := "'";
    for i := 0 to |s|
      invariant out == "'" + QuotedBody(s[..i])
    {
      QuotedBodySnoc(s[..i], s[i]);
      assert s[..i + 1] == s[..i] + [s[i]];
      if s[i] == '\'' {
        out := out + "'\\''";
      } else {
        out := out + [s[i]];
      }
    }
    assert s[..|s|] == s;
    out := out + "'";
    QuotedRoundTrip(s, "");
    assert Quoted(s) + "" == Quoted(s);
  }

  /** One round of the loop below. */
  method PushEnvLine(before: string, a: Assignment) returns (body: string)
    ensures body == before + EnvLine(a)
  {
    var quoted := ShellSingleQuote(a.value);
    body := before + a.name;
    body := body + "=";
    body := body + quoted;
    body := body + "\n";
  }

  /** The body of the secrets file, or the first name that is not a valid one. */
  method WriteEnvBody(secrets: seq<Assignment>) returns (r: EnvFile)
    ensures r.Written? <==> AllNamesValid(secrets)
    ensures r.Written? ==> r.body == EnvBody(secrets)
    ensures r.Written? && AllNulFree(secrets) ==> ParseEnv(r.body) == Some(secrets)
    ensures r.InvalidName? ==> !IsValidEnvName(r.name)
    ensures r.InvalidName? ==>
      exists i :: 0 <= i < |secrets| && secrets[i].name == r.name && AllNamesValid(secrets[..i])
  {
    var body := "";
    for i := 0 to |secrets|
      invariant AllNamesValid(secrets[..i])
      invariant body == EnvBody(secrets[..i])
    {
      if !IsValidEnvName(secrets[i].name) {
        return InvalidName(secrets[i].name);
      }
      assert secrets[..i + 1] == secrets[..i] + [secrets[i]];
      EnvBodySnoc(secrets[..i], secrets[i]);
      body := PushEnvLine(body, secrets[i]);
    }
    assert secrets[..|secrets|] == secrets;
    EnvFileRoundTrip(secrets);
    r := Written(body);
  }

  // ----- commands for the external subagents -----

  lemma {:induction false} LexWordAppend(a: string, b: string, quoted: bool)
    requires EndsWord(b) && LexWord(a, quoted).Some?
    ensures LexWord(a + b, quoted)
         == Some(Lexed(LexWord(a, quoted).value.value, LexWord(a, quoted).value.rest + b))
  {
    if a == "" {
      assert a + b == b;
      LexNothing(b);
    } else if !quoted && a[0] == '\\' {
      assert (a + b)[2..] == a[2..] + b;
      LexWordAppend(a[2..], b, false);
    } else if quoted || !Delimiter(a[0]) {
      assert (a + b)[1..] == a[1..] + b;
      LexWordAppend(a[1..], b, if a[0] == '\'' then !quoted else quoted);
    }
  }

  function Joined(a: Option<seq<string>>, b: Option<seq<string>>): Option<seq<string>> {
    if a == None || b == None then None else Some(a.value + b.value)
  }

  lemma WordsAfterWord(t: string, w: Lexed)
    requires t != "" && !Delimiter(t[0]) && !(|t| >= 2 && t[0] == '\\' && t[1] == '\n')
    requires LexWord(t, false) == Some(w)
    ensures Words(t) == Joined(Some([w.value]), Words(w.rest))
  {
  }

  lemma JoinedAssociates(x: string, a: Option<seq<string>>, b: Option<seq<string>>)
    ensures Joined(Some([x]), Joined(a, b)) == Joined(Joined(Some([x]), a), b)
  {
    if a.Some? && b.Some? {
      assert [x] + (a.value + b.value) == [x] + a.value + b.value;
    }
  }

  lemma WordsBlank(b: string)
    ensures Words(" " + b) == Joined(Words(""), Words(b))
  {
    assert (" " + b)[1..] == b;
    if Words(b).Some? { assert [] + Words(b).value == Words(b).value; }
  }

  /** Text set side by side with a blank between contributes its own words and nothing else. */
  lemma {:induction false} WordsJoin(a: string, b: string)
    requires Words(a).Some?
    ensures Words(a + (" " + b)) == Joined(Words(a), Words(b))
    decreases |a|, 1
  {
    var gap := " " + b;
    if a == "" {
      assert a + gap == gap;
      WordsBlank(b);
    } else if Blank(a[0]) {
      assert (a + gap)[1..] == a[1..] + gap;
      WordsJoin(a[1..], b);
    } else if |a| >= 2 && a[0] == '\\' && a[1] == '\n' {
      assert (a + gap)[2..] == a[2..] + gap;
      WordsJoin(a[2..], b);
    } else {
      WordThenJoin(a, b);
    }
  }

  lemma {:induction false} WordThenJoin(a: string, b: string)
    requires Words(a).Some? && a != "" && !Delimiter(a[0]) && !(|a| >= 2 && a[0] == '\\' && a[1] == '\n')
    ensures Words(a + (" " + b)) == Joined(Words(a), Words(b))
    decreases |a|, 0
  {
    var gap := " " + b;
    var w := LexWord(a, false).value;
    LexWordShortens(a, false);
    WordsAfterWord(a, w);
    LexWordAppend(a, gap, false);
    NotContinuation(a, gap);
    WordsAfterWord(a + gap, Lexed(w.value, w.rest + gap));
    WordsJoin(w.rest, b);
    JoinedAssociates(w.value, Words(w.rest), Words(b));
  }

  lemma NotContinuation(a: string, b: string)
    requires LexWord(a, false).Some? && a != "" && !(|a| >= 2 && a[0] == '\\' && a[1] == '\n')
    ensures !(|a + b| >= 2 && (a + b)[0] == '\\' && (a + b)[1] == '\n')
  {
  }

  /** A text that is a single word to its end. */
  lemma OneWord(t: string, value: string)
    requires t != "" && !Delimiter(t[0]) && !(|t| >= 2 && t[0] == '\\' && t[1] == '\n')
    ensures LexWord(t, false) == Some(Lexed(value, "")) ==> Words(t) == Some([value])
    ensures LexWord(t, false) == None ==> Words(t) == None
  {
    assert Words("") == Some([]);
    assert [value] + [] == [value];
  }

  lemma QuotedIsOneWord(v: string)
    ensures Words(Quoted(v)) == if NulFree(v) then Some([v]) else None
  {
    QuotedRoundTrip(v, "");
    assert Quoted(v) + "" == Quoted(v);
    assert Quoted(v)[0] == '\'';
    OneWord(Quoted(v), v);
  }

  lemma {:induction false} LexPlain(w: string)
    requires forall i :: 0 <= i < |w| ==> Ordinary(w[i])
    ensures LexWord(w, false) == Some(Lexed(w, ""))
  {
    if w != "" {
      LexPlain(w[1..]);
      assert [w[0]] + w[1..] == w;
    }
  }

  /** Lower-case letters, digits and hyphens: the flags and numbers of the command lines. */
  predicate PlainWord(w: string) {
    w != "" && forall i :: 0 <= i < |w| ==> 'a' <= w[i] <= 'z' || '0' <= w[i] <= '9' || w[i] == '-'
  }

  function CodexCommand(command: string, sandbox: string, prompt: string): string {
    command + " exec --sandbox " + sandbox + " --json " + Quoted(prompt)
  }

  function ClaudeCodeCommand(command: string, maxTurns: nat, prompt: string): string {
    command + " --bare -p " + Quoted(prompt) + (" --output-format json" + " --max-turns ") + Text.Decimal(maxTurns)
  }

  /** A plain word at the end of a command is one more argument. */
  lemma AddPlain(a: string, w: string)
    requires Words(a).Some? && PlainWord(w)
    ensures Words(a + " " + w) == Some(Words(a).value + [w])
  {
    PlainIsOneWord(w);
    AddText(a, w);
  }

  lemma PlainIsOneWord(w: string)
    requires PlainWord(w)
    ensures Words(w) == Some([w])
  {
    assert forall i :: 0 <= i < |w| ==> Ordinary(w[i]);
    LexPlain(w);
    assert Ordinary(w[0]);
    OneWord(w, w);
  }

  /** A quoted value at the end of a command is one more argument, the value itself. */
  lemma AddQuoted(a: string, v: string)
    requires Words(a).Some?
    ensures Words(a + " " + Quoted(v)) == if NulFree(v) then Some(Words(a).value + [v]) else None
  {
    QuotedIsOneWord(v);
    AddText(a, Quoted(v));
  }

  lemma AddText(a: string, b: string)
    requires Words(a).Some?
    ensures Words(a + " " + b) == Joined(Words(a), Words(b))
  {
    WordsJoin(a, b);
    assert a + " " + b == a + (" " + b);
  }

  lemma AddTwoPlain(a: string, v: string, w: string)
    requires Words(a).Some? && PlainWord(v) && PlainWord(w)
    ensures Words(a + (" " + v + " " + w)) == Some(Words(a).value + [v, w])
  {
    AddPlain(a, v);
    AddPlain(a + " " + v, w);
    TwoSpaced(a, v, w);
    assert Words(a).value + [v] + [w] == Words(a).value + [v, w];
  }

  lemma TwoSpaced(a: string, v: string, w: string)
    ensures a + (" " + v + " " + w) == a + " " + v + " " + w
  {
  }

  lemma CodexShape(command: string, head: string, exec: string, flag: string, sandbox: string,
                   tail: string, json: string, prompt: string)
    requires Words(command).Some? && Words(sandbox).Some? && PlainWord(exec) && PlainWord(flag) && PlainWord(json)
    requires head == " " + exec + " " + flag + " " && tail == " " + json + " "
    ensures Words(command + head + sandbox + tail + Quoted(prompt))
         == if NulFree(prompt)
            then Some(Words(command).value + [exec, flag] + Words(sandbox).value + [json] + [prompt]) else None
  {
    AddTwoPlain(command, exec, flag);
    var c1 := command + (" " + exec + " " + flag);
    AddText(c1, sandbox);
    var c2 := c1 + " " + sandbox;
    AddPlain(c2, json);
    AddQuoted(c2 + " " + json, prompt);
    assert command + head == c1 + " ";
    assert command + head + sandbox == c2;
    assert c2 + tail == c2 + " " + json + " ";
  }

  /** However the prompt is written, the codex binary receives it whole, as its last argument. */
  lemma CodexArguments(command: string, sandbox: string, prompt: string)
    requires Words(command).Some? && Words(sandbox).Some?
    ensures Words(CodexCommand(command, sandbox, prompt)) == if NulFree(prompt)
      then Some(Words(command).value + ["exec", "--sandbox"] + Words(sandbox).value + ["--json"] + [prompt]) else None
  {
    CodexShape(command, " exec --sandbox ", "exec", "--sandbox", sandbox, " --json ", "--json", prompt);
  }

  lemma ClaudeShape(command: string, head: string, bare: string, flag: string, prompt: string,
                    format: string, output: string, json: string, limit: string, turns: string, number: string)
    requires Words(command).Some? && PlainWord(bare) && PlainWord(flag)
    requires PlainWord(output) && PlainWord(json) && PlainWord(turns) && PlainWord(number)
    requires head == " " + bare + " " + flag + " " && format == " " + output + " " + json && limit == " " + turns + " "
    requires NulFree(prompt)
    ensures Words(command + head + Quoted(prompt) + (format + limit) + number)
         == Some(Words(command).value + [bare, flag] + [prompt] + [output, json] + [turns, number])
  {
    AddTwoPlain(command, bare, flag);
    var c1 := command + (" " + bare + " " + flag);
    AddQuoted(c1, prompt);
    var c2 := c1 + " " + Quoted(prompt);
    AddTwoPlain(c2, output, json);
    var c3 := c2 + (" " + output + " " + json);
    AddTwoPlain(c3, turns, number);
    ClaudeText(command, head, " " + bare + " " + flag, Quoted(prompt), format, limit, turns, number);
  }

  lemma ClaudeText(command: string, head: string, flags: string, quoted: string, format: string, limit: string,
                   turns: string, number: string)
    requires head == flags + " " && limit == " " + turns + " "
    ensures command + head + quoted + (format + limit) + number
         == command + flags + " " + quoted + format + (" " + turns + " " + number)
  {
    assert command + head + quoted == command + flags + " " + quoted;
    var c := command + flags + " " + quoted;
    assert c + (format + limit) + number == c + format + (limit + number);
    assert limit + number == " " + turns + " " + number;
  }

  lemma ClaudeWords()
    ensures PlainWord("--bare") && PlainWord("-p") && " --bare -p " == " " + "--bare" + " " + "-p" + " "
    ensures PlainWord("--max-turns") && " --max-turns " == " " + "--max-turns" + " "
  {
  }

  lemma ClaudeFormatWords()
    ensures PlainWord("--output-format") && PlainWord("json")
    ensures " --output-format json" == " " + "--output-format" + " " + "json"
  {
  }

  /** A text in two parts has no NUL just when neither part has. */
  lemma NulFreeParts(a: string, b: string)
    ensures NulFree(a + b) <==> NulFree(a) && NulFree(b)
  {
    if NulFree(a + b) {
      forall i | 0 <= i < |a| ensures a[i] != '\0' {
        assert (a + b)[i] == a[i];
      }
      forall i | 0 <= i < |b| ensures b[i] != '\0' {
        assert (a + b)[|a| + i] == b[i];
      }
    }
  }

  /** What a word takes from the text has no NUL. */
  lemma {:induction false} LexedNulFree(t: string, quoted: bool) returns (taken: string)
    requires LexWord(t, quoted).Some?
    ensures t == taken + LexWord(t, quoted).value.rest && NulFree(taken)
  {
    if t == "" || (!quoted && Delimiter(t[0])) {
      taken := "";
    } else if !quoted && t[0] == '\\' {
      var more := LexedNulFree(t[2..], false);
      taken := [t[0], t[1]] + more;
    } else {
      var more := LexedNulFree(t[1..], if t[0] == '\'' then !quoted else quoted);
      taken := [t[0]] + more;
    }
  }

  /** A text with a NUL anywhere has no words. */
  lemma {:induction false} WordsNulFree(t: string)
    requires Words(t).Some?
    ensures NulFree(t)
    decreases |t|
  {
    if t == "" {
    } else if Blank(t[0]) {
      WordsNulFree(t[1..]);
    } else if |t| >= 2 && t[0] == '\\' && t[1] == '\n' {
      WordsNulFree(t[2..]);
    } else {
      LexWordShortens(t, false);
      var taken := LexedNulFree(t, false);
      WordsNulFree(LexWord(t, false).value.rest);
      NulFreeParts(taken, LexWord(t, false).value.rest);
    }
  }

  lemma {:induction false} QuotedNulFree(v: string)
    requires NulFree(QuotedBody(v))
    ensures NulFree(v)
  {
    if v != "" {
      NulFreeParts(if v[0] == '\'' then "'\\''" else [v[0]], QuotedBody(v[1..]));
      QuotedNulFree(v[1..]);
      if v[0] != '\'' {
        assert [v[0]][0] != '\0';
      }
    }
  }

  lemma QuotedInside(before: string, v: string, behind: string)
    requires NulFree(before + Quoted(v) + behind)
    ensures NulFree(v)
  {
    NulFreeParts(before + Quoted(v), behind);
    NulFreeParts(before, Quoted(v));
    NulFreeParts("'" + QuotedBody(v), "'");
    NulFreeParts("'", QuotedBody(v));
    QuotedNulFree(v);
  }

  /** The claude binary receives the prompt whole, as the argument of `-p`, exactly when it has no NUL. */
  lemma ClaudeArguments(command: string, maxTurns: nat, prompt: string)
    requires Words(command).Some?
    ensures Words(ClaudeCodeCommand(command, maxTurns, prompt)) == if NulFree(prompt)
      then Some(Words(command).value + ["--bare", "-p"] + [prompt] + ["--output-format", "json"]
                + ["--max-turns", Text.Decimal(maxTurns)])
      else None
  {
    if NulFree(prompt) {
      ClaudeReceives(command, maxTurns, prompt);
    } else if Words(ClaudeCodeCommand(command, maxTurns, prompt)).Some? {
      WordsNulFree(ClaudeCodeCommand(command, maxTurns, prompt));
      ClaudeNulFree(command, maxTurns, prompt);
    }
  }

  lemma ClaudeNulFree(command: string, maxTurns: nat, prompt: string)
    requires NulFree(ClaudeCodeCommand(command, maxTurns, prompt))
    ensures NulFree(prompt)
  {
    var format := " --output-format json" + " --max-turns ";
    NulFreeParts(command + " --bare -p " + Quoted(prompt) + format, Text.Decimal(maxTurns));
    QuotedInside(command + " --bare -p ", prompt, format);
  }

  lemma ClaudeReceives(command: string, maxTurns: nat, prompt: string)
    requires Words(command).Some? && NulFree(prompt)
    ensures Words(ClaudeCodeCommand(command, maxTurns, prompt))
         == Some(Words(command).value + ["--bare", "-p"] + [prompt] + ["--output-format", "json"]
                 + ["--max-turns", Text.Decimal(maxTurns)])
  {
    ClaudeWords();
    ClaudeFormatWords();
    assert PlainWord(Text.Decimal(maxTurns));
    ClaudeShape(command, " --bare -p ", "--bare", "-p", prompt,
                " --output-format json", "--output-format", "json", " --max-turns ", "--max-turns",
                Text.Decimal(maxTurns));
  }
}
