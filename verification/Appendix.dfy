/** The tool results stored behind a reply, read back. */
module Appendix {
  import opened Options
  import opened Text
  import opened Sanitize

  const EXIT := " exit="

  /** Where a pattern occurs last, at or before position `i`. */
  function LastFrom(s: string, pattern: string, i: nat): (r: Option<nat>)
    ensures r.Some? ==> r.value <= i && OccursAt(s, pattern, r.value)
    ensures forall j: nat :: (if r.Some? then r.value < j <= i else j <= i) ==> !OccursAt(s, pattern, j)
  {
    if OccursAt(s, pattern, i) then Some(i) else if i == 0 then None else LastFrom(s, pattern, i - 1)
  }

  predicate Digits(s: string) {
    s != "" && forall i :: 0 <= i < |s| ==> '0' <= s[i] <= '9'
  }

  function ReadInt(s: string): Option<int> {
    if Digits(s) then Some(ReadDecimal(s))
    else if s != "" && s[0] == '-' && Digits(s[1..]) then Negated(ReadDecimal(s[1..]))
    else None
  }

  function Negated(n: int): Option<int> {
    Some(-n)
  }

  /** A header line and the text behind it. */
  datatype Header = Header(name: string, exitCode: int, rest: string)

  function ReadLine(line: string, rest: string): Option<Header> {
    if |line| < 2 || line[0] != '[' || line[|line| - 1] != ']' then None
    else
      var inside := line[1..|line| - 1];
      match LastFrom(inside, EXIT, |inside|)
      case None => None
      case Some(k) =>
        if k + |EXIT| > |inside| then None
        else match ReadInt(inside[k + |EXIT|..])
          case None => None
          case Some(code) => Some(Header(inside[..k], code, rest))
  }

  function ReadHeader(t: string): Option<Header> {
    match Find(t, "\n")
    case None => None
    case Some(k) => if k >= |t| then None else ReadLine(t[..k], t[k + 1..])
  }

  // ----- numbers -----

  lemma DigitsRead(s: string)
    requires Digits(s)
    ensures ReadInt(s) == Some(ReadDecimal(s))
  {
  }

  lemma NegativeReads(s: string)
    requires Digits(s)
    ensures ReadInt("-" + s) == Negated(ReadDecimal(s))
  {
    var t := "-" + s;
    assert t[0] == '-' && t[1..] == s;
    assert !Digits(t);
  }

  lemma ShowIntReads(n: int)
    ensures ReadInt(ShowInt(n)) == Some(n)
  {
    DecimalReads(if n < 0 then -n else n);
    if n < 0 {
      NegativeReads(Decimal(-n));
    } else {
      DigitsRead(Decimal(n));
    }
  }

  lemma ShowIntPlain(n: int, c: char)
    requires c == ' ' || c == '\n'
    ensures c !in ShowInt(n)
  {
    var d := Decimal(if n < 0 then -n else n);
    assert c !in d;
    assert ShowInt(n) == d || ShowInt(n) == "-" + d;
  }

  lemma LateOccurrence(name: string, pattern: string, number: string, j: nat)
    requires pattern != "" && ' ' !in number && pattern[0] == ' ' && ' ' !in pattern[1..]
    requires |name| < j <= |name + pattern + number|
    ensures !OccursAt(name + pattern + number, pattern, j)
  {
    var s := name + pattern + number;
    if j < |s| {
      assert s[j] == (if j < |name| + |pattern| then pattern[1..][j - |name| - 1] else number[j - |name| - |pattern|]);
      assert s[j] != ' ';
      assert |s[j..]| > 0 && s[j..][0] == s[j];
      if j + |pattern| <= |s| {
        assert s[j..j + |pattern|][0] == s[j];
      }
    }
  }

  /** Behind the name, ` exit=` occurs nowhere in a number. */
  lemma LastExit(name: string, pattern: string, number: string)
    requires pattern != "" && ' ' !in number && pattern[0] == ' ' && ' ' !in pattern[1..]
    ensures var s := name + pattern + number; LastFrom(s, pattern, |s|) == Some(|name|)
  {
    var s := name + pattern + number;
    assert s[|name|..|name| + |pattern|] == pattern;
    forall j: nat | |name| < j <= |s| ensures !OccursAt(s, pattern, j) {
      LateOccurrence(name, pattern, number, j);
    }
    LastUnique(s, pattern, |s|, |name|);
  }

  lemma {:induction false} LastUnique(s: string, pattern: string, i: nat, k: nat)
    requires k <= i && OccursAt(s, pattern, k) && forall j: nat :: k < j <= i ==> !OccursAt(s, pattern, j)
    ensures LastFrom(s, pattern, i) == Some(k)
  {
    if i > k {
      LastUnique(s, pattern, i - 1, k);
    }
  }

  // ----- one entry -----

  lemma Brackets(inside: string)
    ensures var line := "[" + inside + "]";
      |line| >= 2 && line[0] == '[' && line[|line| - 1] == ']' && line[1..|line| - 1] == inside
  {
  }

  lemma InsideParts(name: string, pattern: string, number: string)
    ensures var inside := name + pattern + number;
      inside[..|name|] == name && inside[|name| + |pattern|..] == number
  {
  }

  lemma LineReads(name: string, code: int, rest: string)
    ensures ReadLine("[" + (name + EXIT + ShowInt(code)) + "]", rest) == Some(Header(name, code, rest))
  {
    Brackets(name + EXIT + ShowInt(code));
    ShowIntReads(code);
    ShowIntPlain(code, ' ');
    LastExit(name, EXIT, ShowInt(code));
    InsideParts(name, EXIT, ShowInt(code));
  }

  lemma FirstNewline(line: string, rest: string)
    requires '\n' !in line
    ensures Find(line + "\n" + rest, "\n") == Some(|line|)
    ensures (line + "\n" + rest)[..|line|] == line && (line + "\n" + rest)[|line| + 1..] == rest
  {
    var t := line + "\n" + rest;
    assert t[|line|..|line| + 1] == "\n";
    forall j: nat | j < |line| ensures !OccursAt(t, "\n", j) {
      assert t[j..j + 1][0] == line[j];
    }
    FindUnique(t, "\n", |line|);
  }

  /** The header of an entry, without its newline. */
  function Title(t: ToolPersistEntry): string {
    "[" + (t.name + EXIT + ShowInt(t.exitCode)) + "]"
  }

  lemma HeaderIsTitle(t: ToolPersistEntry)
    ensures EntryHeader(t) == Title(t) + "\n"
  {
  }

  lemma TitleHasNoNewline(name: string, pattern: string, number: string)
    requires '\n' !in name && '\n' !in pattern && '\n' !in number
    ensures '\n' !in "[" + (name + pattern + number) + "]"
  {
  }

  lemma Regroup(a: string, b: string, body: string, end: string, rest: string)
    ensures a + b + (body + end) + rest == a + b + (body + end + rest)
  {
  }

  /** What is stored of a tool call reads back: its name, its exit code, and then its output on lines of its own. */
  lemma EntryReads(t: ToolPersistEntry, rest: string)
    requires '\n' !in t.name
    ensures ReadHeader(PersistedEntry(t) + rest)
         == Some(Header(t.name, t.exitCode,
                        t.body + (if t.body != "" && t.body[|t.body| - 1] == '\n' then "" else "\n") + rest))
  {
    var behind := t.body + FinalNewline(t.body) + rest;
    HeaderIsTitle(t);
    Regroup(Title(t), "\n", t.body, FinalNewline(t.body), rest);
    ShowIntPlain(t.exitCode, '\n');
    TitleHasNoNewline(t.name, EXIT, ShowInt(t.exitCode));
    FirstNewline(Title(t), behind);
    LineReads(t.name, t.exitCode, behind);
  }

  // ----- all of them -----

  lemma {:induction false} EntriesAppend(a: seq<ToolPersistEntry>, b: seq<ToolPersistEntry>)
    ensures PersistedEntries(a + b) == PersistedEntries(a) + PersistedEntries(b)
  {
    if b == [] {
      assert a + b == a;
      assert PersistedEntries(a) + "" == PersistedEntries(a);
    } else {
      assert (a + b)[..|a + b| - 1] == a + b[..|b| - 1];
      EntriesAppend(a, b[..|b| - 1]);
      Associates(PersistedEntries(a), PersistedEntries(b[..|b| - 1]), PersistedEntry(b[|b| - 1]));
    }
  }

  /** A text followed by the tool results from the `i`-th on. */
  predicate StandsAt(stored: string, finalText: string, tools: seq<ToolPersistEntry>, i: nat, place: nat)
    requires i < |tools|
  {
    && finalText <= stored && place <= |stored|
    && place == |finalText| + |TOOL_RESULTS_MARKER| + |PersistedEntries(tools[..i])|
    && stored[place..] == PersistedEntry(tools[i]) + PersistedEntries(tools[i + 1..])
  }

  lemma AssistantIs(finalText: string, tools: seq<ToolPersistEntry>)
    requires tools != []
    ensures PersistedAssistant(finalText, tools) == finalText + TOOL_RESULTS_MARKER + PersistedEntries(tools)
  {
  }

  /** The stored reply is the text, then every tool call in order, each on its own. */
  lemma EntryStands(finalText: string, tools: seq<ToolPersistEntry>, i: nat) returns (place: nat)
    requires i < |tools|
    ensures StandsAt(PersistedAssistant(finalText, tools), finalText, tools, i, place)
  {
    EntriesInParts(tools, i);
    AssistantIs(finalText, tools);
    place := Layout(finalText, TOOL_RESULTS_MARKER, PersistedEntries(tools[..i]), PersistedEntry(tools[i]),
                    PersistedEntries(tools[i + 1..]), PersistedEntries(tools));
  }

  lemma Layout(text: string, marker: string, before: string, entry: string, behind: string, all: string)
    returns (place: nat)
    requires all == before + entry + behind
    ensures var stored := text + marker + all;
      text <= stored && place <= |stored| && stored[place..] == entry + behind
    ensures place == |text| + |marker| + |before|
  {
    place := |text| + |marker| + |before|;
  }

  /** Each stored tool call reads back from its place: its name and exit code, then its output. */
  lemma StoredReads(finalText: string, tools: seq<ToolPersistEntry>, i: nat) returns (rest: string)
    requires i < |tools| && '\n' !in tools[i].name
    ensures exists before :: PersistedAssistant(finalText, tools) == before + rest && finalText <= before
    ensures var h := ReadHeader(rest);
      && h.Some? && h.value.name == tools[i].name && h.value.exitCode == tools[i].exitCode
      && tools[i].body <= h.value.rest
  {
    var stored := PersistedAssistant(finalText, tools);
    var place := EntryStands(finalText, tools, i);
    rest := stored[place..];
    Apart(stored, finalText, place);
    EntryReads(tools[i], PersistedEntries(tools[i + 1..]));
  }

  lemma Apart(stored: string, finalText: string, place: nat)
    requires finalText <= stored && |finalText| <= place <= |stored|
    ensures exists before :: stored == before + stored[place..] && finalText <= before
  {
    assert stored == stored[..place] + stored[place..] && finalText <= stored[..place];
  }

  lemma EntriesInParts(tools: seq<ToolPersistEntry>, i: nat)
    requires i < |tools|
    ensures PersistedEntries(tools)
         == PersistedEntries(tools[..i]) + PersistedEntry(tools[i]) + PersistedEntries(tools[i + 1..])
  {
    assert tools == tools[..i + 1] + tools[i + 1..];
    EntriesAppend(tools[..i + 1], tools[i + 1..]);
    EntriesUpTo("", tools, i);
    Leading(PersistedEntries(tools[..i + 1]));
    Leading(PersistedEntries(tools[..i]));
  }

  lemma Leading(s: string)
    ensures "" + s == s
  {
  }

  // ----- echoed lines -----

  predicate Bracketed(t: string, a: string, pattern: string, b: string) {
    t == "[" + a + pattern + b + "]"
  }

  lemma FromBrackets(t: string, a: string, pattern: string, b: string)
    requires Bracketed(t, a, pattern, b)
    ensures t != "" && t[0] == '[' && t[|t| - 1] == ']' && Contains(t, pattern)
  {
    assert t[|a| + 1..|a| + 1 + |pattern|] == pattern;
    assert OccursAt(t, pattern, |a| + 1);
  }

  lemma ToBrackets(t: string, pattern: string)
    requires t != "" && t[0] == '[' && t[|t| - 1] == ']' && Contains(t, pattern)
    requires pattern != "" && pattern[0] != '[' && pattern[|pattern| - 1] != ']'
    ensures exists a, b :: Bracketed(t, a, pattern, b)
  {
    var i: nat :| i <= |t| && OccursAt(t, pattern, i);
    assert t[i] == t[i..i + |pattern|][0] && t[i + |pattern| - 1] == t[i..i + |pattern|][|pattern| - 1];
    assert 0 < i && i + |pattern| < |t|;
    assert Bracketed(t, t[1..i], pattern, t[i + |pattern|..|t| - 1]);
  }

  /** A tool line is one that is, but for the blanks around it, a bracket with ` exit=` somewhere in it. */
  lemma ToolLineIff(line: string)
    ensures IsToolLine(line) <==> exists a, b :: Bracketed(Trim(line), a, EXIT, b)
  {
    var t := Trim(line);
    if IsToolLine(line) {
      ToBrackets(t, EXIT);
    }
    if a, b :| Bracketed(t, a, EXIT, b) {
      FromBrackets(t, a, EXIT, b);
    }
  }

  /** The header of a stored entry is such a line, so the sanitiser drops it from the end of a reply. */
  lemma HeaderIsToolLine(t: ToolPersistEntry)
    ensures EntryHeader(t) == Title(t) + "\n" && IsToolLine(Title(t))
  {
    HeaderIsTitle(t);
    var line, number := Title(t), ShowInt(t.exitCode);
    Brackets(t.name + EXIT + number);
    assert TrimStart(line) == line && TrimEnd(line) == line;
    assert Bracketed(line, t.name, EXIT, number);
    ToolLineIff(line);
  }
}
