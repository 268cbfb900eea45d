/** What the user sees of a reply, and the form in which the reply is stored. */
module Sanitize {
  import opened Options
  import opened Text

  const TOOL_RESULTS_HTML_COMMENT := "<!-- tool-results -->"
  const TOOL_RESULTS_MARKER := "\n\n<!-- tool-results -->\n"

  const LEAKED_TOOL_XML_MARKERS: seq<string> := [
    "<invoke ",
    "<invoke>",
    "<tool_call",
    "<minimax:tool_call",
    "</parameter>",
    "</invoke>",
    "</minimax:tool_call>"
  ]

  datatype ToolPersistEntry = ToolPersistEntry(name: string, exitCode: int, body: string)

  // ----- lines -----

  /** `str::lines`, but keeping a carriage return before a newline. */
  function RawLines(s: string): seq<string> {
    if s == "" then []
    else match Find(s, "\n")
      case None => [s]
      case Some(k) => if k >= |s| then [s] else [s[..k]] + RawLines(s[k + 1..])
  }

  predicate EndsWithCr(s: string) {
    s != "" && s[|s| - 1] == '\r'
  }

  function StripCr(s: string): string {
    if EndsWithCr(s) then s[..|s| - 1] else s
  }

  /** `str::lines`: split at newlines; a carriage return right before one goes with it. */
  function Lines(s: string): seq<string> {
    if s == "" then []
    else match Find(s, "\n")
      case None => [s]
      case Some(k) => if k >= |s| then [s] else [StripCr(s[..k])] + Lines(s[k + 1..])
  }

  function Join(lines: seq<string>): string {
    if lines == [] then ""
    else if |lines| == 1 then lines[0]
    else lines[0] + "\n" + Join(lines[1..])
  }

  // ----- the sanitiser -----

  function CutAppendix(s: string): string {
    match Find(s, TOOL_RESULTS_HTML_COMMENT)
    case Some(i) => if i <= |s| then s[..i] else s
    case None => s
  }

  function Earlier(a: Option<nat>, b: Option<nat>): Option<nat> {
    if a.None? then b else if b.None? then a else if a.value < b.value then a else b
  }

  /** The earliest occurrence of any of the markers. */
  function FirstMarker(s: string, markers: seq<string>): (r: Option<nat>)
    ensures r.Some? ==> r.value <= |s| && exists m :: m in markers && OccursAt(s, m, r.value)
    ensures forall m, j: nat :: m in markers && OccursAt(s, m, j) ==> r.Some? && r.value <= j
  {
    if markers == [] then None
    else
      assert forall m :: m in markers ==> m == markers[0] || m in markers[1..];
      Earlier(Find(s, markers[0]), FirstMarker(s, markers[1..]))
  }

  function StripLeakedToolXml(s: string): string {
    match FirstMarker(s, LEAKED_TOOL_XML_MARKERS)
    case Some(i) => TrimEnd(s[..i])
    case None => TrimEnd(s)
  }

  /** An echoed line such as `[exec exit=0]`. */
  predicate IsToolLine(line: string) {
    var t := Trim(line);
    t != "" && t[0] == '[' && Contains(t, " exit=") && t[|t| - 1] == ']'
  }

  predicate Dropped(line: string) {
    Blank(line) || IsToolLine(line)
  }

  function KeepLines(lines: seq<string>): (kept: seq<string>)
    ensures kept <= lines
    ensures kept == [] || !Dropped(kept[|kept| - 1])
    ensures forall i :: |kept| <= i < |lines| ==> Dropped(lines[i])
  {
    if lines == [] then [] else if Dropped(lines[|lines| - 1]) then KeepLines(lines[..|lines| - 1]) else lines
  }

  function TrimTrailingToolLines(s: string): string {
    TrimEnd(Join(KeepLines(Lines(s))))
  }

  function SanitizeUserReply(text: string): string {
    TrimTrailingToolLines(StripLeakedToolXml(CutAppendix(text)))
  }

  // ----- the loops -----

  lemma MarkersFrom(s: string, markers: seq<string>, i: nat)
    requires i < |markers|
    ensures FirstMarker(s, markers[i..]) == Earlier(Find(s, markers[i]), FirstMarker(s, markers[i + 1..]))
  {
    assert markers[i..][1..] == markers[i + 1..];
  }

  lemma EarlierTwice(cut: nat, found: Option<nat>, later: Option<nat>)
    ensures Earlier(Some(cut), Earlier(found, later))
         == Earlier(Some(if found.Some? && found.value < cut then found.value else cut), later)
  {
  }

  /** The cut point, lowered marker by marker. */
  method LowerCut(s: string, markers: seq<string>) returns (cut: nat)
    ensures cut == match FirstMarker(s, markers) case Some(i) => i case None => |s|
  {
    cut := |s|;
    for i := 0 to |markers|
      invariant cut <= |s|
      invariant Earlier(Some(cut), FirstMarker(s, markers[i..])) == Earlier(Some(|s|), FirstMarker(s, markers))
    {
      MarkersFrom(s, markers, i);
      EarlierTwice(cut, Find(s, markers[i]), FirstMarker(s, markers[i + 1..]));
      var found := Find(s, markers[i]);
      if found.Some? && found.value < cut {
        cut := found.value;
      }
    }
  }

  method StripLeaked(s: string) returns (r: string)
    ensures r == StripLeakedToolXml(s)
  {
    var cut := LowerCut(s, LEAKED_TOOL_XML_MARKERS);
    assert s[..|s|] == s;
    return TrimEnd(s[..cut]);
  }

  method TrimTail(s: string) returns (r: string)
    ensures r == TrimTrailingToolLines(s)
  {
    var lines := Lines(s);
    while |lines| > 0
      invariant KeepLines(lines) == KeepLines(Lines(s))
      decreases |lines|
    {
      var last := lines[|lines| - 1];
      if Blank(last) {
        lines := lines[..|lines| - 1];
        continue;
      }
      if IsToolLine(last) {
        lines := lines[..|lines| - 1];
        continue;
      }
      break;
    }
    return TrimEnd(Join(lines));
  }

  method Sanitized(text: string) returns (r: string)
    ensures r == SanitizeUserReply(text)
  {
    var s := text;
    var idx := Find(s, TOOL_RESULTS_HTML_COMMENT);
    if idx.Some? {
      s := s[..idx.value];
    }
    s := StripLeaked(s);
    r := TrimTail(s);
  }

  // ----- the persisted form -----

  function ShowInt(n: int): string {
    if n < 0 then "-" + Decimal(-n) else Decimal(n)
  }

  function EntryHeader(t: ToolPersistEntry): string {
    "[" + t.name + " exit=" + ShowInt(t.exitCode) + "]\n"
  }

  function FinalNewline(body: string): string {
    if body == "" || body[|body| - 1] != '\n' then "\n" else ""
  }

  function PersistedEntry(t: ToolPersistEntry): string {
    EntryHeader(t) + (t.body + FinalNewline(t.body))
  }

  function PersistedEntries(tools: seq<ToolPersistEntry>): string {
    if tools == [] then "" else PersistedEntries(tools[..|tools| - 1]) + PersistedEntry(tools[|tools| - 1])
  }

  function PersistedAssistant(finalText: string, tools: seq<ToolPersistEntry>): string {
    if tools == [] then finalText else finalText + TOOL_RESULTS_MARKER + PersistedEntries(tools)
  }

  method PushEntry(text: string, t: ToolPersistEntry) returns (s: string)
    ensures s == text + PersistedEntry(t)
  {
    var header := EntryHeader(t);
    s := text + header + t.body;
    if t.body == "" || t.body[|t.body| - 1] != '\n' {
      s := s + "\n";
    }
    assert s == text + (header + (t.body + FinalNewline(t.body)));
  }

  lemma EntriesUpTo(text: string, tools: seq<ToolPersistEntry>, i: nat)
    requires i < |tools|
    ensures text + PersistedEntries(tools[..i + 1]) == text + PersistedEntries(tools[..i]) + PersistedEntry(tools[i])
  {
    assert tools[..i + 1][..i] == tools[..i];
    assert PersistedEntries(tools[..i + 1]) == PersistedEntries(tools[..i]) + PersistedEntry(tools[i]);
    Associates(text, PersistedEntries(tools[..i]), PersistedEntry(tools[i]));
  }

  method PushEntries(text: string, tools: seq<ToolPersistEntry>) returns (s: string)
    ensures s == text + PersistedEntries(tools)
  {
    s := text;
    for i := 0 to |tools|
      invariant s == text + PersistedEntries(tools[..i])
    {
      EntriesUpTo(text, tools, i);
      s := PushEntry(s, tools[i]);
    }
    assert tools[..|tools|] == tools;
  }

  method BuildPersistedAssistant(finalText: string, tools: seq<ToolPersistEntry>) returns (s: string)
    ensures s == PersistedAssistant(finalText, tools)
  {
    if tools == [] {
      return finalText;
    }
    s := PushEntries(finalText + TOOL_RESULTS_MARKER, tools);
  }

  // ----- live reply and reloaded history agree -----

  lemma MarkersHaveNoNewline()
    ensures '\n' !in TOOL_RESULTS_HTML_COMMENT && TOOL_RESULTS_HTML_COMMENT != ""
    ensures forall m :: m in LEAKED_TOOL_XML_MARKERS ==> '\n' !in m && m != ""
  {
  }

  /** Newlines after a text neither add nor hide an occurrence. */
  lemma FindBeforeNewlines(s: string, pattern: string)
    requires '\n' !in pattern && pattern != ""
    ensures Find(s + "\n\n", pattern) == Find(s, pattern)
  {
    assert s + "\n\n" == s + "\n" + "\n" && s + "\n" + "\n" == s + "\n" + ("\n" + "");
    forall j: nat ensures OccursAt(s + "\n\n", pattern, j) <==> OccursAt(s, pattern, j) {
      if OccursAt(s + "\n\n", pattern, j) {
        NoStraddle(s, "\n", pattern, j);
        if j > |s| {
          NoStraddle("", "", pattern, j - |s| - 1);
        }
      }
      if OccursAt(s, pattern, j) {
        OccursInLeft(s, "\n\n", pattern, j);
      }
    }
    match Find(s, pattern) {
      case Some(i) => FindUnique(s + "\n\n", pattern, i);
      case None =>
    }
  }

  lemma {:induction false} FirstMarkerBeforeNewlines(s: string, markers: seq<string>)
    requires forall m :: m in markers ==> '\n' !in m && m != ""
    ensures FirstMarker(s + "\n\n", markers) == FirstMarker(s, markers)
  {
    if markers != [] {
      FindBeforeNewlines(s, markers[0]);
      FirstMarkerBeforeNewlines(s, markers[1..]);
    }
  }

  lemma StripIgnoresNewlines(s: string)
    ensures StripLeakedToolXml(s + "\n\n") == StripLeakedToolXml(s)
  {
    MarkersHaveNoNewline();
    StripBeforeNewlines(s, LEAKED_TOOL_XML_MARKERS);
  }

  lemma StripBeforeNewlines(s: string, markers: seq<string>)
    requires forall m :: m in markers ==> '\n' !in m && m != ""
    ensures var before, behind := FirstMarker(s, markers), FirstMarker(s + "\n\n", markers);
      before == behind && TrimEnd(s + "\n\n") == TrimEnd(s)
      && (before.Some? ==> (s + "\n\n")[..before.value] == s[..before.value])
  {
    FirstMarkerBeforeNewlines(s, markers);
    SameText(s, "\n\n", FirstMarker(s, markers));
  }

  lemma SameText(s: string, space: string, cut: Option<nat>)
    requires AllWhitespace(space) && (cut.Some? ==> cut.value <= |s|)
    ensures TrimEnd(s + space) == TrimEnd(s)
    ensures cut.Some? ==> (s + space)[..cut.value] == s[..cut.value]
  {
    TrimEndAppendSpace(s, space);
  }

  /** In a text followed by two newlines and a marker, the marker is first found where the text
      already has it, or else right after the two newlines. */
  lemma FindAppended(t: string, c: string, rest: string)
    requires '\n' !in c && c != ""
    ensures Find(t + "\n" + ("\n" + (c + rest)), c)
         == match Find(t, c) case Some(i) => Some(i) case None => Some(|t| + 2)
  {
    var tail := "\n" + (c + rest);
    var p := t + "\n" + tail;
    match Find(t, c) {
      case Some(i) =>
        assert p == t + ("\n" + tail);
        forall j: nat | j <= i ensures OccursAt(p, c, j) <==> OccursAt(t, c, j) {
          OccursInLeft(t, "\n" + tail, c, j);
        }
        FindUnique(p, c, i);
      case None =>
        assert "" + "\n" + (c + rest) == tail;
        forall j: nat | j < |t| + 2 ensures !OccursAt(p, c, j) {
          if OccursAt(p, c, j) {
            NoStraddle(t, tail, c, j);
            NoStraddle("", c + rest, c, j - |t| - 1);
          }
        }
        assert p[|t| + 2..|t| + 2 + |c|] == c;
        FindUnique(p, c, |t| + 2);
    }
  }

  lemma MarkerParts()
    ensures TOOL_RESULTS_MARKER == "\n" + ("\n" + (TOOL_RESULTS_HTML_COMMENT + "\n"))
  {
  }

  lemma AppendixLayout(t: string, rest: string, c: string, marker: string)
    requires marker == "\n" + ("\n" + (c + "\n"))
    ensures t + marker + rest == t + "\n" + ("\n" + (c + ("\n" + rest)))
    ensures (t + marker + rest)[..|t| + 2] == t + "\n\n"
  {
    assert marker + rest == "\n" + ("\n" + (c + ("\n" + rest)));
    assert t + marker + rest == t + (marker + rest);
    assert (marker + rest)[..2] == "\n\n";
  }

  lemma CutAtFirst(t: string, c: string, p: string, rest: string)
    requires '\n' !in c && c != "" && p == t + "\n" + ("\n" + (c + rest)) && p[..|t| + 2] == t + "\n\n"
    ensures Find(p, c).Some? && Find(p, c).value <= |p|
    ensures p[..Find(p, c).value] == match Find(t, c) case Some(i) => t[..i] case None => t + "\n\n"
  {
    FindAppended(t, c, rest);
    if Find(t, c).Some? {
      var i := Find(t, c).value;
      assert p[..i] == t[..i];
    }
  }

  /** The appendix starts at the comment the text already had, or else at the one appended. */
  lemma CutOfPersisted(t: string, rest: string)
    ensures CutAppendix(t + TOOL_RESULTS_MARKER + rest) ==
            if Find(t, TOOL_RESULTS_HTML_COMMENT).Some? then CutAppendix(t) else t + "\n\n"
  {
    var c := TOOL_RESULTS_HTML_COMMENT;
    MarkersHaveNoNewline();
    MarkerParts();
    AppendixLayout(t, rest, c, TOOL_RESULTS_MARKER);
    CutAtFirst(t, c, t + TOOL_RESULTS_MARKER + rest, "\n" + rest);
  }

  /** Sanitising the stored form of a reply gives exactly what the user saw live, for every text
      and every list of tool results. */
  lemma PersistedSanitizesAlike(t: string, tools: seq<ToolPersistEntry>)
    ensures SanitizeUserReply(PersistedAssistant(t, tools)) == SanitizeUserReply(t)
  {
    if tools != [] {
      CutOfPersisted(t, PersistedEntries(tools));
      if Find(t, TOOL_RESULTS_HTML_COMMENT).None? {
        StripIgnoresNewlines(t);
      }
    }
  }
}
