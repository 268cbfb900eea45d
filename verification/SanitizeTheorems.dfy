/** What sanitising keeps and removes, for every text. */
module SanitizeTheorems {
  import opened Options
  import opened Text
  import opened Sanitize

  // ----- lines -----

  /** A text that is not empty is its first line, or its first line, a newline and the rest. */
  lemma FirstLine(s: string)
    requires s != ""
    ensures Find(s, "\n").Some? ==> Find(s, "\n").value < |s| && s[Find(s, "\n").value] == '\n'
    ensures '\n' !in (match Find(s, "\n") case Some(k) => s[..k] case None => s)
  {
    var end := match Find(s, "\n") case Some(k) => k case None => |s|;
    forall i | 0 <= i < end ensures s[i] != '\n' {
      assert !OccursAt(s, "\n", i);
      assert s[i..i + 1] == [s[i]];
    }
    if Find(s, "\n").Some? {
      assert s[end..end + 1] == [s[end]];
    }
  }

  lemma {:induction false} LinesLength(s: string)
    ensures |Lines(s)| == |RawLines(s)| && (s != "" ==> |Lines(s)| > 0)
    decreases |s|
  {
    if s != "" {
      FirstLine(s);
      if Find(s, "\n").Some? {
        LinesLength(s[Find(s, "\n").value + 1..]);
      }
    }
  }

  predicate NoNewlines(lines: seq<string>) {
    forall i :: 0 <= i < |lines| ==> '\n' !in lines[i]
  }

  lemma {:induction false} LinesHaveNoNewline(s: string)
    ensures NoNewlines(Lines(s))
    decreases |s|
  {
    if s != "" {
      FirstLine(s);
      if Find(s, "\n").Some? {
        LinesHaveNoNewline(s[Find(s, "\n").value + 1..]);
      }
    }
  }

  /** How the lines of a text with a newline decompose. */
  lemma LinesStep(s: string)
    requires s != "" && Find(s, "\n").Some?
    ensures var k := Find(s, "\n").value;
            && k < |s| && s[k] == '\n' && '\n' !in s[..k]
            && Lines(s) == [StripCr(s[..k])] + Lines(s[k + 1..])
            && RawLines(s) == [s[..k]] + RawLines(s[k + 1..])
  {
    FirstLine(s);
  }

  lemma OccursInSuffix(s: string, k: nat, pattern: string)
    requires k <= |s| && exists j: nat :: OccursAt(s[k..], pattern, j)
    ensures exists j: nat :: OccursAt(s, pattern, j)
  {
    var j: nat :| OccursAt(s[k..], pattern, j);
    assert s[k..] == s[k..|s|];
    OccursInPart(s, k, |s|, pattern, j);
  }

  /** What occurs in a line of a text occurs in the text. */
  lemma {:induction false} OccursInLine(s: string, n: nat, pattern: string, i: nat)
    requires n < |Lines(s)| && OccursAt(Lines(s)[n], pattern, i)
    ensures exists j: nat :: OccursAt(s, pattern, j)
    decreases |s|, 1
  {
    if Find(s, "\n").None? {
    } else {
      LinesStep(s);
      var k := Find(s, "\n").value;
      if n == 0 {
        OccursInPrefix(s, StripCr(s[..k]), pattern, i);
      } else {
        OccursInRest(s, k, n, pattern, i);
      }
    }
  }

  lemma {:induction false} OccursInRest(s: string, k: nat, n: nat, pattern: string, i: nat)
    requires k < |s| && n > 0 && n - 1 < |Lines(s[k + 1..])| && OccursAt(Lines(s[k + 1..])[n - 1], pattern, i)
    ensures exists j: nat :: OccursAt(s, pattern, j)
    decreases |s|, 0
  {
    OccursInLine(s[k + 1..], n - 1, pattern, i);
    OccursInSuffix(s, k + 1, pattern);
  }

  lemma OccursInPrefix(s: string, p: string, pattern: string, j: nat)
    requires p <= s && OccursAt(p, pattern, j)
    ensures OccursAt(s, pattern, j)
  {
    assert p == s[0..|p|];
    OccursInPart(s, 0, |p|, pattern, j);
  }

  /** An occurrence of a pattern without newlines in joined lines lies inside one line. */
  lemma {:induction false} OccursInJoined(lines: seq<string>, pattern: string, i: nat) returns (n: nat, j: nat)
    requires '\n' !in pattern && pattern != "" && OccursAt(Join(lines), pattern, i)
    ensures n < |lines| && OccursAt(lines[n], pattern, j)
  {
    if |lines| == 1 {
      n, j := 0, i;
    } else {
      NoStraddle(lines[0], Join(lines[1..]), pattern, i);
      if i + |pattern| <= |lines[0]| {
        n, j := 0, i;
      } else {
        n, j := OccursInJoined(lines[1..], pattern, i - |lines[0]| - 1);
        n := n + 1;
      }
    }
  }

  // ----- no marker survives -----

  predicate MarkerFree(s: string) {
    && Find(s, TOOL_RESULTS_HTML_COMMENT).None?
    && FirstMarker(s, LEAKED_TOOL_XML_MARKERS).None?
  }

  lemma PrefixFree(s: string, cut: nat, pattern: string)
    requires cut <= |s| && forall j: nat :: OccursAt(s, pattern, j) ==> cut <= j
    requires pattern != ""
    ensures forall j: nat :: !OccursAt(s[..cut], pattern, j)
  {
    forall j: nat ensures !OccursAt(s[..cut], pattern, j) {
      if OccursAt(s[..cut], pattern, j) {
        OccursInPart(s, 0, cut, pattern, j);
      }
    }
  }

  /** If no marker occurs anywhere, none is found. */
  lemma NoneFound(s: string, markers: seq<string>)
    requires forall m, j: nat :: m in markers ==> !OccursAt(s, m, j)
    ensures FirstMarker(s, markers).None?
  {
  }

  lemma CutIsFree(text: string)
    ensures CutAppendix(text) <= text
    ensures forall j: nat :: !OccursAt(CutAppendix(text), TOOL_RESULTS_HTML_COMMENT, j)
  {
    MarkersHaveNoNewline();
    if Find(text, TOOL_RESULTS_HTML_COMMENT).Some? {
      PrefixFree(text, Find(text, TOOL_RESULTS_HTML_COMMENT).value, TOOL_RESULTS_HTML_COMMENT);
    }
  }

  lemma NoMarkerLeft(a: string, markers: seq<string>, cut: nat, r: string)
    requires cut == (match FirstMarker(a, markers) case Some(i) => i case None => |a|)
    requires r == TrimEnd(a[..cut]) && forall m :: m in markers ==> m != ""
    ensures r <= a && FirstMarker(r, markers).None?
  {
    TrimEndSplits(a[..cut]);
    forall m, j: nat | m in markers ensures !OccursAt(r, m, j) {
      StripAvoids(a, cut, r, m, j);
    }
    NoneFound(r, markers);
  }

  /** Cutting at the first markers leaves a prefix without any. */
  lemma StripIsFree(text: string)
    ensures StripLeakedToolXml(CutAppendix(text)) <= text
    ensures MarkerFree(StripLeakedToolXml(CutAppendix(text)))
  {
    var c, a := TOOL_RESULTS_HTML_COMMENT, CutAppendix(text);
    MarkersHaveNoNewline();
    CutIsFree(text);
    var cut := match FirstMarker(a, LEAKED_TOOL_XML_MARKERS) case Some(i) => i case None => |a|;
    assert a[..|a|] == a;
    var r := TrimEnd(a[..cut]);
    NoMarkerLeft(a, LEAKED_TOOL_XML_MARKERS, cut, r);
    forall j: nat ensures !OccursAt(r, c, j) {
      if OccursAt(r, c, j) {
        OccursInPrefix(a, r, c, j);
      }
    }
  }

  lemma StripAvoids(a: string, cut: nat, r: string, m: string, j: nat)
    requires cut <= |a| && r <= a[..cut] && m != ""
    requires forall i: nat :: OccursAt(a, m, i) ==> cut <= i
    ensures !OccursAt(r, m, j)
  {
    PrefixFree(a, cut, m);
    if OccursAt(r, m, j) {
      OccursInPrefix(a[..cut], r, m, j);
    }
  }

  /** A pattern without newlines that occurs in the result occurs in what was left after the cuts. */
  lemma KeptOccurs(u: string, pattern: string, i: nat)
    requires '\n' !in pattern && pattern != "" && OccursAt(TrimTrailingToolLines(u), pattern, i)
    ensures exists j: nat :: OccursAt(u, pattern, j)
  {
    var kept := KeepLines(Lines(u));
    TrimEndSplits(Join(kept));
    OccursInPrefix(Join(kept), TrimEnd(Join(kept)), pattern, i);
    var n, j := OccursInJoined(kept, pattern, i);
    assert kept[n] == Lines(u)[n];
    OccursInLine(u, n, pattern, j);
  }

  /** The sanitised text contains neither the appendix comment nor any leaked markup. */
  lemma ResultMarkerFree(text: string)
    ensures MarkerFree(SanitizeUserReply(text))
  {
    var u := StripLeakedToolXml(CutAppendix(text));
    var r := SanitizeUserReply(text);
    StripIsFree(text);
    MarkersHaveNoNewline();
    forall m, j: nat | m == TOOL_RESULTS_HTML_COMMENT || m in LEAKED_TOOL_XML_MARKERS ensures !OccursAt(r, m, j) {
      if OccursAt(r, m, j) {
        KeptOccurs(u, m, j);
      }
    }
    NoneFound(r, LEAKED_TOOL_XML_MARKERS);
  }

  // ----- prefix -----

  /** The raw line ends in a carriage return that the newline after it takes along. */
  predicate LosesCr(raw: seq<string>, n: nat) {
    n <= |raw| && exists i :: 0 <= i < n && EndsWithCr(raw[i])
  }

  lemma {:induction false} JoinAppend(a: seq<string>, x: string)
    ensures Join(a + [x]) == if a == [] then x else Join(a) + "\n" + x
  {
    if |a| > 0 {
      assert (a + [x])[1..] == a[1..] + [x];
      JoinAppend(a[1..], x);
      if |a| > 1 {
        assert a[0] + "\n" + (Join(a[1..]) + "\n" + x) == a[0] + "\n" + Join(a[1..]) + "\n" + x;
      }
    }
  }

  /** Joining the first lines of a text, head first. */
  lemma JoinStep(s: string, k: nat, n: nat, x: string)
    requires s != "" && Find(s, "\n") == Some(k) && 0 < n < |Lines(s)|
    ensures k < |s| && n - 1 < |Lines(s[k + 1..])| && Lines(s)[n] == Lines(s[k + 1..])[n - 1]
    ensures Join(Lines(s)[..n] + [x]) == StripCr(s[..k]) + "\n" + Join(Lines(s[k + 1..])[..n - 1] + [x])
  {
    LinesStep(s);
    var joined := Lines(s[k + 1..])[..n - 1] + [x];
    assert Lines(s)[..n] + [x] == [StripCr(s[..k])] + joined;
    assert ([StripCr(s[..k])] + joined)[1..] == joined;
  }

  /** Joining a text's first lines, the last one possibly shortened, gives a prefix of the text
      exactly when none of the earlier lines lost a carriage return. */
  lemma {:induction false} JoinIsPrefixIff(s: string, n: nat, x: string)
    requires n < |Lines(s)| && x <= Lines(s)[n]
    ensures Join(Lines(s)[..n] + [x]) <= s <==> !LosesCr(RawLines(s), n)
    decreases |s|
  {
    LinesLength(s);
    if n == 0 {
      assert Lines(s)[..0] + [x] == [x];
      FirstLine(s);
    } else {
      FirstLine(s);
      var k := Find(s, "\n").value;
      JoinStep(s, k, n, x);
      LinesStep(s);
      JoinIsPrefixIff(s[k + 1..], n - 1, x);
      PrefixAfterLine(s, k, Join(Lines(s[k + 1..])[..n - 1] + [x]));
      LosesCrStep(s[..k], RawLines(s[k + 1..]), n);
    }
  }

  lemma LosesCrStep(first: string, rest: seq<string>, n: nat)
    requires 0 < n <= |rest| + 1
    ensures LosesCr([first] + rest, n) <==> EndsWithCr(first) || LosesCr(rest, n - 1)
  {
    var raw := [first] + rest;
    if LosesCr(rest, n - 1) {
      var i :| 0 <= i < n - 1 && EndsWithCr(rest[i]);
      assert EndsWithCr(raw[i + 1]);
    }
    if EndsWithCr(first) {
      assert EndsWithCr(raw[0]);
    }
    if LosesCr(raw, n) {
      var i :| 0 <= i < n && EndsWithCr(raw[i]);
      assert i > 0 ==> EndsWithCr(rest[i - 1]);
    }
  }

  lemma PrefixAfterLine(s: string, k: nat, j: string)
    requires k < |s| && s[k] == '\n' && '\n' !in s[..k]
    ensures StripCr(s[..k]) + "\n" + j <= s <==> !EndsWithCr(s[..k]) && j <= s[k + 1..]
  {
    var p := StripCr(s[..k]) + "\n" + j;
    if EndsWithCr(s[..k]) {
      assert p[k - 1] == '\n' && s[k - 1] == '\r';
    } else {
      assert p == s[..k] + "\n" + j;
      assert s == s[..k] + "\n" + s[k + 1..];
      assert p[k + 1..] == j;
      if j <= s[k + 1..] {
        assert s[k + 1..] == j + s[k + 1..][|j|..];
      }
    }
  }

  predicate NoCr(raw: seq<string>) {
    forall i :: 0 <= i < |raw| ==> !EndsWithCr(raw[i])
  }

  /** How many lines are kept. */
  function KeptLines(text: string): nat {
    |KeepLines(Lines(StripLeakedToolXml(CutAppendix(text))))|
  }

  /** The raw lines before the last kept one. */
  function RawKept(text: string): (raw: seq<string>)
    ensures KeptLines(text) > 0 ==> |raw| == KeptLines(text) - 1
  {
    var u := StripLeakedToolXml(CutAppendix(text));
    LinesLength(u);
    if KeptLines(text) == 0 then [] else RawLines(u)[..KeptLines(text) - 1]
  }

  /** The result is the kept lines joined, the last one without its trailing whitespace. */
  lemma ResultShape(text: string)
    ensures KeptLines(text) == 0 ==> SanitizeUserReply(text) == ""
    ensures KeptLines(text) > 0 ==>
              var lines := Lines(StripLeakedToolXml(CutAppendix(text)));
              var n := KeptLines(text) - 1;
              && n < |lines| && !Dropped(lines[n]) && TrimEnd(lines[n]) != ""
              && SanitizeUserReply(text) == Join(lines[..n] + [TrimEnd(lines[n])])
  {
    var lines := Lines(StripLeakedToolXml(CutAppendix(text)));
    var kept := KeepLines(lines);
    if kept != [] {
      var n := |kept| - 1;
      assert kept == lines[..n] + [lines[n]];
      JoinAppend(lines[..n], lines[n]);
      JoinAppend(lines[..n], TrimEnd(lines[n]));
      BlankIff(lines[n]);
      TrimEndBlank(lines[n]);
      if n > 0 {
        TrimEndAppend(Join(lines[..n]) + "\n", lines[n]);
      }
    }
  }

  lemma {:induction false} JoinedLength(s: string, n: nat, x: string)
    requires n < |Lines(s)| && x <= Lines(s)[n]
    ensures |Join(Lines(s)[..n] + [x])| <= |s|
    decreases |s|
  {
    FirstLine(s);
    if n == 0 {
      assert Lines(s)[..0] + [x] == [x];
    } else {
      var k := Find(s, "\n").value;
      JoinStep(s, k, n, x);
      JoinedLength(s[k + 1..], n - 1, x);
    }
  }

  lemma PrefixOfPrefix(r: string, u: string, text: string)
    requires u <= text && |r| <= |u|
    ensures r <= text <==> r <= u
  {
    assert u == text[..|u|];
  }

  /** The reply the user sees is a prefix of what the model wrote, unless a line that is kept and
      followed by another kept line ended in a carriage return and a newline. */
  lemma ResultIsPrefixIff(text: string)
    ensures SanitizeUserReply(text) <= text <==> NoCr(RawKept(text))
  {
    var u := StripLeakedToolXml(CutAppendix(text));
    ResultShape(text);
    if KeptLines(text) > 0 {
      var n := KeptLines(text) - 1;
      var x := TrimEnd(Lines(u)[n]);
      StripIsFree(text);
      TrimEndSplits(Lines(u)[n]);
      LinesLength(u);
      JoinIsPrefixIff(u, n, x);
      JoinedLength(u, n, x);
      PrefixOfPrefix(Join(Lines(u)[..n] + [x]), u, text);
      LosesCrKept(RawLines(u), n);
      assert RawKept(text) == RawLines(u)[..n];
    }
  }

  lemma LosesCrKept(raw: seq<string>, n: nat)
    requires n <= |raw|
    ensures LosesCr(raw, n) <==> !NoCr(raw[..n])
  {
    if LosesCr(raw, n) {
      var i :| 0 <= i < n && EndsWithCr(raw[i]);
      assert EndsWithCr(raw[..n][i]);
    }
  }

  // ----- idempotence -----

  function StripAll(lines: seq<string>): (r: seq<string>)
    ensures |r| == |lines| && forall i :: 0 <= i < |lines| ==> r[i] == StripCr(lines[i])
  {
    seq(|lines|, i requires 0 <= i < |lines| => StripCr(lines[i]))
  }

  lemma FindNewline(a: string, b: string)
    requires '\n' !in a
    ensures Find(a + "\n" + b, "\n") == Some(|a|)
  {
    var s := a + "\n" + b;
    forall j: nat | j < |a| ensures !OccursAt(s, "\n", j) {
      assert s[j..j + 1] == [s[j]] && s[j] == a[j];
    }
    assert s[|a|..|a| + 1] == "\n";
    FindUnique(s, "\n", |a|);
  }

  lemma NoNewlineFound(a: string)
    requires '\n' !in a
    ensures Find(a, "\n").None?
  {
    forall j: nat | j < |a| ensures !OccursAt(a, "\n", j) {
      assert a[j..j + 1] == [a[j]];
    }
  }

  lemma LinesOfTwo(a: string, b: string)
    requires '\n' !in a
    ensures Lines(a + "\n" + b) == [StripCr(a)] + Lines(b)
  {
    var s := a + "\n" + b;
    FindNewline(a, b);
    LinesStep(s);
    assert s[..|a|] == a && s[|a| + 1..] == b;
  }

  lemma JoinFirst(lines: seq<string>, last: string)
    requires lines != []
    ensures Join(lines + [last]) == lines[0] + "\n" + Join(lines[1..] + [last])
  {
    assert (lines + [last])[1..] == lines[1..] + [last];
  }

  lemma StripFirst(lines: seq<string>, last: string)
    requires lines != []
    ensures StripAll(lines) + [last] == [StripCr(lines[0])] + (StripAll(lines[1..]) + [last])
  {
    assert StripAll(lines) == [StripCr(lines[0])] + StripAll(lines[1..]);
  }

  /** Splitting joined lines gives them back, each but the last without a trailing carriage return. */
  lemma {:induction false} LinesOfJoin(lines: seq<string>, last: string)
    requires NoNewlines(lines) && '\n' !in last && last != ""
    ensures Lines(Join(lines + [last])) == StripAll(lines) + [last]
  {
    if lines == [] {
      NoNewlineFound(last);
      assert [] + [last] == [last];
    } else {
      LinesOfJoin(lines[1..], last);
      LinesOfTwo(lines[0], Join(lines[1..] + [last]));
      JoinFirst(lines, last);
      StripFirst(lines, last);
    }
  }

  /** Stripping carriage returns shortens the join unless there are none. */
  lemma {:induction false} StripShortens(lines: seq<string>, last: string)
    ensures |Join(StripAll(lines) + [last])| <= |Join(lines + [last])|
    ensures Join(StripAll(lines) + [last]) == Join(lines + [last]) <==> NoCr(lines)
    ensures !NoCr(lines) ==> |Join(StripAll(lines) + [last])| < |Join(lines + [last])|
  {
    if lines == [] {
      assert StripAll(lines) == lines;
    } else {
      var rest := lines[1..];
      assert (lines + [last])[1..] == rest + [last];
      assert StripAll(lines) == [StripCr(lines[0])] + StripAll(rest);
      assert (StripAll(lines) + [last])[1..] == StripAll(rest) + [last];
      StripShortens(rest, last);
      assert NoCr(lines) <==> !EndsWithCr(lines[0]) && NoCr(rest) by {
        assert forall i :: 0 < i < |lines| ==> lines[i] == rest[i - 1];
      }
      if NoCr(lines) {
        assert StripAll(lines) == lines;
      }
    }
  }

  /** A text without markers whose last line is trimmed and is kept only has the carriage returns
      of its earlier lines stripped. */
  lemma SanitizeClean(lines: seq<string>, last: string)
    requires NoNewlines(lines) && '\n' !in last && TrimEnd(last) == last && !Dropped(last)
    requires MarkerFree(Join(lines + [last]))
    ensures SanitizeUserReply(Join(lines + [last])) == Join(StripAll(lines) + [last])
  {
    var r := Join(lines + [last]);
    JoinAppend(lines, last);
    BlankIff(last);
    TrimEndBlank(last);
    JoinAppend(StripAll(lines), last);
    if lines != [] {
      TrimEndAppend(Join(lines) + "\n", last);
      TrimEndAppend(Join(StripAll(lines)) + "\n", last);
    }
    assert StripLeakedToolXml(CutAppendix(r)) == r;
    LinesOfJoin(lines, last);
    assert KeepLines(StripAll(lines) + [last]) == StripAll(lines) + [last];
  }

  lemma DroppedTrimmed(line: string)
    ensures Dropped(TrimEnd(line)) <==> Dropped(line)
  {
    BlankIff(line);
    TrimEndBlank(line);
    if AllWhitespace(line) {
      assert Trim("") == "";
    } else {
      TrimBothWays(line);
    }
  }

  /** Sanitising twice changes nothing more, unless a kept line followed by another kept line
      ended in two carriage returns and a newline. */
  lemma SanitizeIdempotentIff(text: string)
    ensures SanitizeUserReply(SanitizeUserReply(text)) == SanitizeUserReply(text) <==> NoCr(StripAll(RawKept(text)))
  {
    var u := StripLeakedToolXml(CutAppendix(text));
    ResultShape(text);
    ResultMarkerFree(text);
    if KeptLines(text) == 0 {
      assert Lines("") == [];
    } else {
      var n := KeptLines(text) - 1;
      var lines, last := Lines(u)[..n], TrimEnd(Lines(u)[n]);
      LinesHaveNoNewline(u);
      TrimEndSplits(Lines(u)[n]);
      TrimEndIdempotent(Lines(u)[n]);
      DroppedTrimmed(Lines(u)[n]);
      SanitizeClean(lines, last);
      StripShortens(lines, last);
      LinesAreStripped(u, n);
    }
  }

  lemma StripAllCons(first: string, rest: seq<string>)
    ensures StripAll([first] + rest) == [StripCr(first)] + StripAll(rest)
  {
  }

  /** All lines of a text but the last are its raw lines without their carriage returns. */
  lemma {:induction false} LinesAreStripped(s: string, n: nat)
    requires n < |Lines(s)|
    ensures n < |RawLines(s)| && Lines(s)[..n] == StripAll(RawLines(s)[..n])
    decreases |s|
  {
    LinesLength(s);
    if n > 0 {
      FirstLine(s);
      LinesStep(s);
      var k := Find(s, "\n").value;
      var lines, raw := Lines(s[k + 1..]), RawLines(s[k + 1..]);
      LinesAreStripped(s[k + 1..], n - 1);
      StripAllCons(s[..k], raw[..n - 1]);
      assert ([StripCr(s[..k])] + lines)[..n] == [StripCr(s[..k])] + lines[..n - 1];
      assert ([s[..k]] + raw)[..n] == [s[..k]] + raw[..n - 1];
    }
  }

  // ----- texts without carriage returns -----

  lemma {:induction false} RawLinesHaveNoCr(s: string)
    requires '\r' !in s
    ensures NoCr(RawLines(s))
    decreases |s|
  {
    if s != "" {
      FirstLine(s);
      if Find(s, "\n").Some? {
        RawLinesHaveNoCr(s[Find(s, "\n").value + 1..]);
      }
    }
  }

  lemma KeptHasNoCr(text: string)
    requires '\r' !in text
    ensures NoCr(RawKept(text)) && NoCr(StripAll(RawKept(text)))
  {
    var u := StripLeakedToolXml(CutAppendix(text));
    StripIsFree(text);
    assert u == text[..|u|];
    RawLinesHaveNoCr(u);
    LinesLength(u);
    var raw := RawKept(text);
    assert forall i :: 0 <= i < |raw| ==> raw[i] == RawLines(u)[i];
  }

  /** For text without carriage returns sanitising is idempotent and returns a prefix of it. */
  lemma WithoutCarriageReturns(text: string)
    requires '\r' !in text
    ensures SanitizeUserReply(text) <= text
    ensures SanitizeUserReply(SanitizeUserReply(text)) == SanitizeUserReply(text)
  {
    KeptHasNoCr(text);
    ResultIsPrefixIff(text);
    SanitizeIdempotentIff(text);
  }

  lemma MarkersAreLong()
    ensures |TOOL_RESULTS_HTML_COMMENT| > 6
    ensures forall m :: m in LEAKED_TOOL_XML_MARKERS ==> |m| > 6
  {
  }

  lemma LongNotFound(t: string, markers: seq<string>)
    requires forall m :: m in markers ==> |m| > |t|
    ensures FirstMarker(t, markers).None?
  {
  }

  lemma ShortIsUncut(t: string)
    requires |t| <= 6 && TrimEnd(t) == t
    ensures StripLeakedToolXml(CutAppendix(t)) == t
  {
    assert CutAppendix(t) == t by {
      MarkersAreLong();
    }
    assert FirstMarker(t, LEAKED_TOOL_XML_MARKERS).None? by {
      MarkersAreLong();
      LongNotFound(t, LEAKED_TOOL_XML_MARKERS);
    }
  }

  lemma CrLfLines(a: string, b: string)
    requires '\n' !in a && '\n' !in b && b != ""
    ensures Lines(a + "\r" + "\n" + b) == [a, b]
  {
    FindNewline(a + "\r", b);
    var t := a + "\r" + "\n" + b;
    assert t[..|a| + 1] == a + "\r" && t[|a| + 2..] == b;
    assert StripCr(a + "\r") == a;
    NoNewlineFound(b);
  }

  lemma TwoLinesKept(a: string, b: string)
    requires !Dropped(b) && TrimEnd(b) == b && b != ""
    ensures TrimEnd(Join(KeepLines([a, b]))) == a + "\n" + b
  {
    assert [a, b][1..] == [b];
    TrimEndAppend(a + "\n", b);
  }

  lemma CrLfRewritten(a: string, b: string)
    requires |a| + |b| <= 4 && '\n' !in a && '\n' !in b && b != "" && TrimEnd(b) == b && !Dropped(b)
    ensures SanitizeUserReply(a + "\r" + "\n" + b) == a + "\n" + b
  {
    var t := a + "\r" + "\n" + b;
    TrimEndAppend(a + "\r" + "\n", b);
    ShortIsUncut(t);
    CrLfLines(a, b);
    TwoLinesKept(a, b);
  }

  lemma LetterIsKept(b: string)
    requires |b| == 1 && 'a' <= b[0] <= 'z'
    ensures TrimEnd(b) == b && !Dropped(b) && '\n' !in b
  {
    BlankIff(b);
  }

  /** `t` and `r` are `a`, a line ending and `b`; only `t` has a carriage return there. */
  predicate Endings(t: string, r: string, a: string, b: string) {
    t == a + "\r" + "\n" + b && r == a + "\n" + b
  }

  lemma EndingRewritten(t: string, r: string, a: string, b: string)
    requires Endings(t, r, a, b) && |a| <= 3 && '\n' !in a && |b| == 1 && 'a' <= b[0] <= 'z'
    ensures SanitizeUserReply(t) == r
  {
    LetterIsKept(b);
    CrLfRewritten(a, b);
  }

  /** With a carriage return the result need not be a prefix: the line ending is rewritten. */
  lemma CarriageReturnRewritten(t: string, r: string)
    requires t == "a\r\nb" && r == "a\nb"
    ensures SanitizeUserReply(t) == r
  {
    EndingRewritten(t, r, [t[0]], [t[3]]);
  }

  lemma DoubledRewritten(t: string, r: string)
    requires t == "a\r\r\nb" && r == "a\r\nb"
    ensures SanitizeUserReply(t) == r
  {
    EndingRewritten(t, r, [t[0], t[1]], [t[4]]);
  }

  /** Nor is a second application harmless: each strips one more carriage return. */
  lemma SanitizeTwiceDiffers(t: string, once: string, twice: string)
    requires t == "a\r\r\nb" && once == "a\r\nb" && twice == "a\nb"
    ensures SanitizeUserReply(t) == once && SanitizeUserReply(once) == twice != once
  {
    DoubledRewritten(t, once);
    CarriageReturnRewritten(once, twice);
  }
}
