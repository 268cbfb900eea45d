/** Summary rows of earlier versions of the program, read back. */
module LegacySummaries {
  import opened Text
  import opened Compaction

  predicate Parts(a: string, b: string, i: nat) {
    i < |a| && i < |b| && a[i] != b[i]
  }

  /** No whitespace at either end, and something in between. */
  predicate Tight(s: string) {
    s != "" && !IsWhitespace(s[0]) && !IsWhitespace(s[|s| - 1])
  }

  /** The shape of the legacy markers: without outer whitespace, and not the beginning of the current one. */
  ghost predicate LegacyMarks(m: Marks) {
    Tight(m.legacy) && Tight(m.legacyTail) && exists i: nat :: Parts(m.legacy, m.current, i)
  }

  lemma TrimTight(s: string, body: string)
    requires Tight(s)
    ensures Trim(s + body) == s + TrimEnd(body)
  {
    assert TrimStart(s + body) == s + body;
    TrimEndBlank(body);
    if TrimEnd(body) == "" {
      TrimEndAppendSpace(s, body);
      assert s + "" == s;
    } else {
      TrimEndAppend(s, body);
    }
  }

  lemma TrimTwice(s: string)
    ensures Trim(TrimEnd(s)) == Trim(s)
  {
    if AllWhitespace(s) {
      TrimEndBlank(s);
      BlankIff(s);
    } else {
      TrimBothWays(s);
    }
  }

  /** Whatever stands in front of it, the marker is taken off, and what follows is trimmed. */
  lemma LegacyReads(m: Marks, body: string)
    requires LegacyMarks(m)
    ensures StripSummaryPrefix(m, m.legacy + body)
         == if m.legacyTail <= Trim(body) then StripSeparators(Trim(Trim(body)[|m.legacyTail|..])) else Trim(body)
  {
    var i: nat :| Parts(m.legacy, m.current, i);
    TrimTight(m.legacy, body);
    TrimTwice(body);
    var s := m.legacy + TrimEnd(body);
    assert s[i] == m.legacy[i] && !(m.current <= s);
    assert s[|m.legacy|..] == TrimEnd(body);
  }

  function StripSeparators(s: string): string {
    TrimStartMatches(s, {' ', ';', ':'})
  }

  predicate Separators(s: string) {
    forall i :: 0 <= i < |s| ==> s[i] == ' ' || s[i] == ';' || s[i] == ':'
  }

  predicate Separator(c: char) {
    c == ' ' || c == ';' || c == ':'
  }

  lemma {:induction false} SeparatorsGo(sep: string, body: string)
    requires Separators(sep) && body != "" && !Separator(body[0])
    ensures StripSeparators(sep + body) == body
  {
    if sep == "" {
      assert sep + body == body;
    } else {
      assert (sep + body)[1..] == sep[1..] + body;
      SeparatorsGo(sep[1..], body);
    }
  }

  lemma {:induction false} TrimSeparators(sep: string, body: string) returns (rest: string)
    requires Separators(sep) && body != "" && !IsWhitespace(body[0])
    ensures Separators(rest) && TrimStart(sep + body) == rest + body
  {
    if sep == "" || !IsWhitespace(sep[0]) {
      rest := sep;
      assert sep + body != "" && (sep + body)[0] == if sep == "" then body[0] else sep[0];
    } else {
      assert (sep + body)[1..] == sep[1..] + body;
      rest := TrimSeparators(sep[1..], body);
    }
  }

  /** A legacy row with the longer marker: its summary comes back without the separators in front of it. */
  lemma LegacyTailReads(m: Marks, space: string, sep: string, body: string)
    requires LegacyMarks(m) && AllWhitespace(space) && Separators(sep) && Tight(body) && !Separator(body[0])
    ensures StripSummaryPrefix(m, m.legacy + (space + (m.legacyTail + (sep + body)))) == body
  {
    var rest := m.legacyTail + (sep + body);
    LegacyReads(m, space + rest);
    TrimStartPrependSpace(space, rest);
    var last := TrimSeparators(sep, body);
    TightEnds(sep, body);
    TrimTight(m.legacyTail, sep + body);
    assert Trim(space + rest) == rest && rest[|m.legacyTail|..] == sep + body;
    TightEnds(last, body);
    SeparatorsGo(last, body);
  }

  lemma TightEnds(sep: string, body: string)
    requires Tight(body)
    ensures TrimEnd(sep + body) == sep + body
  {
    assert (sep + body)[|sep + body| - 1] == body[|body| - 1];
  }

  /** A legacy row with the shorter marker: its summary comes back. */
  lemma LegacyRowReads(m: Marks, space: string, body: string)
    requires LegacyMarks(m) && AllWhitespace(space) && Tight(body) && !(m.legacyTail <= body)
    ensures StripSummaryPrefix(m, m.legacy + (space + body)) == body
  {
    LegacyReads(m, space + body);
    TrimStartPrependSpace(space, body);
    TightEnds("", body);
    assert "" + body == body;
  }

  /** The legacy markers of the program, whatever the current one goes on to say. */
  lemma LegacyMarksAreReal(m: Marks, opening: string, current: string, legacy: string)
    requires opening == "[" + "CONTEXT COMPACTION \U{2014} REFERENCE ONLY] Earlier turns were "
    requires current != "" && current[0] == 'c' && legacy == "summarized."
    requires m.current == opening + current && m.legacy == opening + legacy
    requires m.legacyTail == "Treat as background only"
    ensures LegacyMarks(m)
  {
    PartAfter(opening, legacy, current);
    assert Parts(m.legacy, m.current, |opening|);
    assert opening[0] == '[' && legacy[|legacy| - 1] == '.';
  }

  lemma PartAfter(opening: string, a: string, b: string)
    requires a != "" && b != "" && a[0] != b[0]
    ensures Parts(opening + a, opening + b, |opening|)
    ensures opening != "" ==> (opening + a)[0] == opening[0]
    ensures (opening + a)[|opening + a| - 1] == a[|a| - 1]
  {
  }
}
