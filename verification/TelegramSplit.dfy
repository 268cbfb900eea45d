/**
  Splitting text for Telegram's limit on UTF-16 code units.

  Text is a sequence of Unicode scalar values. The code works with byte offsets into UTF-8;
  `ByteLen` gives the offset of a character boundary, and cutting a string at an offset that is
  not one is a panic, modelled as `None`.
*/
module TelegramSplit {
  import opened Options
  import opened Text

  /** UTF-16 code units of a scalar value (section 2.1 of RFC 2781). */
  function Units(c: char): nat {
    if c as int < 0x10000 then 1 else 2
  }

  function Utf16Len(s: string): nat {
    if s == "" then 0 else Utf16Len(s[..|s| - 1]) + Units(s[|s| - 1])
  }

  // ----- lengths -----

  lemma {:induction false} Utf16Append(a: string, b: string)
    ensures Utf16Len(a + b) == Utf16Len(a) + Utf16Len(b)
  {
    if b == "" {
      assert a + b == a;
    } else {
      assert (a + b)[..|a + b| - 1] == a + b[..|b| - 1];
      Utf16Append(a, b[..|b| - 1]);
    }
  }

  lemma {:induction false} LenBounds(s: string)
    ensures |s| <= Utf16Len(s) && |s| <= ByteLen(s)
  {
    if s != "" {
      LenBounds(s[..|s| - 1]);
    }
  }

  lemma PrefixLens(s: string, i: nat, j: nat)
    requires i <= j <= |s|
    ensures Utf16Len(s[..i]) <= Utf16Len(s[..j]) && ByteLen(s[..i]) <= ByteLen(s[..j])
    ensures i < j ==> Utf16Len(s[..i]) < Utf16Len(s[..j]) && ByteLen(s[..i]) < ByteLen(s[..j])
  {
    assert s[..j] == s[..i] + s[i..j];
    Utf16Append(s[..i], s[i..j]);
    ByteAppend(s[..i], s[i..j]);
    LenBounds(s[i..j]);
  }

  lemma PrefixStep(s: string, i: nat)
    requires i < |s|
    ensures Utf16Len(s[..i + 1]) == Utf16Len(s[..i]) + Units(s[i])
    ensures ByteLen(s[..i + 1]) == ByteLen(s[..i]) + Bytes(s[i])
  {
    assert s[..i + 1][..i] == s[..i];
  }

  // ----- where to cut -----

  datatype Break = Paragraph | Line | Space

  /** A chunk may end after `k` characters: after two newlines, a newline, or other whitespace. */
  predicate IsBreak(kind: Break, s: string, k: nat) {
    && 1 <= k <= |s|
    && match kind
       case Paragraph => k >= 2 && s[k - 1] == '\n' && s[k - 2] == '\n'
       case Line => s[k - 1] == '\n'
       case Space => s[k - 1] != '\n' && IsWhitespace(s[k - 1])
  }

  /** The last break of a kind within the first `n` characters, 0 if there is none. */
  function LastBreak(kind: Break, s: string, n: nat): (k: nat)
    ensures k <= n && (k == 0 || IsBreak(kind, s, k))
    ensures forall j: nat :: k < j <= n ==> !IsBreak(kind, s, j)
  {
    if n == 0 then 0 else if IsBreak(kind, s, n) then n else LastBreak(kind, s, n - 1)
  }

  /** The length of the longest prefix of `s`, at least `i` long, within the limit. */
  function FitFrom(s: string, max: nat, i: nat): (n: nat)
    requires i <= |s| && Utf16Len(s[..i]) <= max
    ensures i <= n <= |s| && Utf16Len(s[..n]) <= max
    ensures n < |s| ==> Utf16Len(s[..n + 1]) > max
    decreases |s| - i
  {
    if i < |s| && Utf16Len(s[..i + 1]) <= max then FitFrom(s, max, i + 1) else i
  }

  function FitLen(s: string, max: nat): nat {
    FitFrom(s, max, 0)
  }

  /** Where the text is cut, in characters: after the last paragraph break of the longest prefix
      that fits, else after its last newline, else after its last other whitespace, else at its end. */
  function CutPoint(s: string, max: nat): (k: nat)
    ensures k <= FitLen(s, max) && (FitLen(s, max) > 0 ==> k > 0)
  {
    var n := FitLen(s, max);
    var p := LastBreak(Paragraph, s, n);
    var l := LastBreak(Line, s, n);
    var w := LastBreak(Space, s, n);
    if p > 0 then p else if l > 0 then l else if w > 0 then w else n
  }

  /** The `k`-th place is the last break of its kind in a prefix. */
  predicate IsLastBreak(kind: Break, s: string, n: nat, k: nat) {
    k <= n && IsBreak(kind, s, k) && forall j :: k < j <= n ==> !IsBreak(kind, s, j)
  }

  predicate HasBreak(kind: Break, s: string, n: nat) {
    exists j: nat :: j <= n && IsBreak(kind, s, j)
  }

  /** Paragraph breaks come before newlines, newlines before other whitespace, and each of them before a cut in
      the middle of a word. */
  lemma CutPreference(s: string, max: nat)
    ensures var n, k := FitLen(s, max), CutPoint(s, max);
      if HasBreak(Paragraph, s, n) then IsLastBreak(Paragraph, s, n, k)
      else if HasBreak(Line, s, n) then IsLastBreak(Line, s, n, k)
      else if HasBreak(Space, s, n) then IsLastBreak(Space, s, n, k)
      else k == n
  {
    var n := FitLen(s, max);
    forall kind ensures HasBreak(kind, s, n) <==> LastBreak(kind, s, n) > 0 {
      if j: nat :| j <= n && IsBreak(kind, s, j) {
        assert j >= 1;
      }
    }
  }

  lemma {:induction false} FitUnique(s: string, max: nat, i: nat, n: nat)
    requires i <= n <= |s| && Utf16Len(s[..n]) <= max && (n < |s| ==> Utf16Len(s[..n + 1]) > max)
    ensures Utf16Len(s[..i]) <= max && FitFrom(s, max, i) == n
    decreases n - i
  {
    PrefixLens(s, i, n);
    if i < n {
      PrefixLens(s, i + 1, n);
      FitUnique(s, max, i + 1, n);
    }
  }

  // ----- the loops -----

  function Offset(s: string, k: nat): Option<nat>
    requires k <= |s|
  {
    if k == 0 then None else Some(ByteLen(s[..k]))
  }

  lemma NextBreaks(s: string, i: nat)
    requires i < |s|
    ensures LastBreak(Paragraph, s, i + 1)
         == if s[i] == '\n' && i > 0 && s[i - 1] == '\n' then i + 1 else LastBreak(Paragraph, s, i)
    ensures LastBreak(Line, s, i + 1) == if s[i] == '\n' then i + 1 else LastBreak(Line, s, i)
    ensures LastBreak(Space, s, i + 1)
         == if s[i] != '\n' && IsWhitespace(s[i]) then i + 1 else LastBreak(Space, s, i)
  {
  }

  /** The first pass: the offset of the best break in the longest prefix that fits. */
  method FindBreak(text: string, max: nat) returns (best: Option<nat>)
    ensures best == var n := FitLen(text, max);
                    var p := LastBreak(Paragraph, text, n);
                    var l := LastBreak(Line, text, n);
                    Offset(text, if p > 0 then p else if l > 0 then l else LastBreak(Space, text, n))
  {
    var utf16Count, byteIdx, i := 0, 0, 0;
    var lastParagraph, lastLine, lastSpace: Option<nat> := None, None, None;
    while i < |text|
      invariant 0 <= i <= |text|
      invariant utf16Count == Utf16Len(text[..i]) <= max && byteIdx == ByteLen(text[..i])
      invariant lastParagraph == Offset(text, LastBreak(Paragraph, text, i))
      invariant lastLine == Offset(text, LastBreak(Line, text, i))
      invariant lastSpace == Offset(text, LastBreak(Space, text, i))
    {
      var ch := text[i];
      PrefixStep(text, i);
      NextBreaks(text, i);
      if utf16Count + Units(ch) > max {
        break;
      }
      utf16Count := utf16Count + Units(ch);
      var after := byteIdx + Bytes(ch);
      if ch == '\n' {
        if i > 0 && text[i - 1] == '\n' {
          lastParagraph := Some(after);
        }
        lastLine := Some(after);
      } else if IsWhitespace(ch) {
        lastSpace := Some(after);
      }
      byteIdx := after;
      i := i + 1;
    }
    FitUnique(text, max, 0, i);
    return if lastParagraph.Some? then lastParagraph else if lastLine.Some? then lastLine else lastSpace;
  }

  /** The second pass: the offset of the first character that does not fit, but at least 1. */
  method FindOverflow(text: string, max: nat) returns (idx: nat)
    requires text != ""
    ensures idx == if FitLen(text, max) == 0 then 1 else ByteLen(text[..FitLen(text, max)])
  {
    var count, at, j := 0, 0, 0;
    while j < |text|
      invariant 0 <= j <= |text| && count == Utf16Len(text[..j]) <= max && at == ByteLen(text[..j])
    {
      PrefixStep(text, j);
      if count + Units(text[j]) > max {
        FitUnique(text, max, 0, j);
        LenBounds(text[..j]);
        return if at < 1 then 1 else at;
      }
      count := count + Units(text[j]);
      at := at + Bytes(text[j]);
      j := j + 1;
    }
    FitUnique(text, max, 0, j);
    return at;
  }

  method FindSplitByteIndex(text: string, max: nat) returns (idx: nat)
    requires text != ""
    ensures idx == if FitLen(text, max) == 0 then 1 else ByteLen(text[..CutPoint(text, max)])
  {
    var best := FindBreak(text, max);
    if best.Some? && best.value > 0 {
      return best.value;
    }
    idx := FindOverflow(text, max);
  }

  /** `str::split_at`: panics off a character boundary. */
  method SplitAt(text: string, byteEnd: nat) returns (r: Option<(string, string)>)
    ensures r.Some? <==> exists k: nat :: k <= |text| && ByteLen(text[..k]) == byteEnd
    ensures r.Some? ==> r.value.0 + r.value.1 == text && ByteLen(r.value.0) == byteEnd
  {
    var i, at := 0, 0;
    while i < |text| && at < byteEnd
      invariant 0 <= i <= |text| && at == ByteLen(text[..i])
      invariant forall k: nat :: k < i ==> ByteLen(text[..k]) < byteEnd
    {
      PrefixStep(text, i);
      at := at + Bytes(text[i]);
      i := i + 1;
    }
    forall k: nat | i < k <= |text| ensures ByteLen(text[..k]) > at {
      PrefixLens(text, i, k);
    }
    if at != byteEnd {
      return None;
    }
    assert text == text[..i] + text[i..];
    return Some((text[..i], text[i..]));
  }

  /** A byte length determines the prefix. */
  lemma PrefixUnique(s: string, a: string, i: nat)
    requires a <= s && i <= |s| && ByteLen(a) == ByteLen(s[..i])
    ensures a == s[..i]
  {
    assert a == s[..|a|];
    if |a| < i {
      PrefixLens(s, |a|, i);
    } else if i < |a| {
      PrefixLens(s, i, |a|);
    }
  }

  // ----- the pieces -----

  /** The pieces of a text, or `None` when a cut falls inside a character. */
  function Pieces(rest: string, max: nat): (r: Option<seq<string>>)
    decreases |rest|
  {
    if rest == "" then Some([])
    else if Utf16Len(rest) <= max then Some([rest])
    else
      var k := if FitLen(rest, max) > 0 then CutPoint(rest, max) else if Bytes(rest[0]) == 1 then 1 else 0;
      if k == 0 then None
      else
        Prepend([rest[..k]], Pieces(rest[k..], max))
  }

  function Split(text: string, max: nat): Option<seq<string>> {
    if text == "" then Some([""]) else Pieces(text, max)
  }

  function Prepend(chunks: seq<string>, r: Option<seq<string>>): Option<seq<string>> {
    match r
    case None => None
    case Some(tail) => Some(chunks + tail)
  }

  lemma PrependNil(r: Option<seq<string>>)
    ensures Prepend([], r) == r
  {
    if r.Some? {
      assert [] + r.value == r.value;
    }
  }

  lemma PrependStep(chunks: seq<string>, head: string, r: Option<seq<string>>)
    ensures Prepend(chunks, Prepend([head], r)) == Prepend(chunks + [head], r)
  {
    if r.Some? {
      assert chunks + ([head] + r.value) == chunks + [head] + r.value;
    }
  }

  method SplitForTelegram(text: string, max: nat) returns (r: Option<seq<string>>)
    ensures r == Split(text, max)
  {
    if text == "" {
      return Some([""]);
    }
    if Utf16Len(text) <= max {
      return Some([text]);
    }
    var chunks: seq<string>, rest := [], text;
    PrependNil(Pieces(text, max));
    while rest != ""
      invariant Pieces(text, max) == Prepend(chunks, Pieces(rest, max))
      decreases |rest|
    {
      if Utf16Len(rest) <= max {
        chunks := chunks + [rest];
        return Some(chunks);
      }
      var byteEnd := FindSplitByteIndex(rest, max);
      var parts := SplitAt(rest, byteEnd);
      if parts == None {
        return None;
      }
      var (head, tail) := parts.value;
      var k := if FitLen(rest, max) > 0 then CutPoint(rest, max) else 1;
      PrefixUnique(rest, head, k);
      assert tail == rest[k..];
      PrependStep(chunks, head, Pieces(tail, max));
      chunks, rest := chunks + [head], tail;
    }
    assert chunks + [] == chunks;
    return Some(chunks);
  }

  // ----- what splitting promises -----

  function Concat(chunks: seq<string>): string {
    if chunks == [] then "" else chunks[0] + Concat(chunks[1..])
  }

  /** Whenever splitting succeeds, the chunks concatenate to the text, and none is empty unless
      the text is. */
  lemma {:induction false} PiecesConserve(rest: string, max: nat)
    requires Pieces(rest, max).Some?
    ensures Concat(Pieces(rest, max).value) == rest
    ensures forall i :: 0 <= i < |Pieces(rest, max).value| ==> Pieces(rest, max).value[i] != ""
    decreases |rest|
  {
    if rest != "" {
      if Utf16Len(rest) <= max {
        assert Concat([rest]) == rest + Concat([]);
      } else {
        var k := if FitLen(rest, max) > 0 then CutPoint(rest, max) else 1;
        PiecesConserve(rest[k..], max);
        assert rest == rest[..k] + rest[k..];
        var tail := Pieces(rest[k..], max).value;
        assert ([rest[..k]] + tail)[1..] == tail;
      }
    }
  }

  lemma SplitConserves(text: string, max: nat)
    requires Split(text, max).Some?
    ensures Concat(Split(text, max).value) == text
    ensures text != "" ==> forall i :: 0 <= i < |Split(text, max).value| ==> Split(text, max).value[i] != ""
  {
    if text == "" {
      assert Concat([""]) == "" + Concat([]);
    } else {
      PiecesConserve(text, max);
    }
  }

  predicate AllFit(s: string, max: nat) {
    forall i :: 0 <= i < |s| ==> Units(s[i]) <= max
  }

  ghost predicate WithinLimit(r: Option<seq<string>>, max: nat) {
    r.Some? && forall i :: 0 <= i < |r.value| ==> Utf16Len(r.value[i]) <= max
  }

  lemma UnitsInside(s: string, i: nat)
    requires i < |s|
    ensures Units(s[i]) <= Utf16Len(s)
  {
    PrefixStep(s, i);
    PrefixLens(s, i + 1, |s|);
    assert s[..|s|] == s;
  }

  lemma FitsSome(s: string, max: nat)
    requires s != ""
    ensures FitLen(s, max) > 0 <==> Units(s[0]) <= max
  {
    PrefixStep(s, 0);
    assert s[..0] == "";
    if Units(s[0]) <= max {
      assert FitLen(s, max) == FitFrom(s, max, 1);
    } else {
      assert FitLen(s, max) == 0;
    }
  }

  lemma UnitsAll(s: string, max: nat)
    requires Utf16Len(s) <= max
    ensures AllFit(s, max)
  {
    forall i | 0 <= i < |s| ensures Units(s[i]) <= max {
      UnitsInside(s, i);
    }
  }

  lemma PrependWithin(head: string, r: Option<seq<string>>, max: nat)
    ensures WithinLimit(Prepend([head], r), max) <==> Utf16Len(head) <= max && WithinLimit(r, max)
  {
    if r.Some? {
      var all := [head] + r.value;
      assert all[0] == head && forall i :: 0 <= i < |r.value| ==> all[i + 1] == r.value[i];
    }
  }

  lemma {:induction false} PiecesWithinIff(rest: string, max: nat)
    ensures WithinLimit(Pieces(rest, max), max) <==> AllFit(rest, max)
    decreases |rest|
  {
    if rest == "" {
    } else if Utf16Len(rest) <= max {
      UnitsAll(rest, max);
    } else {
      FitsSome(rest, max);
      if FitLen(rest, max) > 0 {
        var k := CutPoint(rest, max);
        PrefixLens(rest, k, FitLen(rest, max));
        UnitsAll(rest[..k], max);
        PiecesWithinIff(rest[k..], max);
        PrependWithin(rest[..k], Pieces(rest[k..], max), max);
      } else {
        UnitsInside(rest[..1], 0);
        PrependWithin(rest[..1], Pieces(rest[1..], max), max);
      }
    }
  }

  /** Splitting succeeds with every chunk within the limit exactly when no single character is
      wider than the limit. In particular always for a limit of 2 or more; with a limit of 1 or
      0 it can cut inside a character, or return a chunk over the limit. */
  lemma SplitWithinIff(text: string, max: nat)
    ensures WithinLimit(Split(text, max), max) <==> AllFit(text, max)
    ensures max >= 2 ==> WithinLimit(Split(text, max), max)
  {
    if text == "" {
      assert Split(text, max).value == [""];
    } else {
      PiecesWithinIff(text, max);
    }
  }

  /** A limit of 1 panics on a character outside the basic plane. */
  lemma LimitOneCanPanic()
    ensures Split(['\U{1F600}'], 1) == None
  {
    var s := ['\U{1F600}'];
    assert s[..|s| - 1] == "";
    FitsSome(s, 1);
    assert Utf16Len(s) == 2;
  }

  /** The first chunk of a text that is too long ends at its cut point, and the other chunks are
      those of the rest. */
  lemma FirstChunk(text: string, max: nat)
    requires Utf16Len(text) > max && AllFit(text, max)
    ensures 0 < CutPoint(text, max) < |text|
    ensures Split(text, max) == Prepend([text[..CutPoint(text, max)]], Split(text[CutPoint(text, max)..], max))
  {
    FitsSome(text, max);
    var k := CutPoint(text, max);
    PrefixLens(text, k, FitLen(text, max));
    assert text[..|text|] == text;
  }

  /** Splitting a chunk again leaves it alone. */
  lemma ChunksAreStable(text: string, max: nat, i: nat)
    requires AllFit(text, max) && Split(text, max).Some? && i < |Split(text, max).value|
    ensures Split(Split(text, max).value[i], max) == Some([Split(text, max).value[i]])
  {
    SplitWithinIff(text, max);
  }
}
