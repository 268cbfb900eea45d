/** Strings as sequences of Unicode scalar values, with the operations of Rust's `str` used here. */
module Text {
  import opened Options

  /** `char::is_whitespace`: the Unicode White_Space property. */
  predicate IsWhitespace(c: char) {
    var n := c as int;
    || 0x09 <= n <= 0x0D || n == 0x20 || n == 0x85 || n == 0xA0 || n == 0x1680
    || 0x2000 <= n <= 0x200A || n == 0x2028 || n == 0x2029 || n == 0x202F || n == 0x205F || n == 0x3000
  }

  predicate AllWhitespace(s: string) {
    forall i :: 0 <= i < |s| ==> IsWhitespace(s[i])
  }

  function TrimStart(s: string): string {
    if s != [] && IsWhitespace(s[0]) then TrimStart(s[1..]) else s
  }

  function TrimEnd(s: string): string {
    if s != [] && IsWhitespace(s[|s| - 1]) then TrimEnd(s[..|s| - 1]) else s
  }

  function Trim(s: string): string {
    TrimEnd(TrimStart(s))
  }

  predicate Blank(s: string) {
    Trim(s) == ""
  }

  /** How `format!` writes an unsigned integer. */
  function Decimal(n: nat): (s: string)
    ensures s != "" && forall i :: 0 <= i < |s| ==> '0' <= s[i] <= '9'
  {
    if n < 10 then [(48 + n) as char] else Decimal(n / 10) + [(48 + n % 10) as char]
  }

  predicate EndsTrimmed(s: string) {
    s == "" || !IsWhitespace(s[|s| - 1])
  }

  predicate StartsTrimmed(s: string) {
    s == "" || !IsWhitespace(s[0])
  }

  /** Octets of a scalar value in UTF-8 (section 3 of RFC 3629). */
  function Bytes(c: char): (n: nat)
    ensures 1 <= n <= 4
  {
    var v := c as int;
    if v < 0x80 then 1 else if v < 0x800 then 2 else if v < 0x10000 then 3 else 4
  }

  /** `str::len`. */
  function ByteLen(s: string): nat {
    if s == "" then 0 else ByteLen(s[..|s| - 1]) + Bytes(s[|s| - 1])
  }

  lemma {:induction false} ByteAppend(a: string, b: string)
    ensures ByteLen(a + b) == ByteLen(a) + ByteLen(b)
  {
    if b == "" {
      assert a + b == a;
    } else {
      assert (a + b)[..|a + b| - 1] == a + b[..|b| - 1];
      ByteAppend(a, b[..|b| - 1]);
    }
  }

  // ----- numbers -----

  /** The number a string of decimal digits stands for. */
  function ReadDecimal(s: string): (n: nat)
    requires forall i :: 0 <= i < |s| ==> '0' <= s[i] <= '9'
  {
    if s == "" then 0 else ReadDecimal(s[..|s| - 1]) * 10 + (s[|s| - 1] as int - 48)
  }

  /** A number is written in digits that read back as it, without a leading zero. */
  lemma {:induction false} DecimalReads(n: nat)
    ensures ReadDecimal(Decimal(n)) == n && (Decimal(n)[0] == '0' <==> n == 0)
  {
    if n >= 10 {
      DecimalReads(n / 10);
      DecimalStep(n);
    } else {
      assert Decimal(n)[..0] == "";
    }
  }

  lemma DecimalStep(n: nat)
    requires n >= 10
    ensures Decimal(n)[..|Decimal(n)| - 1] == Decimal(n / 10)
    ensures Decimal(n)[|Decimal(n)| - 1] as int == 48 + n % 10 && Decimal(n)[0] == Decimal(n / 10)[0]
  {
  }

  /** The 25 characters of the White_Space property. */
  lemma WhitespaceIs(c: char)
    ensures IsWhitespace(c) <==> c in {
      '\t', '\n', '\U{0B}', '\U{0C}', '\r', ' ', '\U{85}', '\U{A0}', '\U{1680}',
      '\U{2000}', '\U{2001}', '\U{2002}', '\U{2003}', '\U{2004}', '\U{2005}', '\U{2006}', '\U{2007}',
      '\U{2008}', '\U{2009}', '\U{200A}', '\U{2028}', '\U{2029}', '\U{202F}', '\U{205F}', '\U{3000}'}
  {
  }

  // ----- trimming -----

  /** `trim_end` keeps the shortest prefix after which only whitespace follows. */
  lemma {:induction false} TrimEndSplits(s: string)
    ensures TrimEnd(s) <= s && AllWhitespace(s[|TrimEnd(s)|..]) && EndsTrimmed(TrimEnd(s))
  {
    if s != [] && IsWhitespace(s[|s| - 1]) {
      var front, k := s[..|s| - 1], |TrimEnd(s)|;
      TrimEndSplits(front);
      forall i | 0 <= i < |s| - k ensures IsWhitespace(s[k..][i]) {
        if i < |front| - k { assert s[k..][i] == front[k..][i]; }
      }
    }
  }

  lemma {:induction false} TrimStartSplits(s: string)
    ensures |TrimStart(s)| <= |s| && TrimStart(s) == s[|s| - |TrimStart(s)|..]
    ensures AllWhitespace(s[..|s| - |TrimStart(s)|]) && StartsTrimmed(TrimStart(s))
  {
    if s != [] && IsWhitespace(s[0]) {
      TrimStartSplits(s[1..]);
      var k := |s| - |TrimStart(s)|;
      assert s[1..][..k - 1] == s[..k][1..];
      assert s[1..][|s[1..]| - |TrimStart(s[1..])|..] == s[k..];
      forall i | 0 <= i < k ensures IsWhitespace(s[..k][i]) {
        if i > 0 {
          assert s[..k][i] == s[1..][..k - 1][i - 1];
        }
      }
    }
  }

  lemma {:induction false} TrimEndAppendSpace(s: string, w: string)
    requires AllWhitespace(w)
    ensures TrimEnd(s + w) == TrimEnd(s)
  {
    if w == [] {
      assert s + w == s;
    } else {
      assert (s + w)[..|s + w| - 1] == s + w[..|w| - 1];
      TrimEndAppendSpace(s, w[..|w| - 1]);
    }
  }

  lemma {:induction false} TrimStartPrependSpace(w: string, s: string)
    requires AllWhitespace(w)
    ensures TrimStart(w + s) == TrimStart(s)
  {
    if w == [] {
      assert w + s == s;
    } else {
      assert (w + s)[1..] == w[1..] + s;
      TrimStartPrependSpace(w[1..], s);
    }
  }

  /** `trim_end` leaves everything before a non-blank tail alone. */
  lemma {:induction false} TrimEndAppend(a: string, b: string)
    requires TrimEnd(b) != ""
    ensures TrimEnd(a + b) == a + TrimEnd(b)
  {
    if IsWhitespace(b[|b| - 1]) {
      assert (a + b)[..|a + b| - 1] == a + b[..|b| - 1];
      TrimEndAppend(a, b[..|b| - 1]);
    }
  }

  lemma {:induction false} TrimEndBlank(s: string)
    ensures TrimEnd(s) == "" <==> AllWhitespace(s)
  {
    if s != [] {
      TrimEndBlank(s[..|s| - 1]);
      assert s == s[..|s| - 1] + [s[|s| - 1]];
    }
  }

  lemma TrimEndIdempotent(s: string)
    ensures TrimEnd(TrimEnd(s)) == TrimEnd(s)
  {
    TrimEndSplits(s);
  }

  lemma BlankIff(s: string)
    ensures Blank(s) <==> AllWhitespace(s)
  {
    TrimStartSplits(s);
    TrimEndBlank(TrimStart(s));
    if AllWhitespace(TrimStart(s)) {
      var k := |s| - |TrimStart(s)|;
      assert s == s[..k] + s[k..];
    }
  }

  lemma TrimBothWays(s: string)
    requires !AllWhitespace(s)
    ensures Trim(TrimEnd(s)) == Trim(s)
  {
    TrimStartSplits(s);
    var k := |s| - |TrimStart(s)|;
    assert s == s[..k] + TrimStart(s);
    BlankIff(s);
    TrimEndAppend(s[..k], TrimStart(s));
    TrimStartPrependSpace(s[..k], TrimEnd(TrimStart(s)));
    TrimEndIdempotent(TrimStart(s));
    TrimEndSplits(TrimStart(s));
    assert TrimEnd(TrimStart(s))[0] == TrimStart(s)[0];
  }

  lemma Associates(a: string, b: string, c: string)
    ensures a + b + c == a + (b + c)
  {
  }

  // ----- searching -----

  predicate OccursAt(s: string, pattern: string, i: nat) {
    i + |pattern| <= |s| && s[i..i + |pattern|] == pattern
  }

  /** `str::contains`. */
  predicate Contains(s: string, pattern: string) {
    exists i: nat :: i <= |s| && OccursAt(s, pattern, i)
  }

  /** The first occurrence at or after position `i`. */
  function FindFrom(s: string, pattern: string, i: nat): (r: Option<nat>)
    ensures r.Some? ==> i <= r.value && OccursAt(s, pattern, r.value)
    ensures r.Some? ==> forall j: nat :: i <= j < r.value ==> !OccursAt(s, pattern, j)
    ensures r.None? ==> forall j: nat :: i <= j ==> !OccursAt(s, pattern, j)
    decreases |s| - i
  {
    if i + |pattern| > |s| then None
    else if OccursAt(s, pattern, i) then Some(i)
    else FindFrom(s, pattern, i + 1)
  }

  /** `str::find`. */
  function Find(s: string, pattern: string): Option<nat> {
    FindFrom(s, pattern, 0)
  }

  lemma FindUnique(s: string, pattern: string, i: nat)
    requires OccursAt(s, pattern, i) && forall j: nat :: j < i ==> !OccursAt(s, pattern, j)
    ensures Find(s, pattern) == Some(i)
  {
  }

  lemma OccursInPart(s: string, a: nat, b: nat, pattern: string, i: nat)
    requires a <= b <= |s| && OccursAt(s[a..b], pattern, i)
    ensures OccursAt(s, pattern, a + i)
  {
    var inner, outer := s[a..b][i..i + |pattern|], s[a + i..a + i + |pattern|];
    assert |inner| == |outer| && forall k :: 0 <= k < |inner| ==> inner[k] == outer[k];
  }

  /** An occurrence that ends before the join of two strings is an occurrence in the first. */
  lemma OccursInLeft(a: string, b: string, pattern: string, i: nat)
    requires i + |pattern| <= |a|
    ensures OccursAt(a + b, pattern, i) <==> OccursAt(a, pattern, i)
  {
    assert (a + b)[i..i + |pattern|] == a[i..i + |pattern|];
  }

  /** A pattern without newlines never straddles one. */
  lemma NoStraddle(a: string, b: string, pattern: string, i: nat)
    requires '\n' !in pattern && OccursAt(a + "\n" + b, pattern, i) && pattern != ""
    ensures i + |pattern| <= |a| || i > |a|
    ensures i + |pattern| <= |a| ==> OccursAt(a, pattern, i)
    ensures i > |a| ==> OccursAt(b, pattern, i - |a| - 1)
  {
    var s := a + "\n" + b;
    assert s[|a|] == '\n';
    assert forall k :: i <= k < i + |pattern| ==> s[k] == s[i..i + |pattern|][k - i] == pattern[k - i];
    if i + |pattern| <= |a| {
      assert s[i..i + |pattern|] == a[i..i + |pattern|];
    }
    if i > |a| {
      assert s[i..i + |pattern|] == b[i - |a| - 1..i - |a| - 1 + |pattern|];
    }
  }
}
