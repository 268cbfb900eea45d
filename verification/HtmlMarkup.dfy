/**
 * The HTML that is sent to Telegram, written and read back.
 *
 * `Flatten` writes markup as the renderer does, with its two escaping rules; `Scan` is an independent
 * reader of HTML text that knows tags, double-quoted attributes and the four entities in use.
 */
module HtmlMarkup {
  import opened Options
  import opened Text

  datatype Attr = Attr(key: string, value: string)

  datatype Markup =
    | Open(name: string, attr: Option<Attr>)
    | Close(name: string)
    | Chr(c: char)
    | Raw(html: string)

  // ----- writing -----

  function EscapeChar(c: char): string {
    if c == '&' then "&amp;" else if c == '<' then "&lt;" else if c == '>' then "&gt;" else [c]
  }

  function EscapeText(s: string): string {
    if s == "" then "" else EscapeChar(s[0]) + EscapeText(s[1..])
  }

  function EscapeAttrChar(c: char): string {
    if c == '&' then "&amp;" else if c == '"' then "&quot;" else if c == '<' then "&lt;" else [c]
  }

  function EscapeAttr(s: string): string {
    if s == "" then "" else EscapeAttrChar(s[0]) + EscapeAttr(s[1..])
  }

  /** What comes out holds no bracket, and is the text itself exactly if that held nothing to escape. */
  lemma {:induction false} TextEscaped(s: string)
    ensures '<' !in EscapeText(s) && '>' !in EscapeText(s) && |s| <= |EscapeText(s)|
    ensures EscapeText(s) == s <==> '&' !in s && '<' !in s && '>' !in s
    ensures |EscapeText(s)| == |s| <==> EscapeText(s) == s
  {
    if s != "" {
      TextEscaped(s[1..]);
      Escaped(s[0], EscapeChar(s[0]), s[1..], EscapeText(s[1..]));
    }
  }

  /** A value holds no quote and no opening bracket, and is itself exactly if it held nothing to escape. */
  lemma {:induction false} AttrEscaped(s: string)
    ensures '"' !in EscapeAttr(s) && '<' !in EscapeAttr(s) && |s| <= |EscapeAttr(s)|
    ensures EscapeAttr(s) == s <==> '&' !in s && '"' !in s && '<' !in s
    ensures |EscapeAttr(s)| == |s| <==> EscapeAttr(s) == s
  {
    if s != "" {
      AttrEscaped(s[1..]);
      Escaped(s[0], EscapeAttrChar(s[0]), s[1..], EscapeAttr(s[1..]));
    }
  }

  lemma Escaped(c: char, e: string, rest: string, more: string)
    requires e == [c] || |e| > 1
    requires |rest| <= |more| && (|more| == |rest| <==> more == rest)
    ensures |[c] + rest| <= |e + more|
    ensures e + more == [c] + rest <==> e == [c] && more == rest
    ensures |e + more| == |[c] + rest| <==> e + more == [c] + rest
  {
  }

  function FlatAttr(attr: Option<Attr>): string {
    match attr
    case None => ""
    case Some(a) => " " + a.key + "=\"" + EscapeAttr(a.value) + "\""
  }

  function Flat(m: Markup): string {
    match m
    case Open(name, attr) => "<" + name + FlatAttr(attr) + ">"
    case Close(name) => "</" + name + ">"
    case Chr(c) => EscapeChar(c)
    case Raw(html) => html
  }

  function Flatten(ms: seq<Markup>): string {
    if ms == [] then "" else Flat(ms[0]) + Flatten(ms[1..])
  }

  function Chars(s: string): seq<Markup> {
    seq(|s|, i requires 0 <= i < |s| => Chr(s[i]))
  }

  // ----- reading -----

  /** The entity at the start of `s`: the character it stands for and its length. */
  function Entity(s: string): Option<(char, nat)> {
    if "&amp;" <= s then Some(('&', 5))
    else if "&lt;" <= s then Some(('<', 4))
    else if "&gt;" <= s then Some(('>', 4))
    else if "&quot;" <= s then Some(('"', 6))
    else None
  }

  function Unescape(s: string): string {
    if s == "" then ""
    else match Entity(s)
      case Some(e) => if e.1 == 0 || e.1 > |s| then s else [e.0] + Unescape(s[e.1..])
      case None => [s[0]] + Unescape(s[1..])
  }

  function NameLength(s: string): (n: nat)
    ensures n <= |s|
  {
    if s != "" && 'a' <= s[0] <= 'z' then 1 + NameLength(s[1..]) else 0
  }

  function UntilQuote(s: string): (n: nat)
    ensures n <= |s|
  {
    if s == "" || s[0] == '"' then 0 else 1 + UntilQuote(s[1..])
  }

  datatype Tag = Tag(markup: Markup, rest: string)

  /** What follows the name in an opening tag. */
  function ScanAttr(name: string, s: string): (r: Option<Tag>)
    ensures r.Some? ==> |r.value.rest| < |s|
  {
    if s == "" then None
    else if s[0] == '>' then Some(Tag(Open(name, None), s[1..]))
    else
      var k := NameLength(s[1..]);
      if s[0] != ' ' || |s| < k + 3 || s[k + 1] != '=' || s[k + 2] != '"' then None
      else
        var value := s[k + 3..];
        var q := UntilQuote(value);
        if |value| < q + 2 || value[q + 1] != '>' then None
        else Some(Tag(Open(name, Some(Attr(s[1..k + 1], Unescape(value[..q])))), value[q + 2..]))
  }

  /** The tag whose text begins at `s`, right after its `<`. */
  function ScanTag(s: string): (r: Option<Tag>)
    ensures r.Some? ==> |r.value.rest| < |s|
  {
    if s != "" && s[0] == '/' then
      var n := NameLength(s[1..]);
      if n + 1 < |s| && s[n + 1] == '>' then Some(Tag(Close(s[1..n + 1]), s[n + 2..])) else None
    else
      ScanAttr(s[..NameLength(s)], s[NameLength(s)..])
  }

  function Scan(s: string): seq<Markup>
    decreases |s|
  {
    if s == "" then []
    else if s[0] == '<' then
      match ScanTag(s[1..])
      case Some(t) => [t.markup] + Scan(t.rest)
      case None => [Chr('<')] + Scan(s[1..])
    else
      match Entity(s)
      case Some(e) => if e.1 == 0 || e.1 > |s| then [] else [Chr(e.0)] + Scan(s[e.1..])
      case None => [Chr(s[0])] + Scan(s[1..])
  }

  /** The names of the tags left open by `ms`, if every closing tag meets its opening one. */
  function Nest(ms: seq<Markup>, open: seq<string>): Option<seq<string>> {
    if ms == [] then Some(open)
    else match ms[0]
      case Open(name, _) => Nest(ms[1..], open + [name])
      case Close(name) =>
        if open != [] && open[|open| - 1] == name then Nest(ms[1..], open[..|open| - 1]) else None
      case _ => Nest(ms[1..], open)
  }

  function Glyph(m: Markup): string {
    if m.Chr? then [m.c] else ""
  }

  /** The text between the tags. */
  function Visible(ms: seq<Markup>): string {
    if ms == [] then "" else Glyph(ms[0]) + Visible(ms[1..])
  }

  function Link(m: Markup): seq<string> {
    if m.Open? && m.name == "a" && m.attr.Some? then [m.attr.value.value] else []
  }

  /** The targets of the links, in order. */
  function Links(ms: seq<Markup>): seq<string> {
    if ms == [] then [] else Link(ms[0]) + Links(ms[1..])
  }

  // ----- reading gives back what was written -----

  predicate Letters(s: string) {
    forall i :: 0 <= i < |s| ==> 'a' <= s[i] <= 'z'
  }

  predicate Proper(m: Markup) {
    match m
    case Open(name, attr) => Letters(name) && (attr.Some? ==> Letters(attr.value.key))
    case Close(name) => Letters(name)
    case Chr(_) => true
    case Raw(_) => false
  }

  predicate AllProper(ms: seq<Markup>) {
    forall i :: 0 <= i < |ms| ==> Proper(ms[i])
  }

  lemma {:induction false} NameLengthIs(name: string, rest: string)
    requires Letters(name) && (rest == "" || !('a' <= rest[0] <= 'z'))
    ensures NameLength(name + rest) == |name|
  {
    if name == "" {
      assert name + rest == rest;
    } else {
      assert (name + rest)[1..] == name[1..] + rest;
      NameLengthIs(name[1..], rest);
    }
  }

  lemma {:induction false} UntilQuoteIs(v: string, rest: string)
    ensures UntilQuote(EscapeAttr(v) + "\"" + rest) == |EscapeAttr(v)|
  {
    if v == "" {
      assert EscapeAttr(v) + "\"" + rest == "\"" + rest;
    } else {
      var tail := EscapeAttr(v[1..]) + "\"" + rest;
      UntilQuoteIs(v[1..], rest);
      QuoteFree(EscapeAttrChar(v[0]), tail);
      assert EscapeAttr(v) + "\"" + rest == EscapeAttrChar(v[0]) + tail;
    }
  }

  lemma {:induction false} QuoteFree(a: string, b: string)
    requires '"' !in a
    ensures UntilQuote(a + b) == |a| + UntilQuote(b)
  {
    if a == "" {
      assert a + b == b;
    } else {
      assert (a + b)[1..] == a[1..] + b;
      QuoteFree(a[1..], b);
    }
  }

  lemma NotPrefix(p: string, s: string, i: nat)
    requires i < |p| && i < |s| && p[i] != s[i]
    ensures !(p <= s)
  {
  }

  lemma EntityOf(c: char, rest: string)
    requires c == '&' || c == '<' || c == '>'
    ensures Entity(EscapeChar(c) + rest) == Some((c, |EscapeChar(c)|))
  {
    var s := EscapeChar(c) + rest;
    if c == '<' {
      NotPrefix("&amp;", s, 1);
    } else if c == '>' {
      NotPrefix("&amp;", s, 1);
      NotPrefix("&lt;", s, 1);
    }
  }

  lemma AttrEntityOf(c: char, rest: string)
    requires c == '&' || c == '<' || c == '"'
    ensures Entity(EscapeAttrChar(c) + rest) == Some((c, |EscapeAttrChar(c)|))
  {
    var s := EscapeAttrChar(c) + rest;
    if c == '<' {
      NotPrefix("&amp;", s, 1);
    } else if c == '"' {
      NotPrefix("&amp;", s, 1);
      NotPrefix("&lt;", s, 1);
      NotPrefix("&gt;", s, 1);
    }
  }

  lemma UnescapeFirst(c: char, tail: string)
    ensures Unescape(EscapeAttrChar(c) + tail) == [c] + Unescape(tail)
  {
    var s := EscapeAttrChar(c) + tail;
    if c == '&' || c == '<' || c == '"' {
      AttrEntityOf(c, tail);
      assert s[|EscapeAttrChar(c)|..] == tail;
    } else {
      assert s[0] == c && s[1..] == tail;
    }
  }

  /** An attribute value comes back from its escaped form. */
  lemma {:induction false} AttrRoundTrip(v: string)
    ensures Unescape(EscapeAttr(v)) == v
  {
    if v != "" {
      AttrRoundTrip(v[1..]);
      UnescapeFirst(v[0], EscapeAttr(v[1..]));
      assert [v[0]] + v[1..] == v;
    }
  }

  lemma ScanChr(c: char, rest: string)
    ensures Scan(EscapeChar(c) + rest) == [Chr(c)] + Scan(rest)
  {
    var s := EscapeChar(c) + rest;
    if c == '&' || c == '<' || c == '>' {
      EntityOf(c, rest);
      assert s[0] == '&';
      assert s[|EscapeChar(c)|..] == rest;
    } else {
      assert s[0] == c && s[1..] == rest;
    }
  }

  lemma ScanClose(name: string, rest: string)
    requires Letters(name)
    ensures ScanTag("/" + name + ">" + rest) == Some(Tag(Close(name), rest))
  {
    var s := "/" + name + ">" + rest;
    var tail := ">" + rest;
    assert s[1..] == name + tail;
    NameLengthIs(name, tail);
    assert s[1..|name| + 1] == name && s[|name| + 1] == '>' && s[|name| + 2..] == rest;
  }

  lemma AttrText(a: Attr, rest: string)
    ensures FlatAttr(Some(a)) + ">" + rest
         == " " + (a.key + ("=\"" + (EscapeAttr(a.value) + "\"" + (">" + rest))))
  {
    AttrParts(" ", a.key, "=\"", EscapeAttr(a.value), "\"", ">" + rest);
    Associates(FlatAttr(Some(a)), ">", rest);
  }

  lemma AttrParts(blank: string, key: string, equals: string, value: string, quote: string, rest: string)
    ensures blank + key + equals + value + quote + rest == blank + (key + (equals + (value + quote + rest)))
  {
  }

  /** Key and value, cut where the reader cuts them. */
  lemma AttrLayout(key: string, value: string)
    requires Letters(key)
    ensures var s, k := " " + (key + ("=\"" + value)), |key|;
      && s[1..k + 1] == key && s[k + 1] == '=' && s[k + 2] == '"' && s[k + 3..] == value
      && NameLength(s[1..]) == k
  {
    var afterKey := "=\"" + value;
    var s := " " + (key + afterKey);
    assert s[1..] == key + afterKey;
    NameLengthIs(key, afterKey);
    assert s[|key| + 1] == afterKey[0] && s[|key| + 2] == afterKey[1];
  }

  lemma ScanLaidOut(name: string, s: string, key: string, value: string)
    requires |s| >= |key| + 3 && s[0] == ' ' && NameLength(s[1..]) == |key| && s[1..|key| + 1] == key
    requires s[|key| + 1] == '=' && s[|key| + 2] == '"' && s[|key| + 3..] == value
    requires UntilQuote(value) + 1 < |value| && value[UntilQuote(value) + 1] == '>'
    ensures var q := UntilQuote(value);
      ScanAttr(name, s) == Some(Tag(Open(name, Some(Attr(key, Unescape(value[..q])))), value[q + 2..]))
  {
  }

  lemma ValueCut(v: string, rest: string)
    ensures var value := EscapeAttr(v) + "\"" + (">" + rest);
      && UntilQuote(value) + 1 < |value| && value[UntilQuote(value) + 1] == '>'
      && Unescape(value[..UntilQuote(value)]) == v && value[UntilQuote(value) + 2..] == rest
  {
    UntilQuoteIs(v, ">" + rest);
    AttrRoundTrip(v);
    var value := EscapeAttr(v) + "\"" + (">" + rest);
    assert value[..|EscapeAttr(v)|] == EscapeAttr(v);
  }

  lemma ScanAttrIs(name: string, a: Attr, rest: string)
    requires Letters(a.key)
    ensures ScanAttr(name, FlatAttr(Some(a)) + ">" + rest) == Some(Tag(Open(name, Some(a)), rest))
  {
    var value := EscapeAttr(a.value) + "\"" + (">" + rest);
    AttrText(a, rest);
    AttrLayout(a.key, value);
    ValueCut(a.value, rest);
    ScanLaidOut(name, " " + (a.key + ("=\"" + value)), a.key, value);
  }

  lemma ScanNamed(name: string, tail: string)
    requires Letters(name) && tail != "" && !('a' <= tail[0] <= 'z') && tail[0] != '/'
    ensures ScanTag(name + tail) == ScanAttr(name, tail)
  {
    var s := name + tail;
    NameLengthIs(name, tail);
    assert s[..|name|] == name && s[|name|..] == tail;
    assert s[0] != '/';
  }

  lemma ScanOpen(name: string, attr: Option<Attr>, rest: string)
    requires Proper(Open(name, attr))
    ensures ScanTag(name + FlatAttr(attr) + ">" + rest) == Some(Tag(Open(name, attr), rest))
  {
    var tail := FlatAttr(attr) + ">" + rest;
    assert name + FlatAttr(attr) + ">" + rest == name + tail;
    if attr.Some? {
      ScanAttrIs(name, attr.value, rest);
    } else {
      assert tail == ">" + rest;
      assert (">" + rest)[1..] == rest;
    }
    ScanNamed(name, tail);
  }

  lemma ScanStep(t: string, tag: Tag)
    requires ScanTag(t) == Some(tag)
    ensures Scan("<" + t) == [tag.markup] + Scan(tag.rest)
  {
    assert ("<" + t)[1..] == t;
  }

  function TagText(m: Markup): string
    requires m.Open? || m.Close?
  {
    if m.Open? then m.name + FlatAttr(m.attr) + ">" else "/" + m.name + ">"
  }

  lemma FlatTag(m: Markup, rest: string)
    requires m.Open? || m.Close?
    ensures Flat(m) + rest == "<" + (TagText(m) + rest)
  {
    if m.Open? {
      TagParts("<", m.name, FlatAttr(m.attr), ">", rest);
    } else {
      assert "</" == "<" + "/";
      TagParts("<", "/", m.name, ">", rest);
    }
  }

  lemma TagParts(bracket: string, a: string, b: string, c: string, rest: string)
    ensures bracket + a + b + c + rest == bracket + (a + b + c + rest)
  {
  }

  lemma ScanOne(m: Markup, rest: string)
    requires Proper(m)
    ensures Scan(Flat(m) + rest) == [m] + Scan(rest)
  {
    if m.Chr? {
      ScanChr(m.c, rest);
    } else {
      FlatTag(m, rest);
      ScanStep(TagText(m) + rest, Tag(m, rest)) by {
        if m.Open? { ScanOpen(m.name, m.attr, rest); } else { ScanClose(m.name, rest); }
      }
    }
  }

  /** Reading the written markup gives it back: no text can pose as a tag, no attribute can break out of one. */
  lemma {:induction false} ScanFlatten(ms: seq<Markup>)
    requires AllProper(ms)
    ensures Scan(Flatten(ms)) == ms
  {
    if ms != [] {
      ScanFlatten(ms[1..]);
      ScanOne(ms[0], Flatten(ms[1..]));
      assert [ms[0]] + ms[1..] == ms;
    }
  }

  // ----- joining -----

  lemma {:induction false} FlattenAppend(a: seq<Markup>, b: seq<Markup>)
    ensures Flatten(a + b) == Flatten(a) + Flatten(b)
  {
    if a == [] {
      assert a + b == b;
    } else {
      assert (a + b)[1..] == a[1..] + b;
      FlattenAppend(a[1..], b);
    }
  }

  lemma {:induction false} VisibleAppend(a: seq<Markup>, b: seq<Markup>)
    ensures Visible(a + b) == Visible(a) + Visible(b)
  {
    if a == [] {
      assert a + b == b;
    } else {
      assert (a + b)[1..] == a[1..] + b;
      VisibleAppend(a[1..], b);
    }
  }

  lemma {:induction false} LinksAppend(a: seq<Markup>, b: seq<Markup>)
    ensures Links(a + b) == Links(a) + Links(b)
  {
    if a == [] {
      assert a + b == b;
    } else {
      assert (a + b)[1..] == a[1..] + b;
      LinksAppend(a[1..], b);
    }
  }

  lemma {:induction false} NestAppend(a: seq<Markup>, b: seq<Markup>, open: seq<string>)
    ensures Nest(a + b, open) == if Nest(a, open) == None then None else Nest(b, Nest(a, open).value)
  {
    if a == [] {
      assert a + b == b;
    } else {
      assert (a + b)[1..] == a[1..] + b;
      match a[0]
      case Open(name, _) => NestAppend(a[1..], b, open + [name]);
      case Close(name) => if open != [] { NestAppend(a[1..], b, open[..|open| - 1]); }
      case Chr(_) => NestAppend(a[1..], b, open);
      case Raw(_) => NestAppend(a[1..], b, open);
    }
  }

  /** Plain characters: escaped when written, shown as they are, outside every tag. */
  lemma {:induction false} CharsAre(s: string, open: seq<string>)
    ensures Flatten(Chars(s)) == EscapeText(s) && Visible(Chars(s)) == s && Links(Chars(s)) == []
    ensures Nest(Chars(s), open) == Some(open) && AllProper(Chars(s))
  {
    if s != "" {
      assert Chars(s)[1..] == Chars(s[1..]);
      CharsAre(s[1..], open);
      assert [s[0]] + s[1..] == s;
    }
  }

  // ----- trimming -----

  predicate Space(m: Markup) {
    m.Chr? && IsWhitespace(m.c)
  }

  predicate AllSpace(ms: seq<Markup>) {
    forall i :: 0 <= i < |ms| ==> Space(ms[i])
  }

  lemma FlatEnds(m: Markup)
    requires Proper(m)
    ensures Flat(m) != ""
    ensures Space(m) ==> Flat(m) == [m.c]
    ensures !Space(m) ==> !IsWhitespace(Flat(m)[0]) && !IsWhitespace(Flat(m)[|Flat(m)| - 1])
  {
  }

  lemma SliceOfSlice(ms: seq<Markup>, i: nat, k: nat)
    requires i + k <= |ms|
    ensures ms[i..][..k] == ms[i..i + k] && ms[i..][k..] == ms[i + k..]
  {
  }

  lemma PartProper(ms: seq<Markup>, k: nat)
    requires AllProper(ms) && k <= |ms|
    ensures AllProper(ms[..k]) && AllProper(ms[k..])
  {
  }

  lemma TrimInTwo(s: string, middle: string, r: string)
    requires TrimStart(s) == middle && TrimEnd(middle) == r
    ensures Trim(s) == r
  {
  }

  /** Trimming the text drops exactly the whitespace characters at its two ends, never a part of a tag. */
  lemma TrimFlatten(ms: seq<Markup>) returns (i: nat, j: nat)
    requires AllProper(ms)
    ensures i <= j <= |ms| && AllSpace(ms[..i]) && AllSpace(ms[j..])
    ensures Trim(Flatten(ms)) == Flatten(ms[i..j])
  {
    i := TrimLeft(ms);
    PartProper(ms, i);
    var rest := ms[i..];
    var k := TrimRight(rest);
    TrimInTwo(Flatten(ms), Flatten(rest), Flatten(rest[..k]));
    SliceOfSlice(ms, i, k);
    j := i + k;
  }

  lemma {:induction false} TrimLeft(ms: seq<Markup>) returns (i: nat)
    requires AllProper(ms)
    ensures i <= |ms| && AllSpace(ms[..i]) && TrimStart(Flatten(ms)) == Flatten(ms[i..])
  {
    i := 0;
    if ms != [] {
      FlatEnds(ms[0]);
      if Space(ms[0]) {
        assert Flatten(ms)[1..] == Flatten(ms[1..]);
        var k := TrimLeft(ms[1..]);
        i := k + 1;
        assert ms[1..][k..] == ms[i..];
        assert forall x :: 0 < x < i ==> ms[..i][x] == ms[1..][..k][x - 1];
      }
    }
  }

  lemma FlattenLast(front: seq<Markup>, last: Markup)
    ensures Flatten(front + [last]) == Flatten(front) + Flat(last)
  {
    FlattenAppend(front, [last]);
    assert Flatten([last]) == Flat(last) + Flatten([last][1..]);
  }

  lemma {:induction false} TrimRight(ms: seq<Markup>) returns (j: nat)
    requires AllProper(ms)
    ensures j <= |ms| && AllSpace(ms[j..]) && TrimEnd(Flatten(ms)) == Flatten(ms[..j])
  {
    j := |ms|;
    assert ms[..j] == ms;
    if ms != [] {
      var front, last := ms[..|ms| - 1], ms[|ms| - 1];
      assert front + [last] == ms;
      TrimLast(front, last);
      if Space(last) {
        PartProper(ms, |ms| - 1);
        j := TrimRight(front);
        SpaceTail(ms, j);
      }
    }
  }

  lemma TrimLast(front: seq<Markup>, last: Markup)
    requires Proper(last)
    ensures Space(last) ==> TrimEnd(Flatten(front + [last])) == TrimEnd(Flatten(front))
    ensures !Space(last) ==> TrimEnd(Flatten(front + [last])) == Flatten(front + [last])
  {
    FlatEnds(last);
    FlattenLast(front, last);
  }

  lemma SpaceTail(ms: seq<Markup>, j: nat)
    requires j < |ms| && Space(ms[|ms| - 1]) && AllSpace(ms[..|ms| - 1][j..])
    ensures AllSpace(ms[j..]) && ms[..|ms| - 1][..j] == ms[..j]
  {
    assert forall x :: 0 <= x < |ms[j..]| - 1 ==> ms[j..][x] == ms[..|ms| - 1][j..][x];
  }

  lemma {:induction false} SpaceIsNeutral(ms: seq<Markup>, open: seq<string>)
    requires AllSpace(ms)
    ensures Nest(ms, open) == Some(open) && AllWhitespace(Visible(ms)) && Links(ms) == []
  {
    if ms != [] {
      assert forall i :: 0 <= i < |ms[1..]| ==> ms[1..][i] == ms[i + 1];
      SpaceIsNeutral(ms[1..], open);
    }
  }

  lemma SpaceKeepsNest(head: seq<Markup>, kept: seq<Markup>, tail: seq<Markup>)
    requires AllSpace(head) && AllSpace(tail)
    ensures Nest(head + kept + tail, []) == Nest(kept, [])
  {
    NestAppend(head + kept, tail, []);
    NestAppend(head, kept, []);
    SpaceIsNeutral(head, []);
    if Nest(kept, []).Some? {
      SpaceIsNeutral(tail, Nest(kept, []).value);
    }
  }

  lemma SpaceKeepsText(head: seq<Markup>, kept: seq<Markup>, tail: seq<Markup>)
    requires AllSpace(head) && AllSpace(tail)
    ensures Links(head + kept + tail) == Links(kept)
    ensures Visible(head) + Visible(kept) + Visible(tail) == Visible(head + kept + tail)
    ensures AllWhitespace(Visible(head)) && AllWhitespace(Visible(tail))
  {
    VisibleAppend(head, kept);
    VisibleAppend(head + kept, tail);
    LinksAppend(head, kept);
    LinksAppend(head + kept, tail);
    SpaceIsNeutral(head, []);
    SpaceIsNeutral(tail, []);
  }

  lemma InThree(ms: seq<Markup>, i: nat, j: nat)
    requires i <= j <= |ms|
    ensures ms[..i] + ms[i..j] + ms[j..] == ms
  {
  }

  /** What a reader gets from the trimmed text. */
  lemma ReadTrimmed(ms: seq<Markup>) returns (before: string, after: string)
    requires AllProper(ms)
    ensures AllWhitespace(before) && AllWhitespace(after)
    ensures before + Visible(Scan(Trim(Flatten(ms)))) + after == Visible(ms)
    ensures Nest(Scan(Trim(Flatten(ms))), []) == Nest(ms, [])
    ensures Links(Scan(Trim(Flatten(ms)))) == Links(ms)
  {
    var i, j := TrimFlatten(ms);
    ScanFlatten(ms[i..j]);
    InThree(ms, i, j);
    SpaceKeepsNest(ms[..i], ms[i..j], ms[j..]);
    SpaceKeepsText(ms[..i], ms[i..j], ms[j..]);
    before, after := Visible(ms[..i]), Visible(ms[j..]);
  }
}
