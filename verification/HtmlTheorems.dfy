/**
 * What a reader of the rendered HTML sees.
 *
 * `Pieces` says, without tags, stack or buffers, which text a stream of events shows: its own text and the
 * marks the renderer adds. The lemmas say what each of the renderer's building blocks adds to the text, the
 * tags and the link targets a reader sees; `HtmlReading` puts them together for a whole stream.
 */
module HtmlTheorems {
  import opened Options
  import opened Text
  import opened HtmlMarkup
  import opened HtmlRenderer

  // ----- well-nested streams -----

  function EndOf(tag: MdTag): MdEnd {
    match tag
    case Heading => HeadingEnd
    case Strong => StrongEnd
    case Emphasis => EmphasisEnd
    case Strikethrough => StrikethroughEnd
    case Link(_) => LinkEnd
    case BlockQuote => BlockQuoteEnd
    case List(_) => ListEnd
    case Item => ItemEnd
    case CodeBlock(_) => CodeBlockEnd
    case Table => TableEnd
    case TableRow => TableRowEnd
    case TableCell => TableCellEnd
    case Paragraph => ParagraphEnd
    case OtherTag => OtherEnd
  }

  predicate InCode(open: seq<MdEnd>) {
    open != [] && open[|open| - 1] == CodeBlockEnd
  }

  /** Every end closes the innermost start, nothing starts inside a code block, items are inside lists. */
  predicate WellNested(es: seq<Event>, open: seq<MdEnd>) {
    if es == [] then open == []
    else match es[0]
      case Start(tag) =>
        !InCode(open) && (tag.Item? ==> ListEnd in open) && WellNested(es[1..], open + [EndOf(tag)])
      case End(end) =>
        open != [] && open[|open| - 1] == end && WellNested(es[1..], open[..|open| - 1])
      case _ => WellNested(es[1..], open)
  }

  predicate NoRawHtml(es: seq<Event>) {
    forall i :: 0 <= i < |es| ==> !es[i].RawHtml?
  }

  // ----- the text a stream shows -----

  /** Text of the stream itself, or a mark that the renderer adds. */
  datatype Piece = Source(text: string) | Mark(text: string)

  /** Where the reader is: whether nothing is on the current line, the open lists, inside a code block. */
  datatype Line = Line(atStart: bool, counters: seq<Counter>, code: bool)

  const TOP := Line(true, [], false)

  const RULE_TEXT := "\U{2500}\U{2500}\U{2500}\U{2500}\U{2500}\U{2500}\U{2500}\U{2500}\n"

  /** What stands before an item: a bullet, or its number in its list, from 1. */
  function ItemText(c: Counter): string {
    if c.Bullet? then "\U{2022} " else Decimal(c.n + 1) + ". "
  }

  function OneMore(c: Counter): Counter {
    if c.Bullet? then c else Ordered(c.n + 1)
  }

  function Fresh(l: Line): seq<Piece> {
    if l.atStart then [] else [Mark("\n")]
  }

  predicate EndsLine(text: string) {
    text != "" && text[|text| - 1] == '\n'
  }

  function Show(l: Line, e: Event): (seq<Piece>, Line) {
    if l.code then
      match e
      case TextRun(t) => ([Source(t)], l)
      case CodeSpan(t) => ([Source(t)], l)
      case SoftBreak => ([Source("\n")], l)
      case HardBreak => ([Source("\n")], l)
      case End(CodeBlockEnd) => ([Mark("\n")], l.(atStart := true, code := false))
      case _ => ([], l)
    else
      match e
      case TextRun(t) => ([Source(t)], if t == "" then l else l.(atStart := EndsLine(t)))
      case CodeSpan(t) => ([Source(t)], l.(atStart := false))
      case SoftBreak => ([Source("\n")], l.(atStart := true))
      case HardBreak => ([Source("\n")], l.(atStart := true))
      case Rule => (Fresh(l) + [Mark(RULE_TEXT)], l.(atStart := true))
      case Start(tag) => ShowStart(l, tag)
      case End(end) => ShowEnd(l, end)
      case _ => ([], l)
  }

  function ShowStart(l: Line, tag: MdTag): (seq<Piece>, Line) {
    match tag
    case Heading => (Fresh(l), l.(atStart := false))
    case BlockQuote => (Fresh(l), l.(atStart := false))
    case Strong => ([], l.(atStart := false))
    case Emphasis => ([], l.(atStart := false))
    case Strikethrough => ([], l.(atStart := false))
    case Link(_) => ([], l.(atStart := false))
    case List(ordered) =>
      (Fresh(l), l.(atStart := true, counters := l.counters + [if ordered then Ordered(0) else Bullet]))
    case Item =>
      if l.counters == [] then ([], l)
      else
        var last := |l.counters| - 1;
        (Fresh(l) + [Mark(ItemText(l.counters[last]))],
         l.(atStart := false, counters := l.counters[last := OneMore(l.counters[last])]))
    case CodeBlock(_) => (Fresh(l), l.(atStart := true, code := true))
    case _ => ([], l)
  }

  function ShowEnd(l: Line, end: MdEnd): (seq<Piece>, Line) {
    match end
    case ListEnd =>
      ([Mark("\n")], l.(atStart := true, counters := if l.counters == [] then [] else l.counters[..|l.counters| - 1]))
    case TableEnd => ([Mark("\n")], l.(atStart := true))
    case TableRowEnd => ([Mark("\n")], l.(atStart := true))
    case TableCellEnd => ([Mark("\n")], l.(atStart := true))
    case ParagraphEnd => ([Mark("\n")], l.(atStart := true))
    case ItemEnd => ([], l)
    case CodeBlockEnd => ([], l)
    case OtherEnd => ([], l)
    case _ => ([], l.(atStart := false))
  }

  function Pieces(es: seq<Event>, l: Line): seq<Piece> {
    if es == [] then [] else Show(l, es[0]).0 + Pieces(es[1..], Show(l, es[0]).1)
  }

  function Joined(ps: seq<Piece>): string {
    if ps == [] then "" else ps[0].text + Joined(ps[1..])
  }

  /** The stream's own text alone. */
  function SourceOnly(ps: seq<Piece>): string {
    if ps == [] then "" else (if ps[0].Source? then ps[0].text else "") + SourceOnly(ps[1..])
  }

  function EventText(e: Event): string {
    match e
    case TextRun(t) => t
    case CodeSpan(t) => t
    case SoftBreak => "\n"
    case HardBreak => "\n"
    case _ => ""
  }

  function StreamText(es: seq<Event>): string {
    if es == [] then "" else EventText(es[0]) + StreamText(es[1..])
  }

  function EventLinks(e: Event): seq<string> {
    if e.Start? && e.tag.Link? then [e.tag.url] else []
  }

  function StreamLinks(es: seq<Event>): seq<string> {
    if es == [] then [] else EventLinks(es[0]) + StreamLinks(es[1..])
  }

  ghost predicate KnownMark(text: string) {
    text == "\n" || text == RULE_TEXT || exists c :: text == ItemText(c)
  }

  // ----- facts about the shown text -----

  lemma {:induction false} JoinedAppend(a: seq<Piece>, b: seq<Piece>)
    ensures Joined(a + b) == Joined(a) + Joined(b)
  {
    if a == [] {
      assert a + b == b;
    } else {
      assert (a + b)[1..] == a[1..] + b;
      JoinedAppend(a[1..], b);
    }
  }

  lemma {:induction false} SourceOnlyAppend(a: seq<Piece>, b: seq<Piece>)
    ensures SourceOnly(a + b) == SourceOnly(a) + SourceOnly(b)
  {
    if a == [] {
      assert a + b == b;
    } else {
      assert (a + b)[1..] == a[1..] + b;
      SourceOnlyAppend(a[1..], b);
    }
  }

  lemma MarksHaveNoSource(ps: seq<Piece>)
    requires |ps| <= 2 && forall i :: 0 <= i < |ps| ==> ps[i].Mark?
    ensures SourceOnly(ps) == ""
  {
    if ps != [] {
      assert SourceOnly(ps[1..]) == "" by {
        if |ps| == 2 { assert ps[1..][1..] == []; }
      }
    }
  }

  lemma ShowKeepsSource(l: Line, e: Event)
    ensures SourceOnly(Show(l, e).0) == EventText(e)
    ensures forall i :: 0 <= i < |Show(l, e).0| && Show(l, e).0[i].Mark? ==> KnownMark(Show(l, e).0[i].text)
  {
    var ps := Show(l, e).0;
    if e.TextRun? || e.CodeSpan? || e.SoftBreak? || e.HardBreak? {
      assert ps == [Source(EventText(e))];
      assert SourceOnly(ps) == EventText(e) + SourceOnly([]);
    } else {
      MarksHaveNoSource(ps);
    }
  }

  /** The marks are the only addition: without them the shown text is the stream's text, in order. */
  lemma {:induction false} PiecesKeepText(es: seq<Event>, l: Line)
    ensures SourceOnly(Pieces(es, l)) == StreamText(es)
    ensures forall i :: 0 <= i < |Pieces(es, l)| && Pieces(es, l)[i].Mark? ==> KnownMark(Pieces(es, l)[i].text)
  {
    if es != [] {
      var now, later := Show(l, es[0]).0, Pieces(es[1..], Show(l, es[0]).1);
      ShowKeepsSource(l, es[0]);
      PiecesKeepText(es[1..], Show(l, es[0]).1);
      SourceOnlyAppend(now, later);
      forall i | 0 <= i < |now + later| && (now + later)[i].Mark?
        ensures KnownMark((now + later)[i].text)
      {
        if i >= |now| { assert (now + later)[i] == later[i - |now|]; }
      }
    }
  }

  // ----- what each primitive adds to the output -----

  function Names(tags: seq<Html>): seq<string> {
    seq(|tags|, i requires 0 <= i < |tags| => Name(tags[i]))
  }

  /** No stray text can be read from the output so far, and its open tags are those on the stack. */
  predicate Good(s: State) {
    AllProper(s.markup) && Nest(s.markup, []) == Some(Names(s.tags))
  }

  predicate Adds(s: State, w: State, text: string, links: seq<string>) {
    && Visible(w.markup) == Visible(s.markup) + text
    && Links(w.markup) == Links(s.markup) + links
  }

  predicate AtStart(s: State) {
    !NeedsNewline(Flatten(s.markup))
  }

  lemma EmitAdds(s: State, ms: seq<Markup>, tags: seq<Html>)
    requires Good(s) && AllProper(ms) && Nest(ms, Names(s.tags)) == Some(Names(tags))
    ensures Good(Emit(s, ms).(tags := tags)) && Adds(s, Emit(s, ms).(tags := tags), Visible(ms), Links(ms))
  {
    NestAppend(s.markup, ms, []);
    VisibleAppend(s.markup, ms);
    LinksAppend(s.markup, ms);
  }

  lemma EmitEnds(s: State, ms: seq<Markup>, tags: seq<Html>)
    requires ms != [] && Proper(ms[|ms| - 1])
    ensures AtStart(Emit(s, ms).(tags := tags)) <==> ms[|ms| - 1] == Chr('\n')
  {
    var before, last := s.markup + ms[..|ms| - 1], ms[|ms| - 1];
    assert s.markup + ms == before + [last];
    FlattenAppend(before, [last]);
    FlattenOne(last);
    FlatEnds(last);
    assert last == Chr('\n') <==> Flat(last)[|Flat(last)| - 1] == '\n' by {
      if last.Chr? { assert Space(last) || !IsWhitespace(Flat(last)[|Flat(last)| - 1]); }
    }
  }

  /** The open tags after one more element. */
  function Reopen(m: Markup, open: seq<string>): Option<seq<string>> {
    match m
    case Open(name, _) => Some(open + [name])
    case Close(name) => if open != [] && open[|open| - 1] == name then Some(open[..|open| - 1]) else None
    case _ => Some(open)
  }

  lemma Single(m: Markup, open: seq<string>)
    ensures Visible([m]) == if m.Chr? then [m.c] else ""
    ensures Links([m]) == HtmlMarkup.Link(m)
    ensures Nest([m], open) == Reopen(m, open)
  {
    assert [m][1..] == [];
    assert Visible([]) == "" && Links([]) == [];
  }

  lemma NewlineAdds(s: State)
    requires Good(s)
    ensures Good(Emit(s, [Chr('\n')])) && Adds(s, Emit(s, [Chr('\n')]), "\n", [])
    ensures AtStart(Emit(s, [Chr('\n')]))
  {
    var ms := [Chr('\n')];
    Single(Chr('\n'), Names(s.tags));
    EmitAdds(s, ms, s.tags);
    EmitEnds(s, ms, s.tags);
    assert Emit(s, ms).(tags := s.tags) == Emit(s, ms);
  }

  lemma FreshLineAdds(s: State)
    requires Good(s)
    ensures Good(NewlineIfNeeded(s)) && AtStart(NewlineIfNeeded(s))
    ensures Adds(s, NewlineIfNeeded(s), if AtStart(s) then "" else "\n", [])
  {
    NewlineAdds(s);
  }

  lemma TextLine(s: State, t: string)
    ensures AtStart(Emit(s, Chars(t))) <==> if t == "" then AtStart(s) else EndsLine(t)
  {
    assert Emit(s, Chars(t)).(tags := s.tags) == Emit(s, Chars(t));
    if t == "" {
      assert s.markup + Chars(t) == s.markup;
    } else {
      EmitEnds(s, Chars(t), s.tags);
    }
  }

  lemma TextAdds(s: State, t: string)
    requires Good(s)
    ensures Good(Emit(s, Chars(t))) && Adds(s, Emit(s, Chars(t)), t, [])
    ensures AtStart(Emit(s, Chars(t))) <==> if t == "" then AtStart(s) else EndsLine(t)
  {
    TextLine(s, t);
    CharsAre(t, Names(s.tags));
    EmitAdds(s, Chars(t), s.tags);
    assert Emit(s, Chars(t)).(tags := s.tags) == Emit(s, Chars(t));
  }

  lemma LettersOf(h: Html)
    ensures Letters(Name(h)) && Letters("href") && Letters("class") && Letters("pre")
  {
  }

  lemma OpenAdds(s: State, h: Html)
    requires Good(s)
    ensures Good(PushOpen(s, h)) && Adds(s, PushOpen(s, h), "", []) && !AtStart(PushOpen(s, h))
  {
    var ms, tags := [Markup.Open(Name(h), None)], s.tags + [h];
    LettersOf(h);
    Single(ms[0], Names(s.tags));
    assert Names(tags) == Names(s.tags) + [Name(h)];
    EmitAdds(s, ms, tags);
    EmitEnds(s, ms, tags);
  }

  lemma LinkAdds(s: State, url: string)
    requires Good(s)
    ensures Good(PushLink(s, url)) && Adds(s, PushLink(s, url), "", [url]) && !AtStart(PushLink(s, url))
  {
    var ms, tags := [Markup.Open("a", Some(Attr("href", url)))], s.tags + [Anchor];
    LettersOf(Anchor);
    Single(ms[0], Names(s.tags));
    assert Names(tags) == Names(s.tags) + ["a"];
    EmitAdds(s, ms, tags);
    EmitEnds(s, ms, tags);
  }

  /** Popping the innermost tag closes that tag and no other. */
  lemma PopAdds(s: State, h: Html)
    requires Good(s) && s.tags != [] && s.tags[|s.tags| - 1] == h
    ensures PopMatching(s, h).tags == s.tags[..|s.tags| - 1]
    ensures Good(PopMatching(s, h)) && Adds(s, PopMatching(s, h), "", []) && !AtStart(PopMatching(s, h))
  {
    var n := |s.tags| - 1;
    var ms, tags := [Close(Name(h))], s.tags[..n];
    assert s.tags[n..] == [h];
    assert Closings([h]) == [Close(Name(h))] + Closings([h][..0]);
    assert PopMatching(s, h) == Emit(s, ms).(tags := tags);
    LettersOf(h);
    Single(ms[0], Names(s.tags));
    assert Names(s.tags)[..n] == Names(tags);
    EmitAdds(s, ms, tags);
    EmitEnds(s, ms, tags);
  }

  /** Two elements side by side. */
  lemma Pair(a: Markup, b: Markup, open: seq<string>)
    requires Nest([a], open).Some?
    ensures Visible([a, b]) == Visible([a]) + Visible([b]) && Links([a, b]) == Links([a]) + Links([b])
    ensures Nest([a, b], open) == Nest([b], Nest([a], open).value)
  {
    assert [a, b] == [a] + [b];
    VisibleAppend([a], [b]);
    LinksAppend([a], [b]);
    NestAppend([a], [b], open);
  }

  lemma PreHeadNest(lang: Option<string>, open: seq<string>)
    ensures Nest(PreHead(lang), open) == Some(open + ["pre"] + ["code"])
    ensures AllProper(PreHead(lang)) && Visible(PreHead(lang)) == "" && Links(PreHead(lang)) == []
  {
    LettersOf(Code);
    var pre, code := Markup.Open("pre", None), Markup.Open("code", LangAttr(lang));
    Single(pre, open);
    Single(code, open + ["pre"]);
    Pair(pre, code, open);
    NotALink(code);
  }

  lemma NotALink(m: Markup)
    requires m.Open? && m.name == "code"
    ensures HtmlMarkup.Link(m) == []
  {
  }

  lemma PreTailNest(open: seq<string>)
    ensures Nest(PRE_TAIL, open + ["pre"] + ["code"]) == Some(open)
    ensures AllProper(PRE_TAIL) && Visible(PRE_TAIL) == "\n" && Links(PRE_TAIL) == []
  {
    LettersOf(Code);
    TwoClose("pre", "code", Chr('\n'), open);
    assert PRE_TAIL == [Close("code"), Close("pre")] + [Chr('\n')];
  }

  lemma TwoClose(outer: string, inner: string, m: Markup, open: seq<string>)
    requires Letters(outer) && Letters(inner) && m.Chr?
    ensures var ms := [Close(inner), Close(outer)] + [m];
      && Nest(ms, open + [outer] + [inner]) == Some(open) && AllProper(ms)
      && Visible(ms) == [m.c] && Links(ms) == []
  {
    var a, b := Close(inner), Close(outer);
    Single(a, open + [outer] + [inner]);
    Single(b, open + [outer]);
    assert (open + [outer] + [inner])[..|open| + 1] == open + [outer];
    assert (open + [outer])[..|open|] == open;
    Pair(a, b, open + [outer] + [inner]);
    TailNest([a, b], m, open + [outer] + [inner], open);
  }

  lemma TailNest(ms: seq<Markup>, m: Markup, inner: seq<string>, open: seq<string>)
    requires m.Chr? && Nest(ms, inner) == Some(open)
    ensures Nest(ms + [m], inner) == Some(open)
    ensures Visible(ms + [m]) == Visible(ms) + [m.c] && Links(ms + [m]) == Links(ms)
  {
    Single(m, open);
    NestAppend(ms, [m], inner);
    VisibleAppend(ms, [m]);
    LinksAppend(ms, [m]);
  }

  lemma Around(head: seq<Markup>, text: seq<Markup>, tail: seq<Markup>, open: seq<string>, inner: seq<string>)
    requires Nest(head, open) == Some(inner) && Nest(text, inner) == Some(inner) && Nest(tail, inner) == Some(open)
    requires AllProper(head) && AllProper(text) && AllProper(tail)
    ensures Nest(head + text + tail, open) == Some(open) && AllProper(head + text + tail)
    ensures Visible(head + text + tail) == Visible(head) + Visible(text) + Visible(tail)
    ensures Links(head + text + tail) == Links(head) + Links(text) + Links(tail)
  {
    NestAppend(head, text, open);
    NestAppend(head + text, tail, open);
    VisibleAppend(head, text);
    VisibleAppend(head + text, tail);
    LinksAppend(head, text);
    LinksAppend(head + text, tail);
  }

  lemma PreMarkupReads(lang: Option<string>, buf: string, open: seq<string>)
    ensures AllProper(PreMarkup(lang, buf)) && Nest(PreMarkup(lang, buf), open) == Some(open)
    ensures Visible(PreMarkup(lang, buf)) == buf + "\n" && Links(PreMarkup(lang, buf)) == []
  {
    PreHeadNest(lang, open);
    PreTailNest(open);
    BlockReads(PreHead(lang), buf, PRE_TAIL, open, open + ["pre"] + ["code"], "\n");
  }

  lemma NothingFirst(nothing: string, text: string, end: string)
    requires nothing == ""
    ensures nothing + text + end == text + end
  {
    assert nothing + text == text;
  }

  lemma BlockReads(head: seq<Markup>, buf: string, tail: seq<Markup>, open: seq<string>, inner: seq<string>,
                   end: string)
    requires Nest(head, open) == Some(inner) && AllProper(head) && Visible(head) == "" && Links(head) == []
    requires Nest(tail, inner) == Some(open) && AllProper(tail) && Visible(tail) == end && Links(tail) == []
    ensures var ms := head + Chars(buf) + tail;
      && AllProper(ms) && Nest(ms, open) == Some(open) && Visible(ms) == buf + end && Links(ms) == []
  {
    CharsAre(buf, inner);
    Around(head, Chars(buf), tail, open, inner);
    NothingFirst(Visible(head), buf, end);
  }

  /** A code block adds its text and a newline, between tags of its own. */
  lemma PreAdds(s: State)
    requires Good(s) && s.inPre
    ensures Good(FlushPre(s)) && Adds(s, FlushPre(s), s.preBuf + "\n", []) && AtStart(FlushPre(s))
  {
    PreMarkupReads(s.preLang, s.preBuf, Names(s.tags));
    FlushAdds(s, PreMarkup(s.preLang, s.preBuf));
  }

  lemma FlushAdds(s: State, ms: seq<Markup>)
    requires Good(s) && s.inPre && ms == PreMarkup(s.preLang, s.preBuf)
    requires AllProper(ms) && Nest(ms, Names(s.tags)) == Some(Names(s.tags))
    ensures Good(FlushPre(s)) && Adds(s, FlushPre(s), Visible(ms), Links(ms)) && AtStart(FlushPre(s))
  {
    EmitAdds(s, ms, s.tags);
    EmitEnds(s, ms, s.tags);
  }
}
