/**
 * Which tags a reader of the rendered HTML sees around each character.
 *
 * `Reference` gives the characters of a stream's text with the tags it asks for, by name and attribute, without
 * the renderer's stack, buffers or output. What a reader scans is exactly that, up to whitespace at the ends.
 */
module HtmlStyles {
  import opened Options
  import opened Text
  import opened HtmlMarkup
  import opened HtmlRenderer
  import opened HtmlTheorems
  import opened HtmlReading

  // ----- reading -----

  datatype Style = Style(name: string, attr: Option<Attr>)

  /** A visible character and the tags around it, outermost first. */
  datatype Ink = Ink(c: char, within: seq<Style>)

  function AfterMark(m: Markup, open: seq<Style>): seq<Style> {
    match m
    case Open(name, attr) => open + [Style(name, attr)]
    case Close(_) => if open == [] then [] else open[..|open| - 1]
    case _ => open
  }

  function AfterMarks(ms: seq<Markup>, open: seq<Style>): seq<Style> {
    if ms == [] then open else AfterMarks(ms[1..], AfterMark(ms[0], open))
  }

  function Inks(ms: seq<Markup>, open: seq<Style>): seq<Ink> {
    if ms == [] then []
    else (if ms[0].Chr? then [Ink(ms[0].c, open)] else []) + Inks(ms[1..], AfterMark(ms[0], open))
  }

  /** A text inside some tags. */
  function Inked(text: string, within: seq<Style>): seq<Ink> {
    seq(|text|, i requires 0 <= i < |text| => Ink(text[i], within))
  }

  lemma {:induction false} AfterAppend(a: seq<Markup>, b: seq<Markup>, open: seq<Style>)
    ensures AfterMarks(a + b, open) == AfterMarks(b, AfterMarks(a, open))
  {
    if a == [] {
      assert a + b == b;
    } else {
      assert (a + b)[1..] == a[1..] + b;
      AfterAppend(a[1..], b, AfterMark(a[0], open));
    }
  }

  lemma {:induction false} InksAppend(a: seq<Markup>, b: seq<Markup>, open: seq<Style>)
    ensures Inks(a + b, open) == Inks(a, open) + Inks(b, AfterMarks(a, open))
  {
    if a == [] {
      assert a + b == b;
    } else {
      assert (a + b)[1..] == a[1..] + b;
      InksAppend(a[1..], b, AfterMark(a[0], open));
      InksAssociate(if a[0].Chr? then [Ink(a[0].c, open)] else [], Inks(a[1..], AfterMark(a[0], open)),
                    Inks(b, AfterMarks(a, open)));
    }
  }

  lemma InksAssociate(a: seq<Ink>, b: seq<Ink>, c: seq<Ink>)
    ensures a + b + c == a + (b + c)
  {
  }

  lemma InksOne(m: Markup, open: seq<Style>)
    ensures AfterMarks([m], open) == AfterMark(m, open)
    ensures Inks([m], open) == if m.Chr? then [Ink(m.c, open)] else []
  {
    assert [m][1..] == [];
  }

  lemma {:induction false} InksChars(text: string, open: seq<Style>)
    ensures AfterMarks(Chars(text), open) == open && Inks(Chars(text), open) == Inked(text, open)
  {
    if text != "" {
      InksChars(text[1..], open);
      assert Chars(text)[0] == Chr(text[0]) && Chars(text)[1..] == Chars(text[1..]);
      assert Inked(text, open) == [Ink(text[0], open)] + Inked(text[1..], open);
    }
  }

  lemma InkedAppend(a: string, b: string, within: seq<Style>)
    ensures Inked(a + b, within) == Inked(a, within) + Inked(b, within)
  {
  }

  // ----- what a stream asks for -----

  /** The tags that a start of a Markdown element puts around its content. */
  function StylesOf(tag: MdTag): seq<Style> {
    match tag
    case Heading => [Style("b", None)]
    case Strong => [Style("b", None)]
    case Emphasis => [Style("i", None)]
    case Strikethrough => [Style("s", None)]
    case Link(url) => [Style("a", Some(Attr("href", url)))]
    case BlockQuote => [Style("blockquote", None)]
    case CodeBlock(lang) =>
      [Style("pre", None), Style("code", if lang == "" then None else Some(Attr("class", "language-" + lang)))]
    case _ => []
  }

  /** The tags around what comes inside the open elements. */
  function Within(open: seq<MdTag>): seq<Style> {
    if open == [] then [] else Within(open[..|open| - 1]) + StylesOf(open[|open| - 1])
  }

  function Pop(open: seq<MdTag>): seq<MdTag> {
    if open == [] then [] else open[..|open| - 1]
  }

  function OpenAfter(open: seq<MdTag>, e: Event): seq<MdTag> {
    match e
    case Start(tag) => open + [tag]
    case End(_) => Pop(open)
    case _ => open
  }

  /** The tags around what an event itself shows. */
  function Around(open: seq<MdTag>, e: Event): seq<Style> {
    match e
    case End(_) => Within(Pop(open))
    case CodeSpan(_) =>
      if open != [] && open[|open| - 1].CodeBlock? then Within(open) else Within(open) + [Style("code", None)]
    case _ => Within(open)
  }

  function EventInks(open: seq<MdTag>, l: Line, e: Event): seq<Ink> {
    Inked(Joined(Show(l, e).0), Around(open, e))
  }

  function Reference(es: seq<Event>, open: seq<MdTag>, l: Line): seq<Ink> {
    if es == [] then []
    else EventInks(open, l, es[0]) + Reference(es[1..], OpenAfter(open, es[0]), Show(l, es[0]).1)
  }

  lemma WithinPush(open: seq<MdTag>, tag: MdTag)
    ensures Within(open + [tag]) == Within(open) + StylesOf(tag)
  {
    assert (open + [tag])[..|open|] == open;
  }

  function Ends(open: seq<MdTag>): seq<MdEnd> {
    seq(|open|, i requires 0 <= i < |open| => EndOf(open[i]))
  }

  // ----- the renderer's state against the open elements -----

  /** The output has the tags of the open elements open; a code block's only when it is written. */
  predicate TagsOpen(s: State, open: seq<MdTag>) {
    if s.inPre then
      && open != [] && open[|open| - 1].CodeBlock?
      && s.preLang == (if open[|open| - 1].lang == "" then None else Some(open[|open| - 1].lang))
      && AfterMarks(s.markup, []) == Within(Pop(open))
    else
      AfterMarks(s.markup, []) == Within(open)
  }

  /** The characters shown so far, including what waits in the code block's buffer. */
  function InkShown(s: State, open: seq<MdTag>): seq<Ink> {
    Inks(s.markup, []) + if s.inPre then Inked(s.preBuf, Within(open)) else []
  }

  /** One event shows exactly the characters the reference says, in exactly its tags. */
  predicate InkStep(s: State, w: State, open: seq<MdTag>, l: Line, e: Event) {
    && TagsOpen(w, OpenAfter(open, e))
    && InkShown(w, OpenAfter(open, e)) == InkShown(s, open) + EventInks(open, l, e)
  }

  /** Writing `ms` outside a code block. */
  lemma Writes(s: State, w: State, ms: seq<Markup>, open: seq<MdTag>)
    requires TagsOpen(s, open) && !s.inPre && w.markup == s.markup + ms
    ensures AfterMarks(w.markup, []) == AfterMarks(ms, Within(open))
    ensures Inks(w.markup, []) == InkShown(s, open) + Inks(ms, Within(open))
  {
    AfterAppend(s.markup, ms, []);
    InksAppend(s.markup, ms, []);
    assert Inks(s.markup, []) + [] == Inks(s.markup, []);
  }

  // ----- text -----

  /** A text written inside the open elements, by an event that leaves them open. */
  lemma TextWritten(s: State, w: State, t: string, open: seq<MdTag>, l: Line, e: Event)
    requires TagsOpen(s, open) && !s.inPre && !w.inPre && w.markup == s.markup + Chars(t)
    requires Joined(Show(l, e).0) == t
    requires Within(OpenAfter(open, e)) == Around(open, e) == Within(open)
    ensures InkStep(s, w, open, l, e)
  {
    Writes(s, w, Chars(t), open);
    InksChars(t, Within(open));
  }

  lemma FreshMarkup(s: State, l: Line)
    requires l.atStart == AtStart(s)
    ensures NewlineIfNeeded(s).markup == s.markup + Chars(FreshText(l))
    ensures NewlineIfNeeded(s) == s.(markup := NewlineIfNeeded(s).markup)
  {
    if l.atStart {
      assert Chars("") == [];
    } else {
      assert Chars("\n") == [Chr('\n')];
    }
  }

  lemma CharsAppend(a: string, b: string)
    ensures Chars(a + b) == Chars(a) + Chars(b)
  {
  }

  lemma FreshThenMarkup(s: State, l: Line, t: string)
    requires l.atStart == AtStart(s)
    ensures Emit(NewlineIfNeeded(s), Chars(t)).markup == s.markup + Chars(FreshText(l) + t)
  {
    FreshMarkup(s, l);
    CharsAppend(FreshText(l), t);
    assert s.markup + Chars(FreshText(l)) + Chars(t) == s.markup + (Chars(FreshText(l)) + Chars(t));
  }

  lemma RuleInks(s: State, open: seq<MdTag>, l: Line, text: string)
    requires TagsOpen(s, open) && !s.inPre && l.atStart == AtStart(s)
    requires Show(l, Rule).0 == Fresh(l) + [Mark(text)]
    ensures InkStep(s, Emit(NewlineIfNeeded(s), Chars(text)), open, l, Rule)
  {
    FreshThenMarkup(s, l, text);
    FreshMarkup(s, l);
    JoinedFreshThen(l, Mark(text));
    TextWritten(s, Emit(NewlineIfNeeded(s), Chars(text)), FreshText(l) + text, open, l, Rule);
  }

  lemma BreakInks(s: State, open: seq<MdTag>, l: Line, e: Event, text: string)
    requires TagsOpen(s, open) && !s.inPre && (e.SoftBreak? || e.HardBreak?) && Chars(text) == [Chr('\n')]
    requires Show(l, e).0 == [Source(text)]
    ensures InkStep(s, Emit(s, [Chr('\n')]), open, l, e)
  {
    JoinedOne(Source(text));
    TextWritten(s, Emit(s, [Chr('\n')]), text, open, l, e);
  }

  lemma RunInks(s: State, open: seq<MdTag>, l: Line, t: string)
    requires TagsOpen(s, open) && !s.inPre && !l.code
    ensures InkStep(s, Emit(s, Chars(t)), open, l, TextRun(t))
  {
    JoinedOne(Source(t));
    TextWritten(s, Emit(s, Chars(t)), t, open, l, TextRun(t));
  }

  lemma SilentInks(s: State, open: seq<MdTag>, l: Line)
    requires TagsOpen(s, open) && !s.inPre && !l.code
    ensures InkStep(s, s, open, l, OtherEvent)
  {
    assert Joined([]) == "";
    assert s.markup + Chars("") == s.markup;
    TextWritten(s, s, "", open, l, OtherEvent);
  }

  /** Markup in three parts, the first of which opens tags, the second of which leaves them open. */
  lemma InThreeParts(head: seq<Markup>, text: string, tail: seq<Markup>, open: seq<Style>, inner: seq<Style>)
    requires AfterMarks(head, open) == inner && Inks(head, open) == []
    ensures AfterMarks(head + Chars(text) + tail, open) == AfterMarks(tail, inner)
    ensures Inks(head + Chars(text) + tail, open) == Inked(text, inner) + Inks(tail, inner)
  {
    InksChars(text, inner);
    AfterAppend(head, Chars(text), open);
    AfterAppend(head + Chars(text), tail, open);
    InksAppend(head, Chars(text), open);
    InksAppend(head + Chars(text), tail, open);
    assert [] + Inked(text, inner) == Inked(text, inner);
  }

  lemma Wrapped(style: Style, name: string, text: string, open: seq<Style>)
    ensures var ms := [Markup.Open(style.name, style.attr)] + Chars(text) + [Close(name)];
      AfterMarks(ms, open) == open && Inks(ms, open) == Inked(text, open + [style])
  {
    InksOne(Markup.Open(style.name, style.attr), open);
    InksOne(Close(name), open + [style]);
    InThreeParts([Markup.Open(style.name, style.attr)], text, [Close(name)], open, open + [style]);
    assert (open + [style])[..|open|] == open;
  }

  /** A code span is inside a tag of its own. */
  lemma SpanInks(s: State, w: State, open: seq<MdTag>, l: Line, t: string)
    requires TagsOpen(s, open) && !s.inPre && !w.inPre && !l.code
    requires open != [] ==> !open[|open| - 1].CodeBlock?
    requires w.markup == s.markup + ([Markup.Open("code", None)] + Chars(t) + [Close("code")])
    ensures InkStep(s, w, open, l, CodeSpan(t))
  {
    Wrapped(Style("code", None), "code", t, Within(open));
    Writes(s, w, [Markup.Open("code", None)] + Chars(t) + [Close("code")], open);
    JoinedOne(Source(t));
  }

  // ----- elements -----

  lemma TextThenTag(t: string, m: Markup, open: seq<Style>)
    requires m.Open?
    ensures AfterMarks(Chars(t) + [m], open) == open + [Style(m.name, m.attr)]
    ensures Inks(Chars(t) + [m], open) == Inked(t, open)
  {
    InksChars(t, open);
    AfterAppend(Chars(t), [m], open);
    InksAppend(Chars(t), [m], open);
    InksOne(m, open);
  }

  /** A start that writes a text before the tag it opens. */
  lemma StartWritten(s: State, w: State, t: string, m: Markup, open: seq<MdTag>, l: Line, tag: MdTag)
    requires TagsOpen(s, open) && !s.inPre && !w.inPre && w.markup == s.markup + Chars(t) + [m]
    requires m.Open? && StylesOf(tag) == [Style(m.name, m.attr)] && Joined(Show(l, Start(tag)).0) == t
    ensures InkStep(s, w, open, l, Start(tag))
  {
    MarkupParts(s.markup, Chars(t), [m], []);
    Writes(s, w, Chars(t) + [m], open);
    TextThenTag(t, m, Within(open));
    WithinPush(open, tag);
  }

  /** A start that writes a text and opens no tag. */
  lemma StartBare(s: State, w: State, t: string, open: seq<MdTag>, l: Line, tag: MdTag)
    requires TagsOpen(s, open) && !s.inPre && !w.inPre && w.markup == s.markup + Chars(t)
    requires StylesOf(tag) == [] && Joined(Show(l, Start(tag)).0) == t
    ensures InkStep(s, w, open, l, Start(tag))
  {
    WithinPush(open, tag);
    assert Within(open) + [] == Within(open);
    TextWritten(s, w, t, open, l, Start(tag));
  }

  /** A code block writes nothing of its own until it ends. */
  lemma StartCode(s: State, open: seq<MdTag>, l: Line, lang: string)
    requires TagsOpen(s, open) && !s.inPre && l.atStart == AtStart(s) && !l.code
    ensures InkStep(s, StartCodeBlock(s, lang), open, l, Start(CodeBlock(lang)))
  {
    FreshMarkup(s, l);
    Writes(s, StartCodeBlock(s, lang), Chars(FreshText(l)), open);
    InksChars(FreshText(l), Within(open));
    JoinedFresh(l);
    assert (open + [CodeBlock(lang)])[..|open|] == open;
    assert Inked("", Within(open + [CodeBlock(lang)])) == [];
  }

  /** An end that writes a text and closes no tag. */
  lemma EndBare(s: State, w: State, t: string, open: seq<MdTag>, l: Line, end: MdEnd)
    requires TagsOpen(s, open) && !s.inPre && !w.inPre && w.markup == s.markup + Chars(t)
    requires open != [] && StylesOf(open[|open| - 1]) == [] && Joined(Show(l, End(end)).0) == t
    ensures InkStep(s, w, open, l, End(end))
  {
    assert Within(Pop(open)) + [] == Within(Pop(open));
    TextWritten(s, w, t, open, l, End(end));
  }

  /** An end that closes its tag. */
  lemma EndClosed(s: State, w: State, m: Markup, open: seq<MdTag>, l: Line, end: MdEnd)
    requires TagsOpen(s, open) && !s.inPre && !w.inPre && w.markup == s.markup + [m] && m.Close?
    requires open != [] && |StylesOf(open[|open| - 1])| == 1 && Show(l, End(end)).0 == []
    ensures InkStep(s, w, open, l, End(end))
  {
    Writes(s, w, [m], open);
    InksOne(m, Within(open));
    assert Joined([]) == "";
    assert Inked("", Within(Pop(open))) == [];
  }

  /** The end of a code block writes it, in its tags, and a newline behind it. */
  lemma EndCode(s: State, open: seq<MdTag>, l: Line)
    requires TagsOpen(s, open) && s.inPre && l.code
    ensures InkStep(s, FlushPre(s), open, l, End(CodeBlockEnd))
  {
    var outer, inner := Within(Pop(open)), Within(open);
    PreHeadInks(s.preLang, outer);
    PreTailInks(outer, StylesOf(open[|open| - 1]));
    InThreeParts(PreHead(s.preLang), s.preBuf, PRE_TAIL, outer, inner);
    AfterAppend(s.markup, PreMarkup(s.preLang, s.preBuf), []);
    InksAppend(s.markup, PreMarkup(s.preLang, s.preBuf), []);
    InksAssociate(Inks(s.markup, []), Inked(s.preBuf, inner), [Ink('\n', outer)]);
    JoinedOne(Mark("\n"));
    assert Inked("\n", outer) == [Ink('\n', outer)];
  }

  lemma PreHeadInks(lang: Option<string>, outer: seq<Style>)
    ensures AfterMarks(PreHead(lang), outer) == outer + [Style("pre", None), Style("code", LangAttr(lang))]
    ensures Inks(PreHead(lang), outer) == []
  {
    var pre, code := Markup.Open("pre", None), Markup.Open("code", LangAttr(lang));
    assert PreHead(lang) == [pre] + [code];
    InksOne(pre, outer);
    InksOne(code, outer + [Style("pre", None)]);
    AfterAppend([pre], [code], outer);
    InksAppend([pre], [code], outer);
  }

  lemma PreTailInks(outer: seq<Style>, two: seq<Style>)
    requires |two| == 2
    ensures AfterMarks(PRE_TAIL, outer + two) == outer
    ensures Inks(PRE_TAIL, outer + two) == [Ink('\n', outer)]
  {
    var code, pre, nl := Close("code"), Close("pre"), Chr('\n');
    assert PRE_TAIL == [code] + ([pre] + [nl]);
    assert (outer + two)[..|outer| + 1] == outer + two[..1];
    assert (outer + two[..1])[..|outer|] == outer;
    InksOne(code, outer + two);
    InksOne(pre, outer + two[..1]);
    InksOne(nl, outer);
    AfterAppend([code], [pre] + [nl], outer + two);
    InksAppend([code], [pre] + [nl], outer + two);
    AfterAppend([pre], [nl], outer + two[..1]);
    InksAppend([pre], [nl], outer + two[..1]);
  }

  /** Inside a code block only the buffer grows. */
  lemma BufferInks(s: State, open: seq<MdTag>, l: Line, e: Event, t: string)
    requires TagsOpen(s, open) && s.inPre && l.code && Show(l, e).0 == [Source(t)]
    requires e.TextRun? || e.CodeSpan? || e.SoftBreak? || e.HardBreak?
    ensures InkStep(s, s.(preBuf := s.preBuf + t), open, l, e)
  {
    JoinedOne(Source(t));
    BufferGrows(Inks(s.markup, []), s.preBuf, t, Within(open));
    assert EventInks(open, l, e) == Inked(t, Within(open));
  }

  lemma BufferGrows(before: seq<Ink>, buf: string, t: string, within: seq<Style>)
    ensures before + Inked(buf + t, within) == before + Inked(buf, within) + Inked(t, within)
  {
    InkedAppend(buf, t, within);
    InksAssociate(before, Inked(buf, within), Inked(t, within));
  }

  lemma NothingInks(s: State, open: seq<MdTag>, l: Line, e: Event)
    requires TagsOpen(s, open) && s.inPre && l.code && (e.Rule? || e.OtherEvent?)
    ensures InkStep(s, s, open, l, e)
  {
    assert Joined([]) == "" && Inked("", Around(open, e)) == [];
  }

  // ----- one event -----

  lemma PushInks(s: State, h: Html, open: seq<MdTag>, l: Line, tag: MdTag)
    requires TagsOpen(s, open) && !s.inPre && Show(l, Start(tag)).0 == []
    requires StylesOf(tag) == [Style(Name(h), None)]
    ensures InkStep(s, PushOpen(s, h), open, l, Start(tag))
  {
    assert Joined([]) == "";
    assert s.markup + Chars("") == s.markup;
    StartWritten(s, PushOpen(s, h), "", Markup.Open(Name(h), None), open, l, tag);
  }

  lemma LinkInks(s: State, url: string, open: seq<MdTag>, l: Line)
    requires TagsOpen(s, open) && !s.inPre && !l.code
    ensures InkStep(s, PushLink(s, url), open, l, Start(MdTag.Link(url)))
  {
    assert Joined([]) == "";
    assert s.markup + Chars("") == s.markup;
    StartWritten(s, PushLink(s, url), "", Markup.Open("a", Some(Attr("href", url))), open, l, MdTag.Link(url));
  }

  lemma BlockInks(s: State, h: Html, open: seq<MdTag>, l: Line, tag: MdTag)
    requires TagsOpen(s, open) && !s.inPre && l.atStart == AtStart(s) && Show(l, Start(tag)).0 == Fresh(l)
    requires StylesOf(tag) == [Style(Name(h), None)]
    ensures InkStep(s, PushOpen(NewlineIfNeeded(s), h), open, l, Start(tag))
  {
    FreshMarkup(s, l);
    JoinedFresh(l);
    StartWritten(s, PushOpen(NewlineIfNeeded(s), h), FreshText(l), Markup.Open(Name(h), None), open, l, tag);
  }

  lemma ListInks(s: State, ordered: bool, open: seq<MdTag>, l: Line)
    requires TagsOpen(s, open) && !s.inPre && l.atStart == AtStart(s) && !l.code
    ensures InkStep(s, OnStart(s, List(ordered)), open, l, Start(List(ordered)))
  {
    FreshMarkup(s, l);
    JoinedFresh(l);
    StartBare(s, OnStart(s, List(ordered)), FreshText(l), open, l, List(ordered));
  }

  lemma ItemInks(s: State, open: seq<MdTag>, l: Line, prefix: string)
    requires TagsOpen(s, open) && !s.inPre && l.atStart == AtStart(s) && s.counters != []
    requires prefix == ItemPrefix(s.counters[|s.counters| - 1])
    requires Show(l, Start(Item)).0 == Fresh(l) + [Mark(prefix)]
    ensures InkStep(s, StartItem(s), open, l, Start(Item))
  {
    FreshThenMarkup(s, l, prefix);
    FreshMarkup(s, l);
    JoinedFreshThen(l, Mark(prefix));
    StartBare(s, StartItem(s), FreshText(l) + prefix, open, l, Item);
  }

  lemma OtherStartInks(s: State, open: seq<MdTag>, l: Line, tag: MdTag)
    requires TagsOpen(s, open) && !s.inPre && StylesOf(tag) == [] && Show(l, Start(tag)).0 == []
    ensures InkStep(s, s, open, l, Start(tag))
  {
    assert Joined([]) == "";
    assert s.markup + Chars("") == s.markup;
    StartBare(s, s, "", open, l, tag);
  }

  lemma StartInks(s: State, open: seq<MdTag>, l: Line, tag: MdTag)
    requires TagsOpen(s, open) && !s.inPre && !l.code && l.atStart == AtStart(s) && l.counters == s.counters
    requires tag.Item? ==> s.counters != []
    ensures InkStep(s, OnStart(s, tag), open, l, Start(tag))
  {
    match tag {
      case Strong => PushInks(s, Bold, open, l, tag);
      case Emphasis => PushInks(s, Italic, open, l, tag);
      case Strikethrough => PushInks(s, Strike, open, l, tag);
      case Link(url) => LinkInks(s, url, open, l);
      case Heading => BlockInks(s, Bold, open, l, tag);
      case BlockQuote => BlockInks(s, Quote, open, l, tag);
      case List(ordered) => ListInks(s, ordered, open, l);
      case Item => ItemInks(s, open, l, ItemPrefix(s.counters[|s.counters| - 1]));
      case CodeBlock(lang) => StartCode(s, open, l, lang);
      case _ => OtherStartInks(s, open, l, tag);
    }
  }

  lemma PopMarkup(s: State, h: Html)
    requires s.tags != [] && s.tags[|s.tags| - 1] == h
    ensures PopMatching(s, h) == Emit(s, [Close(Name(h))]).(tags := s.tags[..|s.tags| - 1])
  {
    assert s.tags[|s.tags| - 1..] == [h];
    assert Closings([h]) == [Close(Name(h))] + Closings([h][..0]);
  }

  lemma CloseInks(s: State, open: seq<MdTag>, l: Line, end: MdEnd, h: Html)
    requires TagsOpen(s, open) && !s.inPre && open != [] && |StylesOf(open[|open| - 1])| == 1
    requires s.tags != [] && s.tags[|s.tags| - 1] == h && Show(l, End(end)).0 == []
    ensures InkStep(s, PopMatching(s, h), open, l, End(end))
  {
    PopMarkup(s, h);
    EndClosed(s, PopMatching(s, h), Close(Name(h)), open, l, end);
  }

  lemma NewlineInks(s: State, w: State, open: seq<MdTag>, l: Line, end: MdEnd, text: string)
    requires TagsOpen(s, open) && !s.inPre && !w.inPre && open != [] && StylesOf(open[|open| - 1]) == []
    requires Chars(text) == [Chr('\n')] && w.markup == s.markup + [Chr('\n')]
    requires Show(l, End(end)).0 == [Mark(text)]
    ensures InkStep(s, w, open, l, End(end))
  {
    JoinedOne(Mark(text));
    EndBare(s, w, text, open, l, end);
  }

  lemma QuietInks(s: State, open: seq<MdTag>, l: Line, end: MdEnd)
    requires TagsOpen(s, open) && !s.inPre && open != [] && StylesOf(open[|open| - 1]) == []
    requires Show(l, End(end)).0 == []
    ensures InkStep(s, s, open, l, End(end))
  {
    assert Joined([]) == "";
    assert s.markup + Chars("") == s.markup;
    EndBare(s, s, "", open, l, end);
  }

  /** The topmost tag is that of the element that ends. */
  lemma TopTag(s: State, open: seq<MdTag>, h: Html)
    requires Mirrors(s, Ends(open)) && open != [] && TagOf(EndOf(open[|open| - 1])) == [h]
    ensures s.tags != [] && s.tags[|s.tags| - 1] == h
  {
    var ends := Ends(open);
    assert TagsOf(ends) == TagsOf(ends[..|ends| - 1]) + [h];
  }

  lemma EndInks(s: State, open: seq<MdTag>, l: Line, end: MdEnd)
    requires TagsOpen(s, open) && !s.inPre && !l.code && !end.CodeBlockEnd?
    requires open != [] && EndOf(open[|open| - 1]) == end
    requires TagOf(end) != [] ==> s.tags != [] && s.tags[|s.tags| - 1] == TagOf(end)[0]
    ensures InkStep(s, OnEnd(s, end), open, l, End(end))
  {
    if TagOf(end) != [] {
      CloseInks(s, open, l, end, TagOf(end)[0]);
    } else if end.ItemEnd? || end.OtherEnd? {
      QuietInks(s, open, l, end);
    } else {
      NewlineChars();
      NewlineInks(s, OnEnd(s, end), open, l, end, "\n");
    }
  }

  lemma PreInks(s: State, open: seq<MdTag>, l: Line, e: Event)
    requires TagsOpen(s, open) && s.inPre && l.code && !e.Start? && !e.End? && !e.RawHtml?
    ensures InkStep(s, OnPreEvent(s, e), open, l, e)
  {
    match e {
      case TextRun(t) => BufferInks(s, open, l, e, t);
      case CodeSpan(t) => BufferInks(s, open, l, e, t);
      case SoftBreak => BufferInks(s, open, l, e, "\n");
      case HardBreak => BufferInks(s, open, l, e, "\n");
      case _ => NothingInks(s, open, l, e);
    }
  }

  lemma PlainInks(s: State, open: seq<MdTag>, l: Line, e: Event)
    requires TagsOpen(s, open) && !s.inPre && !l.code && l.atStart == AtStart(s)
    requires !e.Start? && !e.End? && !e.RawHtml? && (open != [] ==> !open[|open| - 1].CodeBlock?)
    ensures InkStep(s, OnEvent(s, e), open, l, e)
  {
    if e.TextRun? {
      RunInks(s, open, l, e.text);
    } else if e.CodeSpan? {
      SpanMarkup(s, e.text);
      SpanInks(s, PopMatching(Emit(PushOpen(s, Code), Chars(e.text)), Code), open, l, e.text);
    } else if e.Rule? {
      RuleInks(s, open, l, RULE_LINE);
    } else if e.OtherEvent? {
      SilentInks(s, open, l);
    } else {
      NewlineChars();
      BreakInks(s, open, l, e, "\n");
    }
  }

  lemma NewlineChars()
    ensures Chars("\n") == [Chr('\n')]
  {
  }

  lemma SpanMarkup(s: State, t: string)
    ensures var w := PopMatching(Emit(PushOpen(s, Code), Chars(t)), Code);
      w == s.(markup := s.markup + ([Markup.Open("code", None)] + Chars(t) + [Close("code")]))
  {
    var filled := Emit(PushOpen(s, Code), Chars(t));
    PopMarkup(filled, Code);
    assert filled.tags[..|s.tags|] == s.tags;
    MarkupParts(s.markup, [Markup.Open("code", None)], Chars(t), [Close("code")]);
  }

  lemma MarkupParts(a: seq<Markup>, b: seq<Markup>, c: seq<Markup>, d: seq<Markup>)
    ensures a + b + c + d == a + (b + c + d)
  {
  }

  lemma EndsPushed(open: seq<MdTag>, e: Event)
    ensures Ends(OpenAfter(open, e)) == After(Ends(open), e)
  {
    if e.Start? {
      assert Ends(open + [e.tag]) == Ends(open) + [EndOf(e.tag)];
    } else if e.End? && open != [] {
      assert Ends(Pop(open)) == Ends(open)[..|open| - 1];
    }
  }

  lemma StartEventInks(s: State, open: seq<MdTag>, l: Line, tag: MdTag)
    requires Inv(s, Ends(open), l) && TagsOpen(s, open) && !InCode(Ends(open)) && (tag.Item? ==> ListEnd in Ends(open))
    ensures Renderable(s, Start(tag)) && InkStep(s, OnEvent(s, Start(tag)), open, l, Start(tag))
  {
    if tag.Item? { ListOpen(Ends(open)); }
    StartInks(s, open, l, tag);
  }

  lemma EndEventInks(s: State, open: seq<MdTag>, l: Line, end: MdEnd)
    requires Inv(s, Ends(open), l) && TagsOpen(s, open) && open != [] && EndOf(open[|open| - 1]) == end
    ensures InkStep(s, OnEvent(s, End(end)), open, l, End(end))
  {
    assert Ends(open)[|open| - 1] == end;
    OnEventEnd(s, end);
    if TagOf(end) != [] { TopTag(s, open, TagOf(end)[0]); }
    if end.CodeBlockEnd? { EndCode(s, open, l); } else { EndInks(s, open, l, end); }
  }

  lemma OtherEventInks(s: State, open: seq<MdTag>, l: Line, e: Event)
    requires Inv(s, Ends(open), l) && TagsOpen(s, open) && !e.Start? && !e.End? && !e.RawHtml?
    ensures InkStep(s, OnEvent(s, e), open, l, e)
  {
    if s.inPre {
      PreInks(s, open, l, e);
    } else {
      assert open != [] ==> Ends(open)[|open| - 1] == EndOf(open[|open| - 1]);
      PlainInks(s, open, l, e);
    }
  }

  /** One event of a well-nested stream. */
  lemma EventInksStep(s: State, open: seq<MdTag>, l: Line, es: seq<Event>)
    requires Inv(s, Ends(open), l) && TagsOpen(s, open)
    requires es != [] && WellNested(es, Ends(open)) && !es[0].RawHtml?
    ensures Renderable(s, es[0]) && InkStep(s, OnEvent(s, es[0]), open, l, es[0])
  {
    if es[0].Start? {
      StartEventInks(s, open, l, es[0].tag);
    } else if es[0].End? {
      EndEventInks(s, open, l, es[0].end);
    } else {
      OtherEventInks(s, open, l, es[0]);
    }
  }

  // ----- the whole stream -----

  lemma OneOn(s: State, open: seq<MdTag>, l: Line, rest: seq<Event>, all: seq<Event>)
    requires OnTheWay(s, Ends(open), l, rest, all) && TagsOpen(s, open) && rest != []
    ensures Renderable(s, rest[0]) && InkStep(s, OnEvent(s, rest[0]), open, l, rest[0])
    ensures OnTheWay(OnEvent(s, rest[0]), Ends(OpenAfter(open, rest[0])), Show(l, rest[0]).1, rest[1..], all)
  {
    EventInksStep(s, open, l, rest);
    EndsPushed(open, rest[0]);
    Advances(s, Ends(open), l, rest, all);
  }

  lemma {:induction false} StreamInks(s: State, open: seq<MdTag>, l: Line, rest: seq<Event>, all: seq<Event>)
    requires OnTheWay(s, Ends(open), l, rest, all) && TagsOpen(s, open)
    ensures Inks(Final(s, rest).markup, []) == InkShown(s, open) + Reference(rest, open, l)
    decreases |rest|
  {
    if rest == [] {
      NoMoreEvents(s, open, l, all);
    } else {
      var e := rest[0];
      OneOn(s, open, l, rest, all);
      var next, inside, line := OnEvent(s, e), OpenAfter(open, e), Show(l, e).1;
      StreamInks(next, inside, line, rest[1..], all);
      OneMoreEvent(InkShown(s, open), InkShown(next, inside), rest, open, l);
    }
  }

  lemma NoMoreEvents(s: State, open: seq<MdTag>, l: Line, all: seq<Event>)
    requires OnTheWay(s, Ends(open), l, [], all) && TagsOpen(s, open)
    ensures Inks(s.markup, []) == InkShown(s, open) + Reference([], open, l)
  {
    assert open == [];
    assert Inks(s.markup, []) + [] + [] == Inks(s.markup, []);
  }

  lemma OneMoreEvent(shown: seq<Ink>, more: seq<Ink>, rest: seq<Event>, open: seq<MdTag>, l: Line)
    requires rest != [] && more == shown + EventInks(open, l, rest[0])
    ensures more + Reference(rest[1..], OpenAfter(open, rest[0]), Show(l, rest[0]).1)
         == shown + Reference(rest, open, l)
  {
    InksAssociate(shown, EventInks(open, l, rest[0]),
                  Reference(rest[1..], OpenAfter(open, rest[0]), Show(l, rest[0]).1));
  }

  /** Only whitespace characters, whatever tags they are in. */
  predicate Spaces(inks: seq<Ink>) {
    forall i :: 0 <= i < |inks| ==> IsWhitespace(inks[i].c)
  }

  lemma {:induction false} SpaceInks(ms: seq<Markup>, open: seq<Style>)
    requires AllSpace(ms)
    ensures AfterMarks(ms, open) == open && Spaces(Inks(ms, open))
  {
    if ms != [] {
      assert Space(ms[0]);
      SpaceInks(ms[1..], open);
    }
  }

  /** `inks` is `kept` with whitespace before and after it. */
  ghost predicate UpToSpaces(inks: seq<Ink>, kept: seq<Ink>) {
    exists before, after :: Spaces(before) && Spaces(after) && inks == before + kept + after
  }

  lemma TrimmedInks(ms: seq<Markup>)
    requires AllProper(ms)
    ensures UpToSpaces(Inks(ms, []), Inks(Scan(Trim(Flatten(ms))), []))
  {
    var i, j := TrimFlatten(ms);
    ScanFlatten(ms[i..j]);
    SpaceInks(ms[..i], []);
    AfterAppend(ms[..i], ms[i..j], []);
    SpaceInks(ms[j..], AfterMarks(ms[i..j], []));
    InksAppend(ms[..i], ms[i..j], []);
    InksAppend(ms[..i] + ms[i..j], ms[j..], []);
    InThree(ms, i, j);
  }

  /**
   * A reader of the rendered HTML sees exactly the characters of the reference, each inside exactly the tags
   * that the Markdown around it asks for, up to whitespace at the two ends.
   */
  lemma RenderedStyles(es: seq<Event>)
    requires WellNested(es, []) && NoRawHtml(es)
    ensures UpToSpaces(Reference(es, [], TOP), Inks(Scan(RenderedHtml(es)), []))
  {
    Begins(es);
    var last := RunsThrough(INITIAL, [], TOP, es, es);
    var final := Final(INITIAL, es);
    Arrives(final, last, es);
    FromTheStart(es);
    TrimmedInks(final.markup);
  }

  lemma NothingYet()
    ensures Ends([]) == [] && TagsOpen(INITIAL, []) && InkShown(INITIAL, []) == []
  {
  }

  lemma FromTheStart(es: seq<Event>)
    requires OnTheWay(INITIAL, [], TOP, es, es)
    ensures Inks(Final(INITIAL, es).markup, []) == Reference(es, [], TOP)
  {
    NothingYet();
    StreamInks(INITIAL, [], TOP, es, es);
  }
}
