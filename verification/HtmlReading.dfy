/** Rendering a whole stream, and what its HTML reads back as. */
module HtmlReading {
  import opened Options
  import opened Text
  import opened HtmlMarkup
  import opened HtmlRenderer
  import opened HtmlTheorems

  // ----- the renderer's state against the open events -----

  function TagOf(end: MdEnd): seq<Html> {
    match end
    case HeadingEnd => [Bold]
    case StrongEnd => [Bold]
    case EmphasisEnd => [Italic]
    case StrikethroughEnd => [Strike]
    case LinkEnd => [Anchor]
    case BlockQuoteEnd => [Quote]
    case _ => []
  }

  function TagsOf(open: seq<MdEnd>): seq<Html> {
    if open == [] then [] else TagsOf(open[..|open| - 1]) + TagOf(open[|open| - 1])
  }

  function Lists(open: seq<MdEnd>): nat {
    if open == [] then 0 else Lists(open[..|open| - 1]) + if open[|open| - 1] == ListEnd then 1 else 0
  }

  /** Stack and counters mirror the open events; a code block is open only as the innermost one. */
  predicate Mirrors(s: State, open: seq<MdEnd>) {
    && s.tags == TagsOf(open)
    && |s.counters| == Lists(open)
    && s.inPre == InCode(open)
    && (forall i :: 0 <= i < |open| - 1 ==> open[i] != CodeBlockEnd)
  }

  predicate OnLine(s: State, l: Line) {
    && l.counters == s.counters
    && l.code == s.inPre
    && (!s.inPre ==> s.preBuf == "" && l.atStart == AtStart(s))
  }

  predicate Inv(s: State, open: seq<MdEnd>, l: Line) {
    Good(s) && Mirrors(s, open) && OnLine(s, l)
  }

  /** Shown so far, including what waits in the code block's buffer. */
  function Shown(s: State): string {
    Visible(s.markup) + s.preBuf
  }

  /** One event shows exactly the pieces the reference says, and the invariant goes on. */
  predicate Shows(s: State, w: State, l: Line, e: Event, open: seq<MdEnd>) {
    && Inv(w, open, Show(l, e).1)
    && Shown(w) == Shown(s) + Joined(Show(l, e).0)
    && Links(w.markup) == Links(s.markup) + EventLinks(e)
  }

  lemma TagsOfPush(open: seq<MdEnd>, end: MdEnd)
    ensures TagsOf(open + [end]) == TagsOf(open) + TagOf(end)
    ensures Lists(open + [end]) == Lists(open) + if end == ListEnd then 1 else 0
  {
    assert (open + [end])[..|open|] == open;
  }

  lemma {:induction false} ListOpen(open: seq<MdEnd>)
    requires ListEnd in open
    ensures Lists(open) > 0
  {
    if open[|open| - 1] != ListEnd {
      ListOpen(open[..|open| - 1]);
    }
  }

  lemma JoinedOne(p: Piece)
    ensures Joined([p]) == p.text && Joined([]) == ""
  {
    assert [p][1..] == [];
  }

  function FreshText(l: Line): string {
    if l.atStart then "" else "\n"
  }

  lemma JoinedFresh(l: Line)
    ensures Joined(Fresh(l)) == FreshText(l)
  {
    JoinedOne(Mark("\n"));
  }

  lemma JoinedFreshThen(l: Line, p: Piece)
    ensures Joined(Fresh(l) + [p]) == FreshText(l) + p.text
  {
    JoinedAppend(Fresh(l), [p]);
    JoinedFresh(l);
    JoinedOne(p);
  }

  // ----- one event -----

  /** Inside a code block only the buffer grows. */
  lemma Buffered(s: State, t: string)
    ensures var w := s.(preBuf := s.preBuf + t);
      Shown(w) == Shown(s) + t && Links(w.markup) == Links(s.markup) + []
  {
    Associates(Visible(s.markup), s.preBuf, t);
  }

  lemma BufferedStep(s: State, l: Line, e: Event, open: seq<MdEnd>)
    requires Inv(s, open, l) && s.inPre && (e.TextRun? || e.CodeSpan? || e.SoftBreak? || e.HardBreak?)
    ensures Shows(s, s.(preBuf := s.preBuf + EventText(e)), l, e, open)
  {
    Buffered(s, EventText(e));
    JoinedOne(Source(EventText(e)));
  }

  /** Anything else inside a code block but its end is dropped. */
  lemma DroppedStep(s: State, l: Line, e: Event, open: seq<MdEnd>)
    requires Inv(s, open, l) && s.inPre && (e.Rule? || e.RawHtml? || e.OtherEvent?)
    ensures Shows(s, s, l, e, open)
  {
    assert Joined([]) == "";
    Nothing(s);
  }

  lemma Nothing(s: State)
    ensures Shown(s) + "" == Shown(s) && Links(s.markup) + [] == Links(s.markup)
  {
  }

  lemma PreStep(s: State, l: Line, e: Event, open: seq<MdEnd>)
    requires Inv(s, open, l) && s.inPre && !e.Start? && !e.End?
    ensures Shows(s, OnPreEvent(s, e), l, e, open)
  {
    if e.TextRun? || e.CodeSpan? || e.SoftBreak? || e.HardBreak? {
      BufferedStep(s, l, e, open);
    } else {
      DroppedStep(s, l, e, open);
    }
  }

  lemma PreEndText(s: State)
    requires Good(s) && s.inPre
    ensures Good(FlushPre(s)) && AtStart(FlushPre(s))
    ensures Shown(FlushPre(s)) == Shown(s) + "\n" && Links(FlushPre(s).markup) == Links(s.markup) + []
  {
    PreAdds(s);
    assert Shown(FlushPre(s)) == Visible(FlushPre(s).markup);
    assert Visible(s.markup) + (s.preBuf + "\n") == Visible(s.markup) + s.preBuf + "\n";
  }

  lemma PreEndMirrors(s: State, open: seq<MdEnd>)
    requires Mirrors(s, open) && s.inPre
    ensures open != [] && Mirrors(FlushPre(s), open[..|open| - 1])
  {
    assert open[..|open| - 1] + [CodeBlockEnd] == open;
    MirrorsPop(s, FlushPre(s), open[..|open| - 1], CodeBlockEnd);
  }

  lemma PreEndShows(s: State, w: State, l: Line, open: seq<MdEnd>)
    requires OnLine(s, l) && s.inPre && w == FlushPre(s) && Mirrors(w, open) && Good(w) && AtStart(w)
    requires Shown(w) == Shown(s) + "\n" && Links(w.markup) == Links(s.markup) + []
    ensures Shows(s, w, l, End(CodeBlockEnd), open)
  {
    JoinedOne(Mark("\n"));
  }

  lemma PreEndStep(s: State, l: Line, open: seq<MdEnd>)
    requires Inv(s, open, l) && s.inPre
    ensures Shows(s, FlushPre(s), l, End(CodeBlockEnd), open[..|open| - 1])
  {
    PreEndText(s);
    PreEndMirrors(s, open);
    PreEndShows(s, FlushPre(s), l, open[..|open| - 1]);
  }

  lemma TextStep(s: State, l: Line, t: string, open: seq<MdEnd>)
    requires Inv(s, open, l) && !s.inPre
    ensures Shows(s, Emit(s, Chars(t)), l, TextRun(t), open)
  {
    TextAdds(s, t);
    JoinedOne(Source(t));
    Conclude(s, Emit(s, Chars(t)), l, TextRun(t), open, t);
  }

  lemma BreakStep(s: State, l: Line, e: Event, open: seq<MdEnd>)
    requires Inv(s, open, l) && !s.inPre && (e.SoftBreak? || e.HardBreak?)
    ensures Shows(s, Emit(s, [Chr('\n')]), l, e, open)
  {
    NewlineAdds(s);
    BreakShows(s, Emit(s, [Chr('\n')]), l, e, open, "\n");
  }

  lemma BreakShows(s: State, w: State, l: Line, e: Event, open: seq<MdEnd>, text: string)
    requires Inv(s, open, l) && !s.inPre && (e.SoftBreak? || e.HardBreak?) && w == s.(markup := w.markup)
    requires Good(w) && Adds(s, w, text, []) && AtStart(w) && Show(l, e) == ([Source(text)], l.(atStart := true))
    ensures Shows(s, w, l, e, open)
  {
    JoinedOne(Source(text));
    Conclude(s, w, l, e, open, text);
  }

  lemma SilentStep(s: State, l: Line, open: seq<MdEnd>)
    requires Inv(s, open, l) && !s.inPre
    ensures Shows(s, s, l, OtherEvent, open)
  {
    assert Joined([]) == "";
    assert Visible(s.markup) + "" == Visible(s.markup) && Links(s.markup) + [] == Links(s.markup);
    Conclude(s, s, l, OtherEvent, open, "");
  }

  /** Text, breaks and rules. */
  lemma PlainStep(s: State, l: Line, e: Event, open: seq<MdEnd>)
    requires Inv(s, open, l) && !s.inPre && !e.Start? && !e.End? && !e.RawHtml? && !e.CodeSpan?
    ensures Shows(s, OnEvent(s, e), l, e, open)
  {
    if e.TextRun? {
      TextStep(s, l, e.text, open);
    } else if e.SoftBreak? || e.HardBreak? {
      BreakStep(s, l, e, open);
    } else if e.Rule? {
      RuleStep(s, l, open);
    } else {
      SilentStep(s, l, open);
    }
  }

  lemma CodeSpanAdds(s: State, t: string)
    requires Good(s)
    ensures var w := PopMatching(Emit(PushOpen(s, Code), Chars(t)), Code);
      Good(w) && Adds(s, w, t, []) && !AtStart(w) && w == s.(markup := w.markup)
  {
    var begun := PushOpen(s, Code);
    var filled := Emit(begun, Chars(t));
    OpenAdds(s, Code);
    TextAdds(begun, t);
    PopAdds(filled, Code);
    assert filled.tags[..|filled.tags| - 1] == s.tags;
  }

  lemma CodeSpanStep(s: State, l: Line, t: string, open: seq<MdEnd>)
    requires Inv(s, open, l) && !s.inPre
    ensures Shows(s, PopMatching(Emit(PushOpen(s, Code), Chars(t)), Code), l, CodeSpan(t), open)
  {
    CodeSpanAdds(s, t);
    JoinedOne(Source(t));
    Conclude(s, PopMatching(Emit(PushOpen(s, Code), Chars(t)), Code), l, CodeSpan(t), open, t);
  }

  /** The parts of `Shows`, for an event that neither starts nor fills a code block. */
  lemma Conclude(s: State, w: State, l: Line, e: Event, open: seq<MdEnd>, text: string)
    requires Good(w) && Mirrors(w, open) && OnLine(w, Show(l, e).1)
    requires Adds(s, w, text, EventLinks(e)) && s.preBuf == "" && w.preBuf == ""
    requires Joined(Show(l, e).0) == text
    ensures Shows(s, w, l, e, open)
  {
    assert Shown(s) == Visible(s.markup) && Shown(w) == Visible(w.markup);
  }

  lemma MirrorsPush(s: State, w: State, open: seq<MdEnd>, end: MdEnd)
    requires Mirrors(s, open) && !s.inPre && w.tags == s.tags + TagOf(end)
    requires |w.counters| == |s.counters| + (if end == ListEnd then 1 else 0) && w.inPre == (end == CodeBlockEnd)
    ensures Mirrors(w, open + [end])
  {
    TagsOfPush(open, end);
    var after := open + [end];
    assert forall i :: 0 <= i < |after| - 1 ==> after[i] == open[i];
  }

  lemma MirrorsPop(s: State, w: State, outer: seq<MdEnd>, end: MdEnd)
    requires Mirrors(s, outer + [end]) && !w.inPre
    requires s.tags == w.tags + TagOf(end)
    requires |s.counters| == |w.counters| + if end == ListEnd then 1 else 0
    ensures Mirrors(w, outer)
  {
    TagsOfPush(outer, end);
    Outer(outer, end);
    assert (w.tags + TagOf(end))[..|w.tags|] == w.tags;
    assert (TagsOf(outer) + TagOf(end))[..|TagsOf(outer)|] == TagsOf(outer);
  }

  lemma OpenStep(s: State, l: Line, tag: MdTag, h: Html, open: seq<MdEnd>)
    requires Inv(s, open, l) && !s.inPre && (tag.Strong? || tag.Emphasis? || tag.Strikethrough?)
    requires TagOf(EndOf(tag)) == [h]
    ensures Shows(s, OnStart(s, tag), l, Start(tag), open + [EndOf(tag)])
  {
    OpenAdds(s, h);
    MirrorsPush(s, PushOpen(s, h), open, EndOf(tag));
    assert Joined([]) == "";
    Conclude(s, PushOpen(s, h), l, Start(tag), open + [EndOf(tag)], "");
  }

  lemma LinkStep(s: State, l: Line, url: string, open: seq<MdEnd>)
    requires Inv(s, open, l) && !s.inPre
    ensures Shows(s, PushLink(s, url), l, Start(MdTag.Link(url)), open + [LinkEnd])
  {
    LinkAdds(s, url);
    MirrorsPush(s, PushLink(s, url), open, LinkEnd);
    assert Joined([]) == "";
    Conclude(s, PushLink(s, url), l, Start(MdTag.Link(url)), open + [LinkEnd], "");
  }

  /** Headings and quotes start a line of their own. */
  lemma BlockStep(s: State, l: Line, tag: MdTag, h: Html, open: seq<MdEnd>)
    requires Inv(s, open, l) && !s.inPre && (tag.Heading? || tag.BlockQuote?) && TagOf(EndOf(tag)) == [h]
    ensures Shows(s, PushOpen(NewlineIfNeeded(s), h), l, Start(tag), open + [EndOf(tag)])
  {
    var w := PushOpen(NewlineIfNeeded(s), h);
    FreshLineAdds(s);
    OpenAdds(NewlineIfNeeded(s), h);
    JoinedFresh(l);
    MirrorsPush(s, w, open, EndOf(tag));
    Conclude(s, w, l, Start(tag), open + [EndOf(tag)], FreshText(l));
  }

  lemma ListStep(s: State, l: Line, ordered: bool, open: seq<MdEnd>)
    requires Inv(s, open, l) && !s.inPre
    ensures Shows(s, OnStart(s, List(ordered)), l, Start(List(ordered)), open + [ListEnd])
  {
    var w := OnStart(s, List(ordered));
    FreshLineAdds(s);
    JoinedFresh(l);
    MirrorsPush(s, w, open, ListEnd);
    Conclude(s, w, l, Start(List(ordered)), open + [ListEnd], FreshText(l));
  }

  lemma ItemMirrors(s: State, open: seq<MdEnd>)
    requires Mirrors(s, open) && !s.inPre && s.counters != []
    ensures Mirrors(StartItem(s), open + [ItemEnd])
  {
    MirrorsPush(s, StartItem(s), open, ItemEnd);
  }

  lemma ItemStep(s: State, l: Line, open: seq<MdEnd>)
    requires Inv(s, open, l) && !s.inPre && ListEnd in open
    ensures s.counters != [] && Shows(s, StartItem(s), l, Start(Item), open + [ItemEnd])
  {
    ListOpen(open);
    var prefix := ItemPrefix(s.counters[|s.counters| - 1]);
    FreshLineThen(s, l, prefix);
    ItemMirrors(s, open);
    ItemShowIs(s, l, prefix);
    ItemShows(s, StartItem(s), l, prefix, open + [ItemEnd]);
  }

  lemma ItemShowIs(s: State, l: Line, prefix: string)
    requires OnLine(s, l) && !s.inPre && s.counters != []
    requires prefix == ItemPrefix(s.counters[|s.counters| - 1])
    ensures Show(l, Start(Item))
         == (Fresh(l) + [Mark(prefix)], l.(atStart := false, counters := StartItem(s).counters))
    ensures StartItem(s) == s.(markup := StartItem(s).markup, counters := StartItem(s).counters)
  {
  }

  lemma ItemShows(s: State, w: State, l: Line, prefix: string, open: seq<MdEnd>)
    requires OnLine(s, l) && !s.inPre && w == s.(markup := w.markup, counters := w.counters)
    requires Show(l, Start(Item)) == (Fresh(l) + [Mark(prefix)], l.(atStart := false, counters := w.counters))
    requires Good(w) && Mirrors(w, open) && !AtStart(w)
    requires Adds(s, w, FreshText(l) + prefix, [])
    ensures Shows(s, w, l, Start(Item), open)
  {
    JoinedFreshThen(l, Mark(prefix));
    Conclude(s, w, l, Start(Item), open, FreshText(l) + prefix);
  }

  lemma AddsBoth(s: State, m: State, w: State, first: string, second: string)
    requires Adds(s, m, first, []) && Adds(m, w, second, [])
    ensures Adds(s, w, first + second, [])
  {
    Associates(Visible(s.markup), first, second);
  }

  /** A mark on a line of its own. */
  lemma FreshLineThen(s: State, l: Line, text: string)
    requires Good(s) && l.atStart == AtStart(s) && text != ""
    ensures var w := Emit(NewlineIfNeeded(s), Chars(text));
      Good(w) && Adds(s, w, FreshText(l) + text, []) && (AtStart(w) <==> EndsLine(text))
  {
    var m := NewlineIfNeeded(s);
    FreshLineAdds(s);
    TextAdds(m, text);
    AddsBoth(s, m, Emit(m, Chars(text)), FreshText(l), text);
  }

  lemma RuleStep(s: State, l: Line, open: seq<MdEnd>)
    requires Inv(s, open, l) && !s.inPre
    ensures Shows(s, Emit(NewlineIfNeeded(s), Chars(RULE_LINE)), l, Rule, open)
  {
    RuleEndsLine();
    RuleShows(s, Emit(NewlineIfNeeded(s), Chars(RULE_LINE)), l, RULE_LINE, open);
  }

  lemma RuleShows(s: State, w: State, l: Line, text: string, open: seq<MdEnd>)
    requires Inv(s, open, l) && !s.inPre && w == Emit(NewlineIfNeeded(s), Chars(text)) && EndsLine(text)
    requires Show(l, Rule) == (Fresh(l) + [Mark(text)], l.(atStart := true))
    ensures Shows(s, w, l, Rule, open)
  {
    FreshLineThen(s, l, text);
    JoinedFreshThen(l, Mark(text));
    Conclude(s, w, l, Rule, open, FreshText(l) + text);
  }

  lemma RuleEndsLine()
    ensures EndsLine(RULE_LINE)
  {
    assert RULE_LINE[|RULE_LINE| - 1] == '\n';
  }

  lemma CodeBlockStep(s: State, l: Line, lang: string, open: seq<MdEnd>)
    requires Inv(s, open, l) && !s.inPre
    ensures Shows(s, StartCodeBlock(s, lang), l, Start(CodeBlock(lang)), open + [CodeBlockEnd])
  {
    FreshLineAdds(s);
    MirrorsPush(s, StartCodeBlock(s, lang), open, CodeBlockEnd);
    CodeBlockShows(s, StartCodeBlock(s, lang), l, lang, open + [CodeBlockEnd]);
  }

  lemma CodeBlockShows(s: State, w: State, l: Line, lang: string, open: seq<MdEnd>)
    requires OnLine(s, l) && !s.inPre && w == StartCodeBlock(s, lang) && Mirrors(w, open)
    requires Good(NewlineIfNeeded(s)) && Adds(s, NewlineIfNeeded(s), FreshText(l), [])
    ensures Shows(s, w, l, Start(CodeBlock(lang)), open)
  {
    JoinedFresh(l);
    Conclude(s, w, l, Start(CodeBlock(lang)), open, FreshText(l));
  }

  lemma OtherStartStep(s: State, l: Line, tag: MdTag, open: seq<MdEnd>)
    requires Inv(s, open, l) && !s.inPre && TagOf(EndOf(tag)) == [] && !tag.List? && !tag.Item? && !tag.CodeBlock?
    ensures Shows(s, s, l, Start(tag), open + [EndOf(tag)])
  {
    MirrorsPush(s, s, open, EndOf(tag));
    assert Joined([]) == "";
    Nothing(s);
  }

  lemma StartStep(s: State, l: Line, tag: MdTag, open: seq<MdEnd>)
    requires Inv(s, open, l) && !s.inPre && (tag.Item? ==> ListEnd in open)
    ensures Renderable(s, Start(tag)) && Shows(s, OnStart(s, tag), l, Start(tag), open + [EndOf(tag)])
  {
    if tag.Strong? || tag.Emphasis? || tag.Strikethrough? {
      OpenStep(s, l, tag, TagOf(EndOf(tag))[0], open);
    } else if tag.Link? {
      LinkStep(s, l, tag.url, open);
    } else if tag.Heading? || tag.BlockQuote? {
      BlockStep(s, l, tag, TagOf(EndOf(tag))[0], open);
    } else if tag.List? {
      ListStep(s, l, tag.ordered, open);
    } else if tag.Item? {
      ItemStep(s, l, open);
    } else if tag.CodeBlock? {
      CodeBlockStep(s, l, tag.lang, open);
    } else {
      OtherStartStep(s, l, tag, open);
    }
  }

  lemma Outer(outer: seq<MdEnd>, end: MdEnd)
    requires forall i :: 0 <= i < |outer + [end]| - 1 ==> (outer + [end])[i] != CodeBlockEnd
    ensures !InCode(outer) && forall i :: 0 <= i < |outer| - 1 ==> outer[i] != CodeBlockEnd
  {
    assert forall i :: 0 <= i < |outer| ==> outer[i] == (outer + [end])[i];
  }

  /** The end of the innermost tag pops that tag and no other. */
  lemma CloseStep(s: State, l: Line, end: MdEnd, h: Html, outer: seq<MdEnd>)
    requires Inv(s, outer + [end], l) && !s.inPre && TagOf(end) == [h]
    ensures Shows(s, PopMatching(s, h), l, End(end), outer)
  {
    var w := PopMatching(s, h);
    TagsOfPush(outer, end);
    assert s.tags[|s.tags| - 1] == h;
    PopAdds(s, h);
    assert s.tags == w.tags + TagOf(end);
    MirrorsPop(s, w, outer, end);
    CloseShows(s, w, l, end, outer);
  }

  lemma CloseShows(s: State, w: State, l: Line, end: MdEnd, outer: seq<MdEnd>)
    requires OnLine(s, l) && !s.inPre && TagOf(end) != [] && w == s.(markup := w.markup, tags := w.tags)
    requires Good(w) && Mirrors(w, outer) && !AtStart(w) && Adds(s, w, "", [])
    ensures Shows(s, w, l, End(end), outer)
  {
    assert Joined([]) == "";
    Conclude(s, w, l, End(end), outer, "");
  }

  /** Ends that put a newline. */
  lemma NewlineEndStep(s: State, l: Line, end: MdEnd, outer: seq<MdEnd>)
    requires Inv(s, outer + [end], l) && !s.inPre
    requires end.TableEnd? || end.TableRowEnd? || end.TableCellEnd? || end.ParagraphEnd?
    ensures Shows(s, OnEnd(s, end), l, End(end), outer)
  {
    var w := Emit(s, [Chr('\n')]);
    NewlineAdds(s);
    NewlineShown(l, end);
    NewlineStep(s, w, l, end, outer);
    assert OnEnd(s, end) == w;
  }

  lemma NewlineShown(l: Line, end: MdEnd)
    requires !l.code && (end.TableEnd? || end.TableRowEnd? || end.TableCellEnd? || end.ParagraphEnd?)
    ensures Show(l, End(end)) == ([Mark("\n")], l.(atStart := true)) && Joined(Show(l, End(end)).0) == "\n"
    ensures TagOf(end) == [] && end != ListEnd && EventLinks(End(end)) == []
  {
    JoinedOne(Mark("\n"));
  }

  lemma NewlineStep(s: State, w: State, l: Line, end: MdEnd, outer: seq<MdEnd>)
    requires Inv(s, outer + [end], l) && !s.inPre && TagOf(end) == [] && end != ListEnd
    requires Good(w) && Adds(s, w, "\n", []) && AtStart(w) && w == s.(markup := w.markup)
    requires Show(l, End(end)).1 == l.(atStart := true) && Joined(Show(l, End(end)).0) == "\n"
    requires EventLinks(End(end)) == []
    ensures Shows(s, w, l, End(end), outer)
  {
    assert s.tags == w.tags + [];
    MirrorsPop(s, w, outer, end);
    Conclude(s, w, l, End(end), outer, "\n");
  }

  lemma ListEndStep(s: State, l: Line, outer: seq<MdEnd>)
    requires Inv(s, outer + [ListEnd], l) && !s.inPre
    ensures Shows(s, OnEnd(s, ListEnd), l, End(ListEnd), outer)
  {
    var w := OnEnd(s, ListEnd);
    ListOpen(outer + [ListEnd]);
    NewlineAdds(s);
    MirrorsPop(s, w, outer, ListEnd);
    JoinedOne(Mark("\n"));
    Conclude(s, w, l, End(ListEnd), outer, "\n");
  }

  lemma SilentEndStep(s: State, l: Line, end: MdEnd, outer: seq<MdEnd>)
    requires Inv(s, outer + [end], l) && !s.inPre && (end.ItemEnd? || end.OtherEnd?)
    ensures Shows(s, s, l, End(end), outer)
  {
    MirrorsPop(s, s, outer, end);
    assert Joined([]) == "";
    assert Visible(s.markup) + "" == Visible(s.markup) && Links(s.markup) + [] == Links(s.markup);
    Conclude(s, s, l, End(end), outer, "");
  }

  lemma EndOutsideStep(s: State, l: Line, end: MdEnd, outer: seq<MdEnd>)
    requires Inv(s, outer + [end], l) && !s.inPre && !end.CodeBlockEnd?
    ensures Shows(s, OnEnd(s, end), l, End(end), outer)
  {
    if TagOf(end) != [] {
      CloseStep(s, l, end, TagOf(end)[0], outer);
    } else if end.ListEnd? {
      ListEndStep(s, l, outer);
    } else if end.ItemEnd? || end.OtherEnd? {
      SilentEndStep(s, l, end, outer);
    } else {
      NewlineEndStep(s, l, end, outer);
    }
  }

  lemma OnEventEnd(s: State, end: MdEnd)
    requires s.inPre <==> end.CodeBlockEnd?
    ensures OnEvent(s, End(end)) == if end.CodeBlockEnd? then FlushPre(s) else OnEnd(s, end)
  {
  }

  lemma EndStep(s: State, l: Line, end: MdEnd, open: seq<MdEnd>)
    requires Inv(s, open, l) && open != [] && open[|open| - 1] == end
    ensures Shows(s, OnEvent(s, End(end)), l, End(end), open[..|open| - 1])
  {
    OnEventEnd(s, end);
    if end.CodeBlockEnd? {
      PreEndStep(s, l, open);
    } else {
      assert open == open[..|open| - 1] + [end];
      EndOutsideStep(s, l, end, open[..|open| - 1]);
    }
  }

  /** The open events after one more. */
  function After(open: seq<MdEnd>, e: Event): seq<MdEnd> {
    match e
    case Start(tag) => open + [EndOf(tag)]
    case End(_) => if open == [] then [] else open[..|open| - 1]
    case _ => open
  }

  /** One event of a well-nested stream. */
  lemma EventStep(s: State, l: Line, es: seq<Event>, open: seq<MdEnd>)
    requires Inv(s, open, l) && es != [] && WellNested(es, open) && !es[0].RawHtml?
    ensures WellNested(es[1..], After(open, es[0]))
    ensures Renderable(s, es[0]) && Shows(s, OnEvent(s, es[0]), l, es[0], After(open, es[0]))
  {
    var e := es[0];
    if e.Start? {
      StartStep(s, l, e.tag, open);
    } else if e.End? {
      EndStep(s, l, e.end, open);
    } else if s.inPre {
      PreStep(s, l, e, open);
    } else if e.CodeSpan? {
      CodeSpanStep(s, l, e.text, open);
    } else {
      PlainStep(s, l, e, open);
    }
  }

  // ----- the whole stream -----

  /** `text` is `kept` with whitespace before and after it. */
  ghost predicate UpToSpace(text: string, kept: string) {
    exists before, after :: AllWhitespace(before) && AllWhitespace(after) && text == before + kept + after
  }

  /** What is shown so far and what the rest of the stream will show make up the whole. */
  predicate OnTheWay(s: State, open: seq<MdEnd>, l: Line, rest: seq<Event>, all: seq<Event>) {
    && Inv(s, open, l)
    && WellNested(rest, open)
    && NoRawHtml(rest)
    && Shown(s) + Joined(Pieces(rest, l)) == Joined(Pieces(all, TOP))
    && Links(s.markup) + StreamLinks(rest) == StreamLinks(all)
  }

  lemma Begins(all: seq<Event>)
    requires WellNested(all, []) && NoRawHtml(all)
    ensures OnTheWay(INITIAL, [], TOP, all, all)
  {
    assert Names([]) == [];
    assert Shown(INITIAL) == "";
  }

  lemma PiecesFirst(l: Line, rest: seq<Event>)
    requires rest != []
    ensures Joined(Pieces(rest, l)) == Joined(Show(l, rest[0]).0) + Joined(Pieces(rest[1..], Show(l, rest[0]).1))
  {
    JoinedAppend(Show(l, rest[0]).0, Pieces(rest[1..], Show(l, rest[0]).1));
  }

  lemma TextAdvances(l: Line, rest: seq<Event>, before: string)
    requires rest != []
    ensures before + Joined(Show(l, rest[0]).0) + Joined(Pieces(rest[1..], Show(l, rest[0]).1))
         == before + Joined(Pieces(rest, l))
  {
    PiecesFirst(l, rest);
    Associates(before, Joined(Show(l, rest[0]).0), Joined(Pieces(rest[1..], Show(l, rest[0]).1)));
  }

  lemma LinksAdvance(rest: seq<Event>, before: seq<string>)
    requires rest != []
    ensures before + EventLinks(rest[0]) + StreamLinks(rest[1..]) == before + StreamLinks(rest)
  {
  }

  lemma Advances(s: State, open: seq<MdEnd>, l: Line, rest: seq<Event>, all: seq<Event>)
    requires OnTheWay(s, open, l, rest, all) && rest != []
    ensures Renderable(s, rest[0])
    ensures OnTheWay(OnEvent(s, rest[0]), After(open, rest[0]), Show(l, rest[0]).1, rest[1..], all)
  {
    EventStep(s, l, rest, open);
    TextAdvances(l, rest, Shown(s));
    LinksAdvance(rest, Links(s.markup));
    NoRawTail(rest);
  }

  lemma NoRawTail(rest: seq<Event>)
    requires rest != [] && NoRawHtml(rest)
    ensures NoRawHtml(rest[1..])
  {
  }

  lemma Arrives(s: State, l: Line, all: seq<Event>)
    requires OnTheWay(s, [], l, [], all)
    ensures FlushPre(s) == s && AllProper(s.markup) && Nest(s.markup, []) == Some([])
    ensures Visible(s.markup) == Joined(Pieces(all, TOP)) && Links(s.markup) == StreamLinks(all)
  {
    assert Names([]) == [];
    assert Shown(s) == Visible(s.markup);
  }

  /** The renderer's state after a stream. */
  function Final(s: State, es: seq<Event>): State
    decreases |es|
  {
    if es == [] || !Renderable(s, es[0]) then s else Final(OnEvent(s, es[0]), es[1..])
  }

  function RenderedHtml(es: seq<Event>): string {
    Trim(Flatten(FlushPre(Final(INITIAL, es)).markup))
  }

  lemma {:induction false} RunsThrough(s: State, open: seq<MdEnd>, l: Line, rest: seq<Event>, all: seq<Event>)
    returns (last: Line)
    requires OnTheWay(s, open, l, rest, all)
    ensures OnTheWay(Final(s, rest), [], last, [], all)
    decreases |rest|
  {
    if rest == [] {
      assert open == [];
      last := l;
    } else {
      Advances(s, open, l, rest, all);
      last := RunsThrough(OnEvent(s, rest[0]), After(open, rest[0]), Show(l, rest[0]).1, rest[1..], all);
    }
  }

  /**
   * The HTML reads back as properly nested tags with nothing left open, around exactly the text of the
   * reference up to whitespace at its two ends, and the link targets are those of the stream.
   */
  lemma RenderedReads(es: seq<Event>)
    requires WellNested(es, []) && NoRawHtml(es)
    ensures Nest(Scan(RenderedHtml(es)), []) == Some([])
    ensures Links(Scan(RenderedHtml(es))) == StreamLinks(es)
    ensures UpToSpace(Joined(Pieces(es, TOP)), Visible(Scan(RenderedHtml(es))))
  {
    Begins(es);
    var last := RunsThrough(INITIAL, [], TOP, es, es);
    Arrives(Final(INITIAL, es), last, es);
    var before, after := ReadTrimmed(Final(INITIAL, es).markup);
  }

  /** `markdown_to_telegram_html`, after parsing. */
  method RenderEvents(es: seq<Event>) returns (html: string)
    requires WellNested(es, []) && NoRawHtml(es)
    ensures html == RenderedHtml(es)
    ensures Nest(Scan(html), []) == Some([])
    ensures Links(Scan(html)) == StreamLinks(es)
    ensures UpToSpace(Joined(Pieces(es, TOP)), Visible(Scan(html)))
  {
    var r := new Renderer();
    ghost var open: seq<MdEnd>, line := [], TOP;
    Begins(es);
    assert es[0..] == es;
    for i := 0 to |es|
      invariant fresh(r) && r.Valid()
      invariant OnTheWay(r.View(), open, line, es[i..], es)
      invariant Final(r.View(), es[i..]) == Final(INITIAL, es)
    {
      Advances(r.View(), open, line, es[i..], es);
      assert es[i..][1..] == es[i + 1..];
      r.Handle(es[i]);
      open, line := After(open, es[i]), Show(line, es[i]).1;
    }
    RenderedReads(es);
    html := r.Finish();
  }
}
