/** Raw HTML in the Markdown, which the renderer passes on as it is. */
module HtmlRaw {
  import opened HtmlMarkup
  import opened HtmlRenderer
  import opened HtmlReading

  /** The renderer gets through a stream. */
  predicate Passes(s: State, es: seq<Event>)
    decreases |es|
  {
    es == [] || (Renderable(s, es[0]) && Passes(OnEvent(s, es[0]), es[1..]))
  }

  lemma {:induction false} FinalAppend(s: State, a: seq<Event>, b: seq<Event>)
    requires Passes(s, a)
    ensures Final(s, a + b) == Final(Final(s, a), b)
    decreases |a|
  {
    if a == [] {
      assert a + b == b;
    } else {
      assert (a + b)[0] == a[0] && (a + b)[1..] == a[1..] + b;
      FinalAppend(OnEvent(s, a[0]), a[1..], b);
    }
  }

  lemma StartGrows(s: State, tag: MdTag)
    requires tag.Item? ==> s.counters != []
    ensures s.markup <= OnStart(s, tag).markup
  {
  }

  lemma EndGrows(s: State, end: MdEnd)
    ensures s.markup <= OnEnd(s, end).markup
  {
  }

  lemma PreGrows(s: State, e: Event)
    ensures s.markup <= OnPreEvent(s, e).markup
  {
  }

  lemma EventGrows(s: State, e: Event)
    requires Renderable(s, e)
    ensures s.markup <= OnEvent(s, e).markup
  {
    PreGrows(s, e);
    if !s.inPre && e.Start? {
      StartGrows(s, e.tag);
    }
    if !s.inPre && e.End? {
      EndGrows(s, e.end);
    }
  }

  /** What is written stays written. */
  lemma {:induction false} Grows(s: State, es: seq<Event>)
    ensures s.markup <= Final(s, es).markup
    decreases |es|
  {
    if es != [] && Renderable(s, es[0]) {
      EventGrows(s, es[0]);
      Grows(OnEvent(s, es[0]), es[1..]);
    }
  }

  lemma FlattenBeginning(a: seq<Markup>, b: seq<Markup>)
    requires a <= b
    ensures Flatten(a) <= Flatten(b)
  {
    assert b == a + b[|a|..];
    FlattenAppend(a, b[|a|..]);
  }

  lemma RawWritten(s: State, h: string)
    requires !s.inPre
    ensures Flatten(OnEvent(s, RawHtml(h)).markup) == Flatten(s.markup) + h
  {
    FlattenAppend(s.markup, [Raw(h)]);
    FlattenOne(Raw(h));
  }

  /** Outside code blocks raw HTML follows, unescaped, what the events before it wrote, whatever comes behind. */
  lemma RawIsVerbatim(before: seq<Event>, h: string, behind: seq<Event>)
    requires Passes(INITIAL, before) && !Final(INITIAL, before).inPre
    ensures Flatten(Final(INITIAL, before).markup) + h
         <= Flatten(Final(INITIAL, before + ([RawHtml(h)] + behind)).markup)
  {
    var s := Final(INITIAL, before);
    FinalAppend(INITIAL, before, [RawHtml(h)] + behind);
    assert ([RawHtml(h)] + behind)[1..] == behind;
    Grows(OnEvent(s, RawHtml(h)), behind);
    RawWritten(s, h);
    FlattenBeginning(OnEvent(s, RawHtml(h)).markup, Final(OnEvent(s, RawHtml(h)), behind).markup);
  }
}
