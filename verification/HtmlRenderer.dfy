/** The renderer from Markdown events to Telegram HTML. */
module HtmlRenderer {
  import opened Options
  import opened Text
  import opened HtmlMarkup

  // ----- Markdown events -----

  datatype MdTag =
    | Heading | Strong | Emphasis | Strikethrough | Link(url: string) | BlockQuote
    | List(ordered: bool) | Item | CodeBlock(lang: string)
    | Table | TableRow | TableCell | Paragraph | OtherTag

  datatype MdEnd =
    | HeadingEnd | StrongEnd | EmphasisEnd | StrikethroughEnd | LinkEnd | BlockQuoteEnd
    | ListEnd | ItemEnd | CodeBlockEnd
    | TableEnd | TableRowEnd | TableCellEnd | ParagraphEnd | OtherEnd

  datatype Event =
    | Start(tag: MdTag)
    | End(end: MdEnd)
    | TextRun(text: string)
    | CodeSpan(text: string)
    | SoftBreak
    | HardBreak
    | Rule
    | RawHtml(html: string)
    | OtherEvent

  // ----- what the renderer does -----

  /** The tags kept on the stack. */
  datatype Html = Bold | Italic | Strike | Code | Anchor | Quote

  function Name(h: Html): string {
    match h
    case Bold => "b"
    case Italic => "i"
    case Strike => "s"
    case Code => "code"
    case Anchor => "a"
    case Quote => "blockquote"
  }

  function OpeningTag(h: Html): string {
    "<" + Name(h) + ">"
  }

  function ClosingTag(h: Html): string {
    "</" + Name(h) + ">"
  }

  datatype Counter = Bullet | Ordered(n: nat)

  const RULE_LINE := "────────\n"

  /** The renderer's state, with the markup that its output text spells out. */
  datatype State = State(
    markup: seq<Markup>,
    tags: seq<Html>,
    inPre: bool,
    preLang: Option<string>,
    preBuf: string,
    counters: seq<Counter>)

  const INITIAL := State([], [], false, None, "", [])

  function Emit(s: State, ms: seq<Markup>): State {
    s.(markup := s.markup + ms)
  }

  predicate NeedsNewline(out: string) {
    out != "" && out[|out| - 1] != '\n'
  }

  function NewlineIfNeeded(s: State): State {
    if NeedsNewline(Flatten(s.markup)) then Emit(s, [Chr('\n')]) else s
  }

  function PushOpen(s: State, h: Html): State {
    Emit(s, [Markup.Open(Name(h), None)]).(tags := s.tags + [h])
  }

  function PushLink(s: State, url: string): State {
    Emit(s, [Markup.Open("a", Some(Attr("href", url)))]).(tags := s.tags + [Anchor])
  }

  /** How many tags stay when the stack is cut at its topmost `h`; all of them when there is none. */
  function CutAt(tags: seq<Html>, h: Html): (n: nat)
    ensures n <= |tags|
  {
    if tags == [] then 0
    else if tags[|tags| - 1] == h then |tags| - 1
    else
      var n := CutAt(tags[..|tags| - 1], h);
      if n == |tags| - 1 then |tags| else n
  }

  function Closings(tags: seq<Html>): seq<Markup> {
    if tags == [] then [] else [Close(Name(tags[|tags| - 1]))] + Closings(tags[..|tags| - 1])
  }

  function PopMatching(s: State, h: Html): State {
    var n := CutAt(s.tags, h);
    Emit(s, Closings(s.tags[n..])).(tags := s.tags[..n])
  }

  function LangAttr(lang: Option<string>): Option<Attr> {
    match lang
    case None => None
    case Some(l) => Some(Attr("class", "language-" + l))
  }

  function PreHead(lang: Option<string>): seq<Markup> {
    [Markup.Open("pre", None), Markup.Open("code", LangAttr(lang))]
  }

  const PRE_TAIL: seq<Markup> := [Close("code"), Close("pre"), Chr('\n')]

  function PreMarkup(lang: Option<string>, buf: string): seq<Markup> {
    PreHead(lang) + Chars(buf) + PRE_TAIL
  }

  function FlushPre(s: State): State {
    if !s.inPre then s
    else Emit(s, PreMarkup(s.preLang, s.preBuf)).(inPre := false, preLang := None, preBuf := "")
  }

  function ItemPrefix(c: Counter): string {
    match c
    case Bullet => "• "
    case Ordered(n) => Decimal(n + 1) + ". "
  }

  function Counted(c: Counter): Counter {
    match c
    case Bullet => Bullet
    case Ordered(n) => Ordered(n + 1)
  }

  function StartItem(s: State): State
    requires s.counters != []
  {
    var last := |s.counters| - 1;
    Emit(NewlineIfNeeded(s), Chars(ItemPrefix(s.counters[last])))
      .(counters := s.counters[last := Counted(s.counters[last])])
  }

  function StartCodeBlock(s: State, lang: string): State {
    NewlineIfNeeded(s).(inPre := true, preBuf := "", preLang := if lang == "" then None else Some(lang))
  }

  function OnStart(s: State, tag: MdTag): State
    requires tag.Item? ==> s.counters != []
  {
    match tag
    case Heading => PushOpen(NewlineIfNeeded(s), Bold)
    case Strong => PushOpen(s, Bold)
    case Emphasis => PushOpen(s, Italic)
    case Strikethrough => PushOpen(s, Strike)
    case Link(url) => PushLink(s, url)
    case BlockQuote => PushOpen(NewlineIfNeeded(s), Quote)
    case List(ordered) => NewlineIfNeeded(s).(counters := s.counters + [if ordered then Ordered(0) else Bullet])
    case Item => StartItem(s)
    case CodeBlock(lang) => StartCodeBlock(s, lang)
    case _ => s
  }

  function OnEnd(s: State, end: MdEnd): State {
    match end
    case HeadingEnd => PopMatching(s, Bold)
    case StrongEnd => PopMatching(s, Bold)
    case EmphasisEnd => PopMatching(s, Italic)
    case StrikethroughEnd => PopMatching(s, Strike)
    case LinkEnd => PopMatching(s, Anchor)
    case BlockQuoteEnd => PopMatching(s, Quote)
    case ListEnd =>
      Emit(s, [Chr('\n')]).(counters := if s.counters == [] then [] else s.counters[..|s.counters| - 1])
    case ItemEnd => s
    case CodeBlockEnd => FlushPre(s)
    case OtherEnd => s
    case _ => Emit(s, [Chr('\n')])
  }

  function OnPreEvent(s: State, e: Event): State {
    match e
    case End(CodeBlockEnd) => FlushPre(s)
    case CodeSpan(t) => s.(preBuf := s.preBuf + t)
    case TextRun(t) => s.(preBuf := s.preBuf + t)
    case SoftBreak => s.(preBuf := s.preBuf + "\n")
    case HardBreak => s.(preBuf := s.preBuf + "\n")
    case _ => s
  }

  /** A list item outside every list would make the renderer stop with a panic. */
  predicate Renderable(s: State, e: Event) {
    e == Start(Item) && !s.inPre ==> s.counters != []
  }

  function OnEvent(s: State, e: Event): State
    requires Renderable(s, e)
  {
    if s.inPre then OnPreEvent(s, e)
    else match e
      case Start(tag) => OnStart(s, tag)
      case End(end) => OnEnd(s, end)
      case TextRun(t) => Emit(s, Chars(t))
      case CodeSpan(t) => PopMatching(Emit(PushOpen(s, Code), Chars(t)), Code)
      case SoftBreak => Emit(s, [Chr('\n')])
      case HardBreak => Emit(s, [Chr('\n')])
      case Rule => Emit(NewlineIfNeeded(s), Chars(RULE_LINE))
      case RawHtml(h) => Emit(s, [Raw(h)])
      case OtherEvent => s
  }

  /** `HtmlRenderer`: its fields and the methods that update them. */
  class Renderer {
    var out: string
    var tagStack: seq<Html>
    var inPre: bool
    var preLang: Option<string>
    var preBuf: string
    var orderedCounters: seq<Counter>
    ghost var markup: seq<Markup>

    ghost predicate Valid()
      reads this
    {
      out == Flatten(markup)
    }

    ghost function View(): State
      reads this
    {
      State(markup, tagStack, inPre, preLang, preBuf, orderedCounters)
    }

    constructor ()
      ensures Valid() && View() == INITIAL
    {
      out, tagStack, inPre, preLang, preBuf, orderedCounters := "", [], false, None, "", [];
      markup := [];
    }

    /** `push_str` of a text that spells out `ms`. */
    method PushStr(text: string, ghost ms: seq<Markup>)
      requires Valid() && text == Flatten(ms)
      modifies this`out, this`markup
      ensures Valid() && View() == Emit(old(View()), ms)
    {
      FlattenAppend(markup, ms);
      out := out + text;
      markup := markup + ms;
    }

    method PushText(t: string)
      requires Valid()
      modifies this`out, this`markup
      ensures Valid() && View() == Emit(old(View()), Chars(t))
    {
      var escaped := EscapeHtmlText(t);
      CharsAre(t, []);
      PushStr(escaped, Chars(t));
    }

    method PushNewline()
      requires Valid()
      modifies this`out, this`markup
      ensures Valid() && View() == Emit(old(View()), [Chr('\n')])
    {
      assert Flatten([Chr('\n')]) == "\n" + Flatten([]);
      PushStr("\n", [Chr('\n')]);
    }

    method EnsureNewline()
      requires Valid()
      modifies this`out, this`markup
      ensures Valid() && View() == NewlineIfNeeded(old(View()))
    {
      if out != "" && out[|out| - 1] != '\n' {
        PushNewline();
      }
    }

    method PushOpenTag(h: Html)
      requires Valid()
      modifies this`out, this`markup, this`tagStack
      ensures Valid() && View() == PushOpen(old(View()), h)
    {
      FlattenOne(Markup.Open(Name(h), None));
      PushStr(OpeningTag(h), [Markup.Open(Name(h), None)]);
      tagStack := tagStack + [h];
    }

    method PushLinkTag(url: string)
      requires Valid()
      modifies this`out, this`markup, this`tagStack
      ensures Valid() && View() == PushLink(old(View()), url)
    {
      ghost var m := Markup.Open("a", Some(Attr("href", url)));
      FlattenOne(m);
      var tag := "<a href=\"";
      tag := EscapeHtmlAttrInto(tag, url);
      tag := tag + "\">";
      LinkText(url);
      PushStr(tag, [m]);
      tagStack := tagStack + [Anchor];
    }

    /** One round of the loop below: pop the top of the stack and write its closing tag. */
    method PopOne()
      requires Valid() && tagStack != []
      modifies this`out, this`markup, this`tagStack
      ensures Valid() && tagStack == old(tagStack)[..|old(tagStack)| - 1]
      ensures markup == old(markup) + [Close(Name(old(tagStack)[|old(tagStack)| - 1]))]
    {
      var open := tagStack[|tagStack| - 1];
      tagStack := tagStack[..|tagStack| - 1];
      FlattenOne(Close(Name(open)));
      PushStr(ClosingTag(open), [Close(Name(open))]);
      assert View().markup == old(markup) + [Close(Name(open))];
    }

    method PopTo(n: nat)
      requires Valid() && n <= |tagStack|
      modifies this`out, this`markup, this`tagStack
      ensures Valid() && tagStack == old(tagStack)[..n]
      ensures markup == old(markup) + Closings(old(tagStack)[n..])
    {
      ghost var tags, all := tagStack, markup + Closings(tagStack[n..]);
      assert tags[..|tags|] == tags && tags[n..|tags|] == tags[n..];
      while |tagStack| > n
        invariant n <= |tagStack| <= |tags| && tagStack == tags[..|tagStack|]
        invariant Valid() && markup + Closings(tags[n..|tagStack|]) == all
      {
        ClosingsTop(markup, tags, n, |tagStack|);
        PopOne();
      }
    }

    method PopMatchingTag(h: Html)
      requires Valid()
      modifies this`out, this`markup, this`tagStack
      ensures Valid() && View() == PopMatching(old(View()), h)
    {
      var n := RPosition(tagStack, h);
      PopTo(n);
    }

    method PushPreOpening()
      requires Valid()
      modifies this`out, this`markup, this`preLang
      ensures Valid() && View() == Emit(old(View()), PreHead(old(preLang))).(preLang := None)
    {
      var text := "<pre><code>";
      if preLang.Some? {
        text := "<pre><code class=\"language-";
        text := EscapeHtmlAttrInto(text, preLang.value);
        text := text + "\">";
      }
      PreOpening(preLang);
      PushStr(text, PreHead(preLang));
      preLang := None;
    }

    method PushPreClosing()
      requires Valid()
      modifies this`out, this`markup
      ensures Valid() && View() == Emit(old(View()), PRE_TAIL)
    {
      PreClosing();
      PushStr("</code></pre>\n", PRE_TAIL);
    }

    method FlushPreBlock()
      requires Valid()
      modifies this
      ensures Valid() && View() == FlushPre(old(View()))
    {
      if !inPre {
        return;
      }
      inPre := false;
      PushPreOpening();
      PushText(preBuf);
      PushPreClosing();
      EmitThree(old(markup), PreHead(old(preLang)), Chars(preBuf), PRE_TAIL);
      preBuf := "";
    }

    method PushCode(t: string)
      requires Valid()
      modifies this`out, this`markup, this`tagStack
      ensures Valid() && View() == PopMatching(Emit(PushOpen(old(View()), Code), Chars(t)), Code)
    {
      PushOpenTag(Code);
      PushText(t);
      PopMatchingTag(Code);
    }

    method PushRule()
      requires Valid()
      modifies this`out, this`markup
      ensures Valid() && View() == Emit(NewlineIfNeeded(old(View())), Chars(RULE_LINE))
    {
      EnsureNewline();
      RuleText();
      PushStr(RULE_LINE, Chars(RULE_LINE));
    }

    method PushRaw(h: string)
      requires Valid()
      modifies this`out, this`markup
      ensures Valid() && View() == Emit(old(View()), [Raw(h)])
    {
      FlattenOne(Raw(h));
      PushStr(h, [Raw(h)]);
    }

    method OnItem()
      requires Valid() && orderedCounters != []
      modifies this
      ensures Valid() && View() == StartItem(old(View()))
    {
      EnsureNewline();
      var last := |orderedCounters| - 1;
      var prefix;
      if orderedCounters[last] == Bullet {
        prefix := "• ";
      } else {
        orderedCounters := orderedCounters[last := Ordered(orderedCounters[last].n + 1)];
        prefix := Decimal(orderedCounters[last].n) + ". ";
      }
      PushText(prefix);
      assert orderedCounters == old(orderedCounters)[last := Counted(old(orderedCounters)[last])];
    }

    method OnStartTag(tag: MdTag)
      requires Valid() && (tag.Item? ==> orderedCounters != [])
      modifies this
      ensures Valid() && View() == OnStart(old(View()), tag)
    {
      match tag
      case Heading => EnsureNewline(); PushOpenTag(Bold);
      case Strong => PushOpenTag(Bold);
      case Emphasis => PushOpenTag(Italic);
      case Strikethrough => PushOpenTag(Strike);
      case Link(url) => PushLinkTag(url);
      case BlockQuote => EnsureNewline(); PushOpenTag(Quote);
      case List(ordered) =>
        EnsureNewline();
        orderedCounters := orderedCounters + [if ordered then Ordered(0) else Bullet];
      case Item => OnItem();
      case CodeBlock(lang) =>
        EnsureNewline();
        inPre := true;
        preBuf := "";
        preLang := if lang == "" then None else Some(lang);
      case _ =>
    }

    method OnEndTag(end: MdEnd)
      requires Valid()
      modifies this
      ensures Valid() && View() == OnEnd(old(View()), end)
    {
      match end
      case HeadingEnd => PopMatchingTag(Bold);
      case StrongEnd => PopMatchingTag(Bold);
      case EmphasisEnd => PopMatchingTag(Italic);
      case StrikethroughEnd => PopMatchingTag(Strike);
      case LinkEnd => PopMatchingTag(Anchor);
      case BlockQuoteEnd => PopMatchingTag(Quote);
      case ListEnd =>
        if orderedCounters != [] {
          orderedCounters := orderedCounters[..|orderedCounters| - 1];
        }
        PushNewline();
      case ItemEnd =>
      case CodeBlockEnd => FlushPreBlock();
      case OtherEnd =>
      case _ => PushNewline();
    }

    method OnPre(e: Event)
      requires Valid()
      modifies this
      ensures Valid() && View() == OnPreEvent(old(View()), e)
    {
      match e
      case End(CodeBlockEnd) => FlushPreBlock();
      case CodeSpan(t) => preBuf := preBuf + t;
      case TextRun(t) => preBuf := preBuf + t;
      case SoftBreak => preBuf := preBuf + "\n";
      case HardBreak => preBuf := preBuf + "\n";
      case _ =>
    }

    method Handle(e: Event)
      requires Valid() && Renderable(View(), e)
      modifies this
      ensures Valid() && View() == OnEvent(old(View()), e)
    {
      if inPre {
        OnPre(e);
        return;
      }
      match e
      case Start(tag) => OnStartTag(tag);
      case End(end) => OnEndTag(end);
      case TextRun(t) => PushText(t);
      case CodeSpan(t) => PushCode(t);
      case SoftBreak => PushNewline();
      case HardBreak => PushNewline();
      case Rule => PushRule();
      case RawHtml(h) => PushRaw(h);
      case OtherEvent =>
    }

    method Finish() returns (html: string)
      requires Valid()
      modifies this
      ensures html == Trim(Flatten(FlushPre(old(View())).markup))
    {
      FlushPreBlock();
      while tagStack != []
        invariant markup == FlushPre(old(View())).markup && out == Flatten(markup)
        decreases |tagStack|
      {
        tagStack := tagStack[..|tagStack| - 1];
      }
      html := Trim(out);
    }
  }

  // ----- the texts that are pushed -----

  lemma FlattenOne(m: Markup)
    ensures Flatten([m]) == Flat(m)
  {
    assert Flatten([m]) == Flat(m) + Flatten([m][1..]);
  }

  lemma LinkText(url: string)
    ensures Flat(Markup.Open("a", Some(Attr("href", url)))) == "<a href=\"" + EscapeAttr(url) + "\">"
  {
    LinkParts(EscapeAttr(url));
    assert Flat(Markup.Open("a", Some(Attr("href", url))))
        == "<" + "a" + (" " + "href" + "=\"" + EscapeAttr(url) + "\"") + ">";
  }

  lemma LinkParts(value: string)
    ensures "<" + "a" + (" " + "href" + "=\"" + value + "\"") + ">" == "<a href=\"" + value + "\">"
  {
    assert "<" + "a" + (" " + "href" + "=\"") == "<a href=\"";
    assert "\"" + ">" == "\">";
    assert "<" + "a" + (" " + "href" + "=\"" + value + "\"") + ">"
        == "<" + "a" + (" " + "href" + "=\"") + value + ("\"" + ">");
  }

  function PreText(lang: Option<string>): string {
    match lang
    case None => "<pre><code>"
    case Some(l) => "<pre><code class=\"language-" + EscapeAttr(l) + "\">"
  }

  lemma PreOpening(lang: Option<string>)
    ensures Flatten(PreHead(lang)) == PreText(lang)
  {
    var pre, code := Markup.Open("pre", None), Markup.Open("code", LangAttr(lang));
    FlattenOne(code);
    assert [pre, code][1..] == [code];
    assert Flatten([pre, code]) == Flat(pre) + Flat(code);
    if lang.Some? { CodeWithLang(lang.value); } else { CodeWithoutLang(); }
  }

  lemma CodeWithoutLang()
    ensures Flat(Markup.Open("pre", None)) + Flat(Markup.Open("code", None)) == "<pre><code>"
  {
    assert Flat(Markup.Open("pre", None)) == "<pre>";
    assert Flat(Markup.Open("code", None)) == "<code>";
  }

  lemma CodeWithLang(l: string)
    ensures Flat(Markup.Open("pre", None)) + Flat(Markup.Open("code", LangAttr(Some(l))))
         == "<pre><code class=\"language-" + EscapeAttr(l) + "\">"
  {
    EscapeAttrPrefix("language-", l);
    AttrText("<pre>", "code", "class", "language-", EscapeAttr(l));
    PreLiterals();
  }

  lemma PreLiterals()
    ensures Flat(Markup.Open("pre", None)) == "<pre>"
    ensures "<pre>" + "<" + "code" + " " + "class" + "=\"" + "language-" == "<pre><code class=\"language-"
    ensures "\"" + ">" == "\">"
  {
  }

  lemma AttrText(before: string, name: string, key: string, head: string, tail: string)
    ensures before + ("<" + name + (" " + key + "=\"" + (head + tail) + "\"") + ">")
         == (before + "<" + name + " " + key + "=\"" + head) + tail + ("\"" + ">")
  {
  }

  lemma ClosingsTop(written: seq<Markup>, tags: seq<Html>, n: nat, k: nat)
    requires n < k <= |tags|
    ensures written + Closings(tags[n..k]) == written + [Close(Name(tags[k - 1]))] + Closings(tags[n..k - 1])
    ensures tags[..k][k - 1] == tags[k - 1] && tags[..k][..k - 1] == tags[..k - 1]
  {
    var top := tags[n..k];
    assert top[|top| - 1] == tags[k - 1] && top[..|top| - 1] == tags[n..k - 1];
  }

  lemma {:induction false} EscapeAttrPrefix(a: string, b: string)
    requires '&' !in a && '"' !in a && '<' !in a
    ensures EscapeAttr(a + b) == a + EscapeAttr(b)
  {
    if a == "" {
      assert a + b == b;
    } else {
      assert (a + b)[1..] == a[1..] + b;
      EscapeAttrPrefix(a[1..], b);
    }
  }

  lemma EmitThree(ms: seq<Markup>, a: seq<Markup>, b: seq<Markup>, c: seq<Markup>)
    ensures ms + a + b + c == ms + (a + b + c)
  {
  }

  lemma PreClosing()
    ensures Flatten(PRE_TAIL) == "</code></pre>\n"
  {
    FlattenOne(Chr('\n'));
    assert [Close("code"), Close("pre"), Chr('\n')][1..] == [Close("pre"), Chr('\n')];
    assert [Close("pre"), Chr('\n')][1..] == [Chr('\n')];
    assert Flat(Close("code")) == "</code>" && Flat(Close("pre")) == "</pre>";
  }

  lemma PlainText(s: string)
    requires '&' !in s && '<' !in s && '>' !in s
    ensures Flatten(Chars(s)) == s
  {
    CharsAre(s, []);
    EscapeNothing(s);
  }

  lemma RuleText()
    ensures Flatten(Chars(RULE_LINE)) == RULE_LINE
  {
    PlainText(RULE_LINE);
  }

  lemma {:induction false} EscapeNothing(s: string)
    requires '&' !in s && '<' !in s && '>' !in s
    ensures EscapeText(s) == s
  {
    if s != "" {
      EscapeNothing(s[1..]);
    }
  }

  lemma {:induction false} EscapeTextSnoc(s: string, c: char)
    ensures EscapeText(s + [c]) == EscapeText(s) + EscapeChar(c)
  {
    if s == "" {
      assert s + [c] == [c];
      assert EscapeText([c][1..]) == "";
    } else {
      assert (s + [c])[1..] == s[1..] + [c];
      EscapeTextSnoc(s[1..], c);
    }
  }

  lemma {:induction false} EscapeAttrSnoc(s: string, c: char)
    ensures EscapeAttr(s + [c]) == EscapeAttr(s) + EscapeAttrChar(c)
  {
    if s == "" {
      assert s + [c] == [c];
      assert EscapeAttr([c][1..]) == "";
    } else {
      assert (s + [c])[1..] == s[1..] + [c];
      EscapeAttrSnoc(s[1..], c);
    }
  }

  method EscapeHtmlText(s: string) returns (out: string)
    ensures out == EscapeText(s)
  {
    out := "";
    for i := 0 to |s|
      invariant out == EscapeText(s[..i])
    {
      EscapeTextSnoc(s[..i], s[i]);
      assert s[..i + 1] == s[..i] + [s[i]];
      match s[i]
      case '&' => out := out + "&amp;";
      case '<' => out := out + "&lt;";
      case '>' => out := out + "&gt;";
      case c => out := out + [c];
    }
    assert s[..|s|] == s;
  }

  method EscapeHtmlAttrInto(before: string, s: string) returns (out: string)
    ensures out == before + EscapeAttr(s)
  {
    out := before;
    ghost var done := "";
    for i := 0 to |s|
      invariant done == EscapeAttr(s[..i]) && out == before + done
    {
      EscapeAttrSnoc(s[..i], s[i]);
      assert s[..i + 1] == s[..i] + [s[i]];
      var piece := [s[i]];
      if s[i] == '&' {
        piece := "&amp;";
      } else if s[i] == '"' {
        piece := "&quot;";
      } else if s[i] == '<' {
        piece := "&lt;";
      }
      Associates(before, done, piece);
      done := done + piece;
      out := out + piece;
    }
    assert s[..|s|] == s;
  }

  /** `rposition`: the place of the topmost `h`, or the height of the stack when there is none. */
  method RPosition(tags: seq<Html>, h: Html) returns (n: nat)
    ensures n == CutAt(tags, h) && n <= |tags|
    ensures n < |tags| ==> tags[n] == h
    ensures forall i :: n < i < |tags| ==> tags[i] != h
    ensures n == |tags| ==> h !in tags
  {
    CutAtIs(tags, h);
    var i := |tags|;
    while i > 0
      invariant 0 <= i <= |tags|
      invariant forall j :: i <= j < |tags| ==> tags[j] != h
    {
      if tags[i - 1] == h {
        return i - 1;
      }
      i := i - 1;
    }
    n := |tags|;
  }

  lemma {:induction false} CutAtIs(tags: seq<Html>, h: Html)
    ensures CutAt(tags, h) < |tags| ==> tags[CutAt(tags, h)] == h
    ensures forall i :: CutAt(tags, h) < i < |tags| ==> tags[i] != h
    ensures CutAt(tags, h) == |tags| ==> h !in tags
  {
    if tags != [] {
      CutAtIs(tags[..|tags| - 1], h);
    }
  }
}
