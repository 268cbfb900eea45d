/** Delivery of long texts to Telegram, as the list of calls made and of the server's answers to them. */
module TelegramApi {
  import opened Options
  import opened TelegramSplit
  import Text
  import HtmlMarkup
  import HtmlRenderer
  import HtmlTheorems
  import HtmlReading
  import HtmlStyles

  const TELEGRAM_MAX_UTF16 := 4096
  const TELEGRAM_SPLIT_UTF16 := 3800

  datatype Format = Plain | Html

  /** A message as it is sent: its text, and whether the server is told to parse it as HTML. */
  datatype Body = Body(text: string, format: Format)

  /** A part of a text that becomes one message. Only the first is a reply, or an edit of the placeholder. */
  datatype Piece = Piece(text: string, format: Format, leads: bool)

  /** A call, and whether the server accepted it; if not, whether it complained about the markup. */
  datatype Attempt = Attempt(body: Body, leads: bool, ok: bool, parseError: bool)

  method ServerAnswers() returns (ok: bool, parseError: bool) {
    ok, parseError := *, *;
  }

  function TakeParts(text: string, max: nat): seq<string> {
    match Split(text, max)
    case Some(parts) => parts
    case None => []
  }

  predicate Fits(text: string) {
    Utf16Len(text) <= TELEGRAM_MAX_UTF16
  }

  /** A text that fits, or the first piece of one that does not. */
  function Guarded(text: string): string {
    if Fits(text) then text else text[..CutPoint(text, TELEGRAM_MAX_UTF16)]
  }

  /** A tail is dropped only from a text over the limit, and never all of it. */
  lemma GuardedKeeps(text: string)
    ensures Fits(Guarded(text)) && Guarded(text) <= text && (Guarded(text) == text <==> Fits(text))
    ensures text != "" ==> Guarded(text) != ""
  {
    if !Fits(text) {
      SplitWithinIff(text, TELEGRAM_MAX_UTF16);
      FirstChunk(text, TELEGRAM_MAX_UTF16);
      var k := CutPoint(text, TELEGRAM_MAX_UTF16);
      PrefixLens(text, k, FitLen(text, TELEGRAM_MAX_UTF16));
    }
  }

  /** Last-resort guard on a formatted body: only its first piece is kept, the tail is dropped. */
  method EnsureTelegramLimit(text: string) returns (body: string)
    ensures body == Guarded(text) && Fits(body)
  {
    GuardedKeeps(text);
    if Utf16Len(text) <= TELEGRAM_MAX_UTF16 {
      return text;
    }
    var parts := SplitForTelegram(text, TELEGRAM_MAX_UTF16);
    SplitWithinIff(text, TELEGRAM_MAX_UTF16);
    FirstChunk(text, TELEGRAM_MAX_UTF16);
    return if |parts.value| > 0 then parts.value[0] else "";
  }

  predicate AllWithin(texts: seq<string>) {
    forall i :: 0 <= i < |texts| ==> Fits(texts[i])
  }

  // ----- the pieces of a text -----

  function Made(render: string -> string, text: string, format: Format): string {
    if format == Html then render(text) else text
  }

  /** Pieces of which at most the first leads. */
  function InARow(texts: seq<string>, format: Format, leads: bool): (pieces: seq<Piece>)
    ensures |pieces| == |texts|
    ensures forall i :: 0 <= i < |texts| ==> pieces[i] == Piece(texts[i], format, leads && i == 0)
  {
    seq(|texts|, i requires 0 <= i < |texts| => Piece(texts[i], format, leads && i == 0))
  }

  /** A part stays whole if it fits once formatted. Otherwise it is cut at half the size, or goes out plain if that
      leaves it whole. */
  function PartPieces(render: string -> string, text: string, format: Format, leads: bool): seq<Piece> {
    var subparts := TakeParts(text, TELEGRAM_SPLIT_UTF16 / 2);
    if Fits(Made(render, text, format)) then [Piece(text, format, leads)]
    else if |subparts| <= 1 then [Piece(text, Plain, leads)]
    else InARow(subparts, format, leads)
  }

  function AllPieces(render: string -> string, parts: seq<string>, format: Format): seq<Piece> {
    if parts == [] then []
    else AllPieces(render, parts[..|parts| - 1], format)
         + PartPieces(render, parts[|parts| - 1], format, |parts| == 1)
  }

  function PiecesOf(render: string -> string, text: string, format: Format): seq<Piece> {
    AllPieces(render, TakeParts(text, TELEGRAM_SPLIT_UTF16), format)
  }

  function Texts(pieces: seq<Piece>): (r: seq<string>)
    ensures |r| == |pieces| && forall i :: 0 <= i < |pieces| ==> r[i] == pieces[i].text
  {
    seq(|pieces|, i requires 0 <= i < |pieces| => pieces[i].text)
  }

  /** Pieces that make up a text, none empty unless the text is. */
  predicate Cuts(text: string, pieces: seq<string>) {
    Concat(pieces) == text && (text != "" ==> forall i :: 0 <= i < |pieces| ==> pieces[i] != "")
  }

  lemma CutInOne(text: string)
    ensures Cuts(text, [text])
  {
    assert Concat([text]) == text + Concat([]);
  }

  lemma SplitCuts(text: string, max: nat)
    requires 2 <= max <= TELEGRAM_MAX_UTF16
    ensures Split(text, max).Some? && Cuts(text, TakeParts(text, max)) && AllWithin(TakeParts(text, max))
  {
    SplitWithinIff(text, max);
    SplitConserves(text, max);
  }

  lemma {:induction false} ConcatAppend(a: seq<string>, b: seq<string>)
    ensures Concat(a + b) == Concat(a) + Concat(b)
  {
    if a == [] {
      assert a + b == b;
    } else {
      assert (a + b)[1..] == a[1..] + b;
      ConcatAppend(a[1..], b);
      Text.Associates(a[0], Concat(a[1..]), Concat(b));
    }
  }

  predicate LeadsFirst(pieces: seq<Piece>, leads: bool) {
    forall i :: 0 <= i < |pieces| ==> (pieces[i].leads <==> leads && i == 0)
  }

  /** A piece fits, in plain as it stands. Where its HTML does not, it is short, and only a part that
      was that short to begin with is sent plain. */
  predicate Sized(render: string -> string, p: Piece, format: Format) {
    && Fits(p.text) && (format == Plain ==> p.format == Plain)
    && (p.format != format ==> !Fits(render(p.text)))
    && (format == Html && !Fits(render(p.text)) ==> Utf16Len(p.text) <= TELEGRAM_SPLIT_UTF16 / 2)
  }

  predicate AllSized(render: string -> string, pieces: seq<Piece>, format: Format) {
    forall i :: 0 <= i < |pieces| ==> Sized(render, pieces[i], format)
  }

  lemma StaysWhole(text: string, max: nat)
    requires 2 <= max <= TELEGRAM_MAX_UTF16 && |TakeParts(text, max)| <= 1
    ensures Utf16Len(text) <= max
  {
    var parts := TakeParts(text, max);
    SplitCuts(text, max);
    SplitWithinIff(text, max);
    if parts != [] {
      CutInOne(parts[0]);
      assert parts == [parts[0]];
    }
  }

  lemma PartIsCut(render: string -> string, text: string, format: Format, leads: bool)
    requires Fits(text)
    ensures var pieces := PartPieces(render, text, format, leads);
      && Cuts(text, Texts(pieces)) && pieces != [] && LeadsFirst(pieces, leads) && AllSized(render, pieces, format)
  {
    var pieces, subparts := PartPieces(render, text, format, leads), TakeParts(text, TELEGRAM_SPLIT_UTF16 / 2);
    CutInOne(text);
    SplitCuts(text, TELEGRAM_SPLIT_UTF16 / 2);
    SplitWithinIff(text, TELEGRAM_SPLIT_UTF16 / 2);
    if Fits(Made(render, text, format)) || |subparts| <= 1 {
      assert Texts(pieces) == [text];
      if !Fits(Made(render, text, format)) {
        StaysWhole(text, TELEGRAM_SPLIT_UTF16 / 2);
      }
    } else {
      assert Texts(pieces) == subparts;
    }
  }

  lemma TextsAppend(a: seq<Piece>, b: seq<Piece>)
    ensures Texts(a + b) == Texts(a) + Texts(b)
  {
  }

  lemma {:induction false} PartsMakeUp(render: string -> string, parts: seq<string>, format: Format)
    requires AllWithin(parts)
    ensures Concat(Texts(AllPieces(render, parts, format))) == Concat(parts)
  {
    if parts != [] {
      var front, last := parts[..|parts| - 1], parts[|parts| - 1];
      assert parts == front + [last] && Fits(last);
      PartsMakeUp(render, front, format);
      PartIsCut(render, last, format, |parts| == 1);
      var before, pieces := AllPieces(render, front, format), PartPieces(render, last, format, |parts| == 1);
      TextsAppend(before, pieces);
      ConcatAppend(Texts(before), Texts(pieces));
      ConcatAppend(front, [last]);
      CutInOne(last);
    }
  }

  lemma AreLined(render: string -> string, a: seq<Piece>, b: seq<Piece>, format: Format)
    requires LeadsFirst(a, true) && AllSized(render, a, format)
    requires LeadsFirst(b, a == []) && AllSized(render, b, format)
    ensures LeadsFirst(a + b, true) && AllSized(render, a + b, format)
  {
    forall i | 0 <= i < |a + b| ensures Sized(render, (a + b)[i], format) {
      assert (a + b)[i] == if i < |a| then a[i] else b[i - |a|];
    }
  }

  lemma {:induction false} PartsAreLined(render: string -> string, parts: seq<string>, format: Format)
    requires AllWithin(parts)
    ensures var pieces := AllPieces(render, parts, format);
      (pieces == [] <==> parts == []) && LeadsFirst(pieces, true) && AllSized(render, pieces, format)
  {
    if parts != [] {
      var front, last := parts[..|parts| - 1], parts[|parts| - 1];
      PartsAreLined(render, front, format);
      PartIsCut(render, last, format, |parts| == 1);
      AreLined(render, AllPieces(render, front, format), PartPieces(render, last, format, |parts| == 1), format);
    }
  }

  predicate NoneEmpty(texts: seq<string>) {
    forall i :: 0 <= i < |texts| ==> texts[i] != ""
  }

  lemma {:induction false} PartsNotEmpty(render: string -> string, parts: seq<string>, format: Format)
    requires AllWithin(parts) && NoneEmpty(parts)
    ensures NoneEmpty(Texts(AllPieces(render, parts, format)))
  {
    if parts != [] {
      var front, last := parts[..|parts| - 1], parts[|parts| - 1];
      PartsNotEmpty(render, front, format);
      PartIsCut(render, last, format, |parts| == 1);
      TextsAppend(AllPieces(render, front, format), PartPieces(render, last, format, |parts| == 1));
    }
  }

  /** The pieces of a text make it up, each fits, none is empty unless the text is, and only the first leads. */
  lemma PiecesAreCut(render: string -> string, text: string, format: Format)
    ensures var pieces := PiecesOf(render, text, format);
      && Cuts(text, Texts(pieces)) && pieces != [] && LeadsFirst(pieces, true) && AllSized(render, pieces, format)
  {
    var parts := TakeParts(text, TELEGRAM_SPLIT_UTF16);
    SplitCuts(text, TELEGRAM_SPLIT_UTF16);
    PartsMakeUp(render, parts, format);
    PartsAreLined(render, parts, format);
    if text != "" {
      PartsNotEmpty(render, parts, format);
    }
  }

  // ----- what a delivery does -----

  function Call(render: string -> string, piece: Piece, format: Format): Body {
    Body(Guarded(Made(render, piece.text, format)), format)
  }

  predicate Through(tries: seq<Attempt>) {
    tries != [] && tries[|tries| - 1].ok
  }

  /** A piece is sent in its format, and once more as plain text exactly when its HTML was refused as such. */
  predicate Tried(render: string -> string, tries: seq<Attempt>, piece: Piece) {
    && 1 <= |tries| <= 2
    && (forall i :: 0 <= i < |tries| ==> tries[i].leads == piece.leads)
    && tries[0].body == Call(render, piece, piece.format)
    && (|tries| == 2 <==> piece.format == Html && !tries[0].ok && tries[0].parseError)
    && (|tries| == 2 ==> tries[1].body == Call(render, piece, Plain))
  }

  /** The pieces are tried one by one, until one does not get through. */
  predicate Delivered(render: string -> string, log: seq<seq<Attempt>>, pieces: seq<Piece>, ok: bool) {
    && (if ok then |log| == |pieces| else 0 < |log| <= |pieces|)
    && forall i :: 0 <= i < |log| ==> Ended(render, log[i], pieces[i], ok || i < |log| - 1)
  }

  predicate Ended(render: string -> string, tries: seq<Attempt>, piece: Piece, ok: bool) {
    Tried(render, tries, piece) && (Through(tries) <==> ok)
  }

  function Flat(log: seq<seq<Attempt>>): seq<Attempt> {
    if log == [] then [] else Flat(log[..|log| - 1]) + log[|log| - 1]
  }

  lemma FlatMore(log: seq<seq<Attempt>>, tries: seq<Attempt>)
    ensures Flat(log + [tries]) == Flat(log) + tries
  {
    assert (log + [tries])[..|log|] == log;
  }

  lemma {:induction false} FlatAppend(a: seq<seq<Attempt>>, b: seq<seq<Attempt>>)
    ensures Flat(a + b) == Flat(a) + Flat(b)
  {
    if b == [] {
      assert a + b == a;
    } else {
      assert (a + b)[..|a + b| - 1] == a + b[..|b| - 1];
      FlatAppend(a, b[..|b| - 1]);
    }
  }

  lemma DeliveredMore(render: string -> string, log: seq<seq<Attempt>>, pieces: seq<Piece>,
                      more: seq<seq<Attempt>>, others: seq<Piece>, ok: bool)
    requires Delivered(render, log, pieces, true) && Delivered(render, more, others, ok)
    ensures Delivered(render, log + more, pieces + others, ok)
    ensures Flat(log + more) == Flat(log) + Flat(more)
  {
    FlatAppend(log, more);
    forall i | 0 <= i < |log + more|
      ensures Ended(render, (log + more)[i], (pieces + others)[i], ok || i < |log + more| - 1) {
      if i < |log| {
        assert Ended(render, log[i], pieces[i], true);
      } else {
        assert Ended(render, more[i - |log|], others[i - |log|], ok || i - |log| < |more| - 1);
      }
    }
  }

  lemma DeliveredOne(render: string -> string, tries: seq<Attempt>, piece: Piece, ok: bool)
    requires Ended(render, tries, piece, ok)
    ensures Delivered(render, [tries], [piece], ok) && Flat([tries]) == tries
  {
    FlatMore([], tries);
    assert [] + [tries] == [tries] && [] + tries == tries;
  }

  lemma DeliveredTail(render: string -> string, log: seq<seq<Attempt>>, pieces: seq<Piece>, rest: seq<Piece>)
    requires Delivered(render, log, pieces, false)
    ensures Delivered(render, log, pieces + rest, false)
  {
  }

  lemma PartByPart(render: string -> string, parts: seq<string>, format: Format, i: nat)
    requires i < |parts|
    ensures AllPieces(render, parts[..i + 1], format)
         == AllPieces(render, parts[..i], format) + PartPieces(render, parts[i], format, i == 0)
  {
    assert parts[..i + 1] == parts[..i] + [parts[i]];
    OneMorePart(render, parts[..i], parts[i], format);
  }

  lemma OneMorePart(render: string -> string, front: seq<string>, last: string, format: Format)
    ensures AllPieces(render, front + [last], format)
         == AllPieces(render, front, format) + PartPieces(render, last, format, front == [])
  {
    assert (front + [last])[..|front|] == front;
  }

  lemma StartsWith(a: seq<Piece>, b: seq<Piece>, joined: seq<Piece>, all: seq<Piece>)
    requires joined == a + b && joined <= all
    ensures a <= all
  {
  }

  lemma {:induction false} PiecesOfBeginning(render: string -> string, parts: seq<string>, format: Format, i: nat)
    requires i <= |parts|
    ensures AllPieces(render, parts[..i], format) <= AllPieces(render, parts, format)
    decreases |parts| - i
  {
    if i < |parts| {
      PiecesOfBeginning(render, parts, format, i + 1);
      PartByPart(render, parts, format, i);
      StartsWith(AllPieces(render, parts[..i], format), PartPieces(render, parts[i], format, i == 0),
                 AllPieces(render, parts[..i + 1], format), AllPieces(render, parts, format));
    } else {
      assert parts[..i] == parts;
    }
  }

  lemma BeginningDelivered(render: string -> string, log: seq<seq<Attempt>>, before: seq<Piece>, pieces: seq<Piece>)
    requires before <= pieces && Delivered(render, log, before, false)
    ensures Delivered(render, log, pieces, false)
  {
    assert pieces == before + pieces[|before|..];
    DeliveredTail(render, log, before, pieces[|before|..]);
  }

  lemma RowStep(parts: seq<string>, format: Format, leads: bool, i: nat)
    requires i < |parts|
    ensures InARow(parts[..i + 1], format, leads)
         == InARow(parts[..i], format, leads) + [Piece(parts[i], format, leads && i == 0)]
    ensures InARow(parts[..i + 1], format, leads) <= InARow(parts, format, leads)
  {
  }

  lemma InTurn(from: seq<Attempt>, before: seq<Attempt>, others: seq<Attempt>)
    ensures from + before + others == from + (before + others)
  {
  }

  lemma PartDelivered(render: string -> string, log: seq<seq<Attempt>>, parts: seq<string>, format: Format, i: nat,
                      more: seq<seq<Attempt>>, ok: bool)
    requires i < |parts| && Delivered(render, log, AllPieces(render, parts[..i], format), true)
    requires Delivered(render, more, PartPieces(render, parts[i], format, i == 0), ok)
    ensures Flat(log + more) == Flat(log) + Flat(more)
    ensures Delivered(render, log + more, AllPieces(render, if ok then parts[..i + 1] else parts, format), ok)
  {
    var before, pieces := AllPieces(render, parts[..i], format), PartPieces(render, parts[i], format, i == 0);
    DeliveredMore(render, log, before, more, pieces, ok);
    PartByPart(render, parts, format, i);
    if !ok {
      PiecesOfBeginning(render, parts, format, i + 1);
      BeginningDelivered(render, log + more, before + pieces, AllPieces(render, parts, format));
    }
  }

  lemma RowDelivered(render: string -> string, log: seq<seq<Attempt>>, parts: seq<string>, format: Format, leads: bool,
                     i: nat, tries: seq<Attempt>, ok: bool)
    requires i < |parts| && Delivered(render, log, InARow(parts[..i], format, leads), true)
    requires Ended(render, tries, Piece(parts[i], format, leads && i == 0), ok)
    ensures Flat(log + [tries]) == Flat(log) + tries
    ensures Delivered(render, log + [tries], InARow(if ok then parts[..i + 1] else parts, format, leads), ok)
  {
    var before, piece := InARow(parts[..i], format, leads), Piece(parts[i], format, leads && i == 0);
    DeliveredOne(render, tries, piece, ok);
    DeliveredMore(render, log, before, [tries], [piece], ok);
    RowStep(parts, format, leads, i);
    if !ok {
      BeginningDelivered(render, log + [tries], before + [piece], InARow(parts, format, leads));
    }
  }

  class TelegramBot {
    var attempts: seq<Attempt>                 // the calls made, with the server's answers
    const render: string -> string             // the Markdown parser and the HTML renderer

    constructor (r: string -> string)
      ensures attempts == [] && render == r
    {
      attempts, render := [], r;
    }

    /** `send_formatted` and `edit_formatted`. */
    method CallServer(text: string, format: Format, leads: bool) returns (ok: bool, parseError: bool)
      modifies this
      ensures attempts == old(attempts) + [Attempt(Body(Guarded(text), format), leads, ok, parseError)]
    {
      var body := EnsureTelegramLimit(text);
      ok, parseError := ServerAnswers();
      attempts := attempts + [Attempt(Body(body, format), leads, ok, parseError)];
    }

    /** `send_single_formatted` and `edit_single_formatted`: HTML is tried again as plain text, once. */
    method SendSingle(text: string, format: Format, leads: bool) returns (ok: bool, ghost tries: seq<Attempt>)
      modifies this
      ensures attempts == old(attempts) + tries
      ensures Ended(render, tries, Piece(text, format, leads), ok)
    {
      var parseError;
      ok, parseError := CallServer(Made(render, text, format), format, leads);
      tries := [attempts[|attempts| - 1]];
      if !ok && format == Html && parseError {
        ok, parseError := CallServer(text, Plain, leads);
        tries := tries + [attempts[|attempts| - 1]];
      }
    }

    /** The next of several parts, as it is. */
    method SendOne(parts: seq<string>, i: nat, format: Format, leads: bool,
                   ghost from: seq<Attempt>, ghost log: seq<seq<Attempt>>)
      returns (ok: bool, ghost all: seq<seq<Attempt>>)
      requires i < |parts| && attempts == from + Flat(log)
      requires Delivered(render, log, InARow(parts[..i], format, leads), true)
      modifies this
      ensures attempts == from + Flat(all)
      ensures Delivered(render, all, InARow(if ok then parts[..i + 1] else parts, format, leads), ok)
    {
      ghost var tries;
      ok, tries := SendSingle(parts[i], format, leads && i == 0);
      RowDelivered(render, log, parts, format, leads, i, tries, ok);
      InTurn(from, Flat(log), tries);
      all := log + [tries];
    }

    /** Sends parts one by one, stopping at the first failure. */
    method SendParts(parts: seq<string>, format: Format, leads: bool)
      returns (ok: bool, ghost log: seq<seq<Attempt>>)
      modifies this
      ensures attempts == old(attempts) + Flat(log) && Delivered(render, log, InARow(parts, format, leads), ok)
    {
      ok, log := true, [];
      for i := 0 to |parts|
        invariant ok && attempts == old(attempts) + Flat(log)
        invariant Delivered(render, log, InARow(parts[..i], format, leads), true)
      {
        ok, log := SendOne(parts, i, format, leads, old(attempts), log);
        if !ok {
          return;
        }
      }
      assert parts[..|parts|] == parts;
    }

    /** A part as a delivery of its own. */
    method SendWhole(text: string, format: Format, leads: bool) returns (ok: bool, ghost log: seq<seq<Attempt>>)
      modifies this
      ensures attempts == old(attempts) + Flat(log) && Delivered(render, log, [Piece(text, format, leads)], ok)
    {
      ghost var tries;
      ok, tries := SendSingle(text, format, leads);
      log := [tries];
      DeliveredOne(render, tries, Piece(text, format, leads), ok);
    }

    /** `send_message_part` and `edit_message_part`, on a part or on a whole text. */
    method SendPart(text: string, format: Format, leads: bool) returns (ok: bool, ghost log: seq<seq<Attempt>>)
      modifies this
      ensures attempts == old(attempts) + Flat(log)
      ensures Delivered(render, log, PartPieces(render, text, format, leads), ok)
    {
      if Fits(Made(render, text, format)) {
        ok, log := SendWhole(text, format, leads);
        return;
      }
      var subparts := SplitForTelegram(text, TELEGRAM_SPLIT_UTF16 / 2);
      SplitCuts(text, TELEGRAM_SPLIT_UTF16 / 2);
      if |subparts.value| <= 1 {
        ok, log := SendWhole(text, Plain, leads);
        return;
      }
      ok, log := SendParts(subparts.value, format, leads);
    }

    /** The next of several parts. */
    method SendNext(parts: seq<string>, i: nat, format: Format, ghost from: seq<Attempt>, ghost log: seq<seq<Attempt>>)
      returns (ok: bool, ghost all: seq<seq<Attempt>>)
      requires i < |parts| && attempts == from + Flat(log)
      requires Delivered(render, log, AllPieces(render, parts[..i], format), true)
      modifies this
      ensures attempts == from + Flat(all)
      ensures Delivered(render, all, AllPieces(render, if ok then parts[..i + 1] else parts, format), ok)
    {
      ghost var more;
      ok, more := SendPart(parts[i], format, i == 0);
      PartDelivered(render, log, parts, format, i, more, ok);
      InTurn(from, Flat(log), Flat(more));
      all := log + more;
    }

    method SendEach(parts: seq<string>, format: Format) returns (ok: bool, ghost log: seq<seq<Attempt>>)
      modifies this
      ensures attempts == old(attempts) + Flat(log) && Delivered(render, log, AllPieces(render, parts, format), ok)
    {
      log := [];
      ok := true;
      for i := 0 to |parts|
        invariant ok && attempts == old(attempts) + Flat(log)
        invariant Delivered(render, log, AllPieces(render, parts[..i], format), true)
      {
        ok, log := SendNext(parts, i, format, old(attempts), log);
        if !ok {
          return;
        }
      }
      assert parts[..|parts|] == parts;
    }

    /** `send_message` and `edit_or_send_long`. */
    method SendMessage(text: string, format: Format) returns (ok: bool, ghost log: seq<seq<Attempt>>)
      modifies this
      ensures attempts == old(attempts) + Flat(log) && Delivered(render, log, PiecesOf(render, text, format), ok)
    {
      var split := SplitForTelegram(text, TELEGRAM_SPLIT_UTF16);
      SplitCuts(text, TELEGRAM_SPLIT_UTF16);
      ok, log := SendEach(split.value, format);
    }
  }

  // ----- what a delivery conserves -----

  /** What the server accepted, in order. */
  function Accepted(attempts: seq<Attempt>): seq<Body> {
    if attempts == [] then []
    else
      Accepted(attempts[..|attempts| - 1])
      + if attempts[|attempts| - 1].ok then [attempts[|attempts| - 1].body] else []
  }

  lemma {:induction false} AcceptedAppend(a: seq<Attempt>, b: seq<Attempt>)
    ensures Accepted(a + b) == Accepted(a) + Accepted(b)
  {
    if b == [] {
      assert a + b == a;
    } else {
      assert (a + b)[..|a + b| - 1] == a + b[..|b| - 1];
      AcceptedAppend(a, b[..|b| - 1]);
    }
  }

  /** The body of a piece that got through: its HTML, or the piece itself if it was to be sent plain or its HTML was
      refused as such. */
  predicate GotThrough(render: string -> string, body: Body, piece: Piece, tries: seq<Attempt>) {
    && |tries| > 0 && (piece.format == Plain ==> body == Body(piece.text, Plain))
    && (piece.format == Html && tries[0].ok ==> body == Body(Guarded(render(piece.text)), Html))
    && (piece.format == Html && !tries[0].ok ==> tries[0].parseError && body == Body(piece.text, Plain))
  }

  lemma TriesAccepted(render: string -> string, tries: seq<Attempt>, piece: Piece)
    requires Tried(render, tries, piece) && Fits(piece.text)
    ensures if Through(tries)
            then |Accepted(tries)| == 1 && GotThrough(render, Accepted(tries)[0], piece, tries)
            else Accepted(tries) == []
  {
    assert Accepted(tries[..0]) == [];
    if |tries| == 2 {
      assert tries[..1][..0] == tries[..0] && tries[..1][0] == tries[0];
    }
  }

  /** The first `n` pieces got through, one accepted body for each, in order. */
  predicate Received(render: string -> string, bodies: seq<Body>, log: seq<seq<Attempt>>, pieces: seq<Piece>) {
    && |bodies| <= |log| && |bodies| <= |pieces|
    && forall i :: 0 <= i < |bodies| ==> GotThrough(render, bodies[i], pieces[i], log[i])
  }

  lemma DeliveredBefore(render: string -> string, log: seq<seq<Attempt>>, pieces: seq<Piece>, ok: bool)
    requires Delivered(render, log, pieces, ok) && log != []
    ensures var k := |log| - 1;
      Delivered(render, log[..k], pieces[..k], true) && Ended(render, log[k], pieces[k], ok)
  {
  }

  lemma ReceivedMore(render: string -> string, bodies: seq<Body>, more: seq<Body>,
                     log: seq<seq<Attempt>>, pieces: seq<Piece>)
    requires log != [] && |log| <= |pieces| && |bodies| == |log| - 1
    requires Received(render, bodies, log[..|log| - 1], pieces[..|log| - 1])
    requires |more| <= 1 && (more != [] ==> GotThrough(render, more[0], pieces[|log| - 1], log[|log| - 1]))
    ensures Received(render, bodies + more, log, pieces)
  {
  }

  lemma {:induction false} DeliveredReceived(render: string -> string, log: seq<seq<Attempt>>, pieces: seq<Piece>,
                                             ok: bool)
    requires Delivered(render, log, pieces, ok) && forall i :: 0 <= i < |pieces| ==> Fits(pieces[i].text)
    ensures Received(render, Accepted(Flat(log)), log, pieces)
    ensures |Accepted(Flat(log))| == if ok then |pieces| else |log| - 1
    decreases |log|
  {
    if log != [] {
      var k := |log| - 1;
      DeliveredBefore(render, log, pieces, ok);
      DeliveredReceived(render, log[..k], pieces[..k], true);
      AcceptedAppend(Flat(log[..k]), log[k]);
      TriesAccepted(render, log[k], pieces[k]);
      ReceivedMore(render, Accepted(Flat(log[..k])), Accepted(log[k]), log, pieces);
    }
  }

  /**
   * What the server has after a delivery: one body for each piece of the text, in order, or for those before the
   * piece that failed.
   */
  lemma DeliveryReceived(render: string -> string, log: seq<seq<Attempt>>, text: string, format: Format, ok: bool)
    requires Delivered(render, log, PiecesOf(render, text, format), ok)
    ensures var bodies, pieces := Accepted(Flat(log)), PiecesOf(render, text, format);
      Received(render, bodies, log, pieces) && (ok <==> |bodies| == |pieces|)
  {
    PiecesAreCut(render, text, format);
    DeliveredReceived(render, log, PiecesOf(render, text, format), ok);
  }

  function BodyTexts(bodies: seq<Body>): (r: seq<string>)
    ensures |r| == |bodies| && forall i :: 0 <= i < |bodies| ==> r[i] == bodies[i].text
  {
    seq(|bodies|, i requires 0 <= i < |bodies| => bodies[i].text)
  }

  lemma ConcatBeginning(a: seq<string>, b: seq<string>)
    requires a <= b
    ensures Concat(a) <= Concat(b)
  {
    assert b == a + b[|a|..];
    ConcatAppend(a, b[|a|..]);
  }

  /**
   * Plain delivery: the bodies accepted concatenate to the text, or to a part of it from its start when a call
   * failed; none is over the limit, none is empty unless the text is, and none is parsed as HTML.
   */
  lemma PlainDeliveryConserves(render: string -> string, log: seq<seq<Attempt>>, text: string, ok: bool)
    requires Delivered(render, log, PiecesOf(render, text, Plain), ok)
    ensures var bodies := Accepted(Flat(log));
      && Concat(BodyTexts(bodies)) <= text && (ok ==> Concat(BodyTexts(bodies)) == text)
      && (forall i :: 0 <= i < |bodies| ==> Fits(bodies[i].text) && bodies[i].format == Plain)
      && (text != "" ==> forall i :: 0 <= i < |bodies| ==> bodies[i].text != "")
  {
    PiecesAreCut(render, text, Plain);
    DeliveryReceived(render, log, text, Plain, ok);
    PlainBodies(render, Accepted(Flat(log)), log, PiecesOf(render, text, Plain), text);
  }

  lemma PlainBodies(render: string -> string, bodies: seq<Body>, log: seq<seq<Attempt>>, pieces: seq<Piece>,
                    text: string)
    requires Received(render, bodies, log, pieces) && AllSized(render, pieces, Plain) && Cuts(text, Texts(pieces))
    ensures Concat(BodyTexts(bodies)) <= text && (|bodies| == |pieces| ==> Concat(BodyTexts(bodies)) == text)
    ensures forall i :: 0 <= i < |bodies| ==> Fits(bodies[i].text) && bodies[i].format == Plain
    ensures text != "" ==> forall i :: 0 <= i < |bodies| ==> bodies[i].text != ""
  {
    PlainReceived(render, bodies, log, pieces);
    ConcatBeginning(BodyTexts(bodies), Texts(pieces));
    assert |bodies| == |pieces| ==> BodyTexts(bodies) == Texts(pieces);
    forall i | 0 <= i < |bodies| && text != "" ensures bodies[i].text != "" {
      assert Texts(pieces)[i] == bodies[i].text;
    }
  }

  lemma PlainReceived(render: string -> string, bodies: seq<Body>, log: seq<seq<Attempt>>, pieces: seq<Piece>)
    requires Received(render, bodies, log, pieces) && AllSized(render, pieces, Plain)
    ensures BodyTexts(bodies) == Texts(pieces)[..|bodies|]
    ensures forall i :: 0 <= i < |bodies| ==> bodies[i] == Body(pieces[i].text, Plain) && Fits(bodies[i].text)
  {
    forall i | 0 <= i < |bodies| ensures bodies[i] == Body(pieces[i].text, Plain) && Fits(bodies[i].text) {
      assert Sized(render, pieces[i], Plain) && GotThrough(render, bodies[i], pieces[i], log[i]);
    }
  }

  /**
   * HTML delivery: a body is the plain piece, or HTML that fits the limit; where the HTML made of a piece fits,
   * the body reads back as nested tags around the text the Markdown reference gives for that piece, up to
   * whitespace at its ends, with its links, and each character in the styles the reference gives it.
   */
  lemma HtmlBodyReads(render: string -> string, body: Body, piece: Piece, tries: seq<Attempt>,
                      es: seq<HtmlRenderer.Event>)
    requires GotThrough(render, body, piece, tries) && Fits(piece.text)
    requires HtmlTheorems.WellNested(es, []) && HtmlTheorems.NoRawHtml(es)
    requires render(piece.text) == HtmlReading.RenderedHtml(es)
    ensures Fits(body.text) && (body.format == Plain ==> body.text == piece.text)
    ensures body.format == Html <==> piece.format == Html && tries[0].ok
    ensures body.format == Html && Fits(render(piece.text)) ==>
      var read := HtmlMarkup.Scan(body.text);
      && HtmlMarkup.Nest(read, []) == Some([])
      && HtmlMarkup.Links(read) == HtmlTheorems.StreamLinks(es)
      && HtmlReading.UpToSpace(HtmlTheorems.Joined(HtmlTheorems.Pieces(es, HtmlTheorems.TOP)), HtmlMarkup.Visible(read))
      && HtmlStyles.UpToSpaces(HtmlStyles.Reference(es, [], HtmlTheorems.TOP), HtmlStyles.Inks(read, []))
  {
    GuardedKeeps(render(piece.text));
    HtmlReading.RenderedReads(es);
    HtmlStyles.RenderedStyles(es);
  }

  // ----- a tail that is dropped -----

  /** Characters of one UTF-16 unit. */
  predicate Narrow(s: string) {
    forall i :: 0 <= i < |s| ==> s[i] as int < 0x10000
  }

  lemma {:induction false} NarrowLength(s: string)
    requires Narrow(s)
    ensures Utf16Len(s) == |s|
  {
    if s != "" {
      NarrowLength(s[..|s| - 1]);
    }
  }

  predicate Ampersands(s: string) {
    forall i :: 0 <= i < |s| ==> s[i] == '&'
  }

  lemma {:induction false} AmpersandsEscaped(s: string)
    requires Ampersands(s)
    ensures var e := HtmlMarkup.EscapeText(s);
      |e| == 5 * |s| && Narrow(e) && (s != "" ==> e[0] == '&' && e[|e| - 1] == ';')
  {
    if s != "" {
      AmpersandsEscaped(s[1..]);
      assert HtmlMarkup.EscapeChar('&') == "&amp;";
    }
  }

  /** The trim takes nothing from such a text, and takes the newline behind it. */
  lemma TrimmedBare(e: string)
    requires e != "" && e[0] == '&' && e[|e| - 1] == ';'
    ensures Text.Trim(e + "\n") == e
  {
    var s := e + "\n";
    assert s[0] == '&' && s[..|s| - 1] == e;
    assert Text.TrimStart(s) == s;
    assert Text.TrimEnd(e) == e;
  }

  /** What the parser makes of a paragraph of plain text. */
  function Paragraph(text: string): seq<HtmlRenderer.Event> {
    [HtmlRenderer.Start(HtmlRenderer.Paragraph)] + [HtmlRenderer.TextRun(text)]
      + [HtmlRenderer.End(HtmlRenderer.ParagraphEnd)]
  }

  lemma ThreeEvents(s: HtmlRenderer.State, a: HtmlRenderer.Event, b: HtmlRenderer.Event, c: HtmlRenderer.Event)
    requires !a.Start? || !a.tag.Item?
    requires !b.Start? || !b.tag.Item?
    requires !c.Start? || !c.tag.Item?
    ensures HtmlReading.Final(s, [a] + [b] + [c])
         == HtmlRenderer.OnEvent(HtmlRenderer.OnEvent(HtmlRenderer.OnEvent(s, a), b), c)
  {
    var es := [a] + [b] + [c];
    assert es[1..] == [b] + [c] && es[1..][1..] == [c] && [c][1..] == [];
    var t := HtmlRenderer.OnEvent(HtmlRenderer.OnEvent(s, a), b);
    assert HtmlReading.Final(t, [c]) == HtmlRenderer.OnEvent(t, c);
    assert HtmlReading.Final(HtmlRenderer.OnEvent(s, a), es[1..]) == HtmlReading.Final(t, [c]);
  }

  lemma ParagraphMarkup(text: string)
    ensures HtmlRenderer.FlushPre(HtmlReading.Final(HtmlRenderer.INITIAL, Paragraph(text))).markup
         == HtmlMarkup.Chars(text) + [HtmlMarkup.Chr('\n')]
  {
    ThreeEvents(HtmlRenderer.INITIAL, HtmlRenderer.Start(HtmlRenderer.Paragraph), HtmlRenderer.TextRun(text),
                HtmlRenderer.End(HtmlRenderer.ParagraphEnd));
  }

  lemma ParagraphRendered(text: string)
    ensures HtmlReading.RenderedHtml(Paragraph(text)) == Text.Trim(HtmlMarkup.EscapeText(text) + "\n")
  {
    ParagraphMarkup(text);
    HtmlMarkup.CharsAre(text, []);
    HtmlMarkup.FlattenAppend(HtmlMarkup.Chars(text), [HtmlMarkup.Chr('\n')]);
    HtmlRenderer.FlattenOne(HtmlMarkup.Chr('\n'));
  }

  lemma AmpersandsRendered(text: string)
    requires Ampersands(text) && text != ""
    ensures Utf16Len(HtmlReading.RenderedHtml(Paragraph(text))) == 5 * |text|
  {
    ParagraphRendered(text);
    AmpersandsEscaped(text);
    TrimmedBare(HtmlMarkup.EscapeText(text));
    NarrowLength(HtmlMarkup.EscapeText(text));
  }

  /**
   * The guard does drop text: a paragraph of 820 to 1900 ampersands is short enough to be sent as a subpart,
   * but its HTML is five times as long, over the limit, and only the beginning of it is kept.
   */
  lemma TailIsDropped(text: string, html: string)
    requires Ampersands(text) && 820 <= |text| <= TELEGRAM_SPLIT_UTF16 / 2
    requires html == HtmlReading.RenderedHtml(Paragraph(text))
    ensures Utf16Len(text) == |text| && Utf16Len(html) == 5 * |text|
    ensures Guarded(html) < html && Utf16Len(Guarded(html)) <= TELEGRAM_MAX_UTF16
  {
    NarrowLength(text);
    AmpersandsRendered(text);
    GuardedKeeps(html);
  }
}
