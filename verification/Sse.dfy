/**
 * The event stream of a chat turn: the frames the server prints, and the
 * incremental reader in the browser, which sees the text cut anywhere.
 */
module Sse {
  import opened Common
  import opened Split
  import opened Text

  const FRAME_END := "\n\n"
  const DATA := "data:"
  const DONE_PAYLOAD := "{\"type\":\"__done\"}"

  /** What `JSON.parse` and the test of `type` make of a payload. */
  datatype Parsed<+E> = Malformed | Done | Event(event: E)

  // ----- The printer -----

  function Frame(payload: string): string { DATA + " " + payload + FRAME_END }

  function Print(payloads: seq<string>): string {
    if payloads == [] then "" else Frame(payloads[0]) + Print(payloads[1..])
  }

  /** One response stream. `accepted` says whether the controller still takes the chunk. */
  class Printer {
    var closed: bool
    var output: string

    constructor ()
      ensures !closed && output == ""
    {
      closed, output := false, "";
    }

    method Send(payload: string, accepted: bool)
      modifies this
      ensures output == if !old(closed) && accepted then old(output) + Frame(payload) else old(output)
      ensures closed == (old(closed) || !accepted)
    {
      if closed { return; }
      if accepted {
        output := output + Frame(payload);
      } else {
        closed := true;
      }
    }

    method Finish(accepted: bool)
      modifies this
      ensures closed
      ensures output == if !old(closed) && accepted then old(output) + Frame(DONE_PAYLOAD) else old(output)
    {
      if !closed {
        closed := true;
        if accepted {
          output := output + Frame(DONE_PAYLOAD);
        }
      }
    }
  }

  /** A client that stays connected receives the frames of all events, then the end frame. */
  method PrintTurn(payloads: seq<string>) returns (output: string)
    ensures output == Print(payloads + [DONE_PAYLOAD])
  {
    var printer := new Printer();
    for i := 0 to |payloads|
      invariant !printer.closed && printer.output == Print(payloads[..i])
    {
      printer.Send(payloads[i], true);
      PrintNext(payloads, i);
    }
    assert payloads[..|payloads|] == payloads;
    PrintSnoc(payloads, DONE_PAYLOAD);
    printer.Finish(true);
    output := printer.output;
  }

  lemma {:induction false} PrintSnoc(payloads: seq<string>, last: string)
    ensures Print(payloads + [last]) == Print(payloads) + Frame(last)
  {
    if payloads == [] {
      assert payloads + [last] == [last] && [last][1..] == [];
      assert Print([last]) == Frame(last) + "";
    } else {
      PrintSnoc(payloads[1..], last);
      assert (payloads + [last])[1..] == payloads[1..] + [last];
      Joined(Frame(payloads[0]), Print(payloads[1..]), Frame(last));
    }
  }

  lemma Joined(a: string, b: string, c: string)
    ensures a + (b + c) == a + b + c
  {
  }

  lemma PrintNext(payloads: seq<string>, i: nat)
    requires i < |payloads|
    ensures Print(payloads[..i + 1]) == Print(payloads[..i]) + Frame(payloads[i])
  {
    assert payloads[..i + 1] == payloads[..i] + [payloads[i]];
    PrintSnoc(payloads[..i], payloads[i]);
  }

  // ----- The reader -----

  /** The payload of one frame, empty when the frame carries none. */
  function PayloadOf(chunk: string): string {
    var line := Trim(chunk);
    if StartsWith(line, DATA) then Trim(line[|DATA|..]) else ""
  }

  /** What one complete frame means; a frame without a payload is skipped like a malformed one. */
  function Meaning<E>(parse: string -> Parsed<E>, frame: string): Parsed<E> {
    var payload := PayloadOf(frame);
    if payload == "" then Malformed else parse(payload)
  }

  /** One frame in front of an already known delivery. */
  function Prepend<E>(meaning: Parsed<E>, rest: (seq<E>, bool)): (seq<E>, bool) {
    match meaning
    case Malformed => rest
    case Done => ([], true)
    case Event(e) => ([e] + rest.0, rest.1)
  }

  /** Two deliveries in a row: after the end frame, nothing counts. */
  function Sequence<E>(x: (seq<E>, bool), y: (seq<E>, bool)): (seq<E>, bool) {
    if x.1 then x else (x.0 + y.0, y.1)
  }

  /** What a list of complete frames delivers, and whether the end frame is among them. */
  function Deliver<E>(parse: string -> Parsed<E>, frames: seq<string>): (seq<E>, bool) {
    if frames == [] then ([], false)
    else Prepend(Meaning(parse, frames[0]), Deliver(parse, frames[1..]))
  }

  /** What a whole stream delivers when it is split at once. */
  function DeliverText<E>(parse: string -> Parsed<E>, text: string): (seq<E>, bool) {
    Deliver(parse, Init(Pieces(text, FRAME_END)))
  }

  lemma PrependSequence<E>(meaning: Parsed<E>, x: (seq<E>, bool), y: (seq<E>, bool))
    ensures Prepend(meaning, Sequence(x, y)) == Sequence(Prepend(meaning, x), y)
  {
    if meaning.Event? {
      var e := [meaning.event];
      assert e + (x.0 + y.0) == e + x.0 + y.0;
    }
  }

  lemma {:induction false} DeliverAppend<E>(parse: string -> Parsed<E>, a: seq<string>, b: seq<string>)
    ensures Deliver(parse, a + b) == Sequence(Deliver(parse, a), Deliver(parse, b))
  {
    if a == [] {
      assert a + b == b;
      assert [] + Deliver(parse, b).0 == Deliver(parse, b).0;
    } else {
      assert (a + b)[0] == a[0] && (a + b)[1..] == a[1..] + b;
      DeliverAppend(parse, a[1..], b);
      PrependSequence(Meaning(parse, a[0]), Deliver(parse, a[1..]), Deliver(parse, b));
    }
  }

  /** The text after one more chunk, in terms of the last unfinished frame before it. */
  lemma DeliverMore<E>(parse: string -> Parsed<E>, text: string, chunk: string)
    ensures var rest := Last(Pieces(text, FRAME_END));
            var more := Pieces(rest + chunk, FRAME_END);
            && Last(Pieces(text + chunk, FRAME_END)) == Last(more)
            && DeliverText(parse, text + chunk) == Sequence(DeliverText(parse, text), Deliver(parse, Init(more)))
  {
    PiecesConcat(text, chunk, FRAME_END);
    var done := Init(Pieces(text, FRAME_END));
    var more := Pieces(Last(Pieces(text, FRAME_END)) + chunk, FRAME_END);
    assert Init(done + more) == done + Init(more);
    DeliverAppend(parse, done, Init(more));
  }

  /** Once the end frame is in, no further chunk changes anything. */
  lemma {:induction false} DeliverDone<E>(parse: string -> Parsed<E>, chunks: seq<string>, n: nat)
    requires n <= |chunks| && DeliverText(parse, Concat(chunks[..n])).1
    ensures DeliverText(parse, Concat(chunks)) == DeliverText(parse, Concat(chunks[..n]))
    decreases |chunks| - n
  {
    if n == |chunks| {
      assert chunks[..n] == chunks;
    } else {
      assert chunks[..n + 1] == chunks[..n] + [chunks[n]];
      ConcatSnoc(chunks[..n], chunks[n]);
      DeliverMore(parse, Concat(chunks[..n]), chunks[n]);
      DeliverDone(parse, chunks, n + 1);
    }
  }

  /**
   * The reading loop. Whatever the cut, it delivers exactly what splitting the
   * whole stream at once would deliver.
   */
  method ReadSse<E>(chunks: seq<string>, parse: string -> Parsed<E>) returns (events: seq<E>)
    ensures events == DeliverText(parse, Concat(chunks)).0
  {
    events := [];
    var buffer := "";
    assert chunks[..0] == [];
    for i := 0 to |chunks|
      invariant buffer == Last(Pieces(Concat(chunks[..i]), FRAME_END))
      invariant DeliverText(parse, Concat(chunks[..i])) == (events, false)
    {
      ghost var text := Concat(chunks[..i]);
      assert chunks[..i + 1] == chunks[..i] + [chunks[i]];
      ConcatSnoc(chunks[..i], chunks[i]);
      DeliverMore(parse, text, chunks[i]);
      var pieces := Pieces(buffer + chunks[i], FRAME_END);
      var frames := Init(pieces);
      buffer := Last(pieces);
      var finished;
      events, finished := HandleFrames(parse, frames, events);
      if finished {
        DeliverDone(parse, chunks, i + 1);
        return;
      }
    }
    assert chunks[..|chunks|] == chunks;
  }

  lemma DeliverOne<E>(parse: string -> Parsed<E>, frame: string)
    ensures Deliver(parse, [frame]) == Prepend(Meaning(parse, frame), ([], false))
  {
    assert [frame][1..] == [];
  }

  /** The end frame stops the delivery. */
  lemma DeliverEnd<E>(parse: string -> Parsed<E>, frames: seq<string>, i: nat)
    requires i < |frames| && !Deliver(parse, frames[..i]).1 && Meaning(parse, frames[i]).Done?
    ensures Deliver(parse, frames) == (Deliver(parse, frames[..i]).0, true)
  {
    assert frames == frames[..i] + frames[i..];
    DeliverAppend(parse, frames[..i], frames[i..]);
    assert Deliver(parse, frames[i..]) == ([], true);
    assert Deliver(parse, frames[..i]).0 + [] == Deliver(parse, frames[..i]).0;
  }

  /** Any other frame adds its event, or nothing. */
  lemma DeliverNext<E>(parse: string -> Parsed<E>, frames: seq<string>, i: nat)
    requires i < |frames| && !Deliver(parse, frames[..i]).1 && !Meaning(parse, frames[i]).Done?
    ensures !Deliver(parse, frames[..i + 1]).1
    ensures Deliver(parse, frames[..i + 1]).0
         == Deliver(parse, frames[..i]).0 + if Meaning(parse, frames[i]).Event? then [Meaning(parse, frames[i]).event] else []
  {
    assert frames[..i + 1] == frames[..i] + [frames[i]];
    DeliverAppend(parse, frames[..i], [frames[i]]);
    DeliverOne(parse, frames[i]);
  }

  /** The inner loop over the complete frames of one chunk. */
  method HandleFrames<E>(parse: string -> Parsed<E>, frames: seq<string>, before: seq<E>)
    returns (events: seq<E>, finished: bool)
    ensures events == before + Deliver(parse, frames).0 && finished == Deliver(parse, frames).1
  {
    events := before;
    for i := 0 to |frames|
      invariant Deliver(parse, frames[..i]).1 == false
      invariant events == before + Deliver(parse, frames[..i]).0
    {
      if Meaning(parse, frames[i]).Done? {
        DeliverEnd(parse, frames, i);
      } else {
        DeliverNext(parse, frames, i);
      }
      var payload := PayloadOf(frames[i]);
      if payload == "" { continue; }
      match parse(payload) {
        case Malformed =>
        case Done => return events, true;
        case Event(e) => events := events + [e];
      }
    }
    assert frames[..|frames|] == frames;
    return events, false;
  }

  // ----- Printer and reader together -----

  /** A JSON text: not empty, no raw line feed (RFC 8259, section 7), no white space at the ends. */
  predicate IsPayload(p: string) {
    p != "" && '\n' !in p && !IsSpace(p[0]) && !IsSpace(p[|p| - 1])
  }

  lemma PayloadOfFrame(p: string)
    requires IsPayload(p)
    ensures PayloadOf(DATA + " " + p) == p
  {
    var line := DATA + " " + p;
    TrimIsIdentity(line);
    assert line[|DATA|..] == " " + p;
    assert (" " + p)[1..] == p;
    TrimIsIdentity(p);
  }

  /** The frames of a printed stream, followed by any text, split off one by one. */
  lemma PrintedPieces(p: string, rest: string)
    requires IsPayload(p)
    ensures Pieces(Frame(p) + rest, FRAME_END) == [DATA + " " + p] + Pieces(rest, FRAME_END)
  {
    var line := DATA + " " + p;
    assert Frame(p) + rest == line + FRAME_END + rest;
    forall j | 0 <= j < |line| ensures !OccursAt(line + FRAME_END + rest, FRAME_END, j) {
      assert (line + FRAME_END + rest)[j] == line[j] != '\n';
      assert (line + FRAME_END + rest)[j..j + 2][0] != FRAME_END[0];
    }
    PiecesCons(line, rest, FRAME_END);
  }

  /** The events of the payloads before the first end payload. */
  function EventsBeforeDone<E>(parse: string -> Parsed<E>, payloads: seq<string>): seq<E> {
    if payloads == [] || parse(payloads[0]).Done? then []
    else if parse(payloads[0]).Malformed? then EventsBeforeDone(parse, payloads[1..])
    else [parse(payloads[0]).event] + EventsBeforeDone(parse, payloads[1..])
  }

  lemma {:induction false} PrintedDelivery<E>(parse: string -> Parsed<E>, payloads: seq<string>)
    requires forall p :: p in payloads ==> IsPayload(p)
    ensures DeliverText(parse, Print(payloads)).0 == EventsBeforeDone(parse, payloads)
  {
    if payloads != [] {
      var p, rest := payloads[0], Print(payloads[1..]);
      PrintedPieces(p, rest);
      PayloadOfFrame(p);
      var more := Pieces(rest, FRAME_END);
      assert Init([DATA + " " + p] + more) == [DATA + " " + p] + Init(more);
      assert ([DATA + " " + p] + Init(more))[1..] == Init(more);
      PrintedDelivery(parse, payloads[1..]);
    }
  }

  lemma {:induction false} EventsOf<E>(parse: string -> Parsed<E>, stringify: E -> string, events: seq<E>, after: seq<string>)
    requires parse(DONE_PAYLOAD).Done?
    requires forall e :: e in events ==> parse(stringify(e)) == Event(e)
    ensures EventsBeforeDone(parse, MapSeq(stringify, events) + [DONE_PAYLOAD] + after) == events
  {
    var payloads := MapSeq(stringify, events) + [DONE_PAYLOAD] + after;
    if events != [] {
      EventsOf(parse, stringify, events[1..], after);
      assert payloads[1..] == MapSeq(stringify, events[1..]) + [DONE_PAYLOAD] + after;
    }
  }

  /**
   * Server to browser: for every list of events and every cut of the printed
   * stream into chunks, what `ReadSse` returns is the list of events.
   */
  lemma StreamRoundTrip<E>(
      parse: string -> Parsed<E>, stringify: E -> string, events: seq<E>, after: seq<string>, chunks: seq<string>)
    requires parse(DONE_PAYLOAD).Done?
    requires forall e :: e in events ==> IsPayload(stringify(e)) && parse(stringify(e)) == Event(e)
    requires forall p :: p in after ==> IsPayload(p)
    requires Concat(chunks) == Print(MapSeq(stringify, events) + [DONE_PAYLOAD] + after)
    ensures DeliverText(parse, Concat(chunks)).0 == events
  {
    var payloads := MapSeq(stringify, events) + [DONE_PAYLOAD] + after;
    PrintedDelivery(parse, payloads);
    EventsOf(parse, stringify, events, after);
  }

  /**
   * A frame of any server: its payload is what stands behind `data:`, whatever
   * white space surrounds it; a frame with nothing there, or with another field, has none.
   */
  lemma PayloadOfAnyFrame(before: string, between: string, payload: string, after: string)
    requires IsBlank(before) && IsBlank(between) && IsBlank(after)
    requires payload != "" && !IsSpace(payload[0]) && !IsSpace(payload[|payload| - 1])
    ensures PayloadOf(before + (DATA + between + payload) + after) == payload
    ensures PayloadOf(before + DATA + after) == ""
    ensures !StartsWith(payload, DATA) ==> PayloadOf(before + payload + after) == ""
  {
    var line := DATA + between + payload;
    assert line[|line| - 1] == payload[|payload| - 1];
    TrimDropsPadding(before, line, after);
    assert line[|DATA|..] == between + payload + "";
    TrimDropsPadding(between, payload, "");
    TrimDropsPadding(before, DATA, after);
    TrimOfBlank(DATA[|DATA|..]);
    TrimDropsPadding(before, payload, after);
  }

  /**
   * Frame by frame, before the end frame: without a payload, or with one that does
   * not parse, a frame counts for nothing, whatever the parser; an event is
   * delivered in its place; and nothing behind an end frame is.
   */
  lemma FrameByFrame<E>(parse: string -> Parsed<E>, a: seq<string>, frame: string, b: seq<string>)
    requires !Deliver(parse, a).1
    ensures var payload, all, before, after := PayloadOf(frame), Deliver(parse, a + ([frame] + b)), Deliver(parse, a).0, Deliver(parse, b);
            && (payload == "" || parse(payload).Malformed? ==> all == (before + after.0, after.1))
            && (payload != "" && parse(payload).Done? ==> all == (before, true))
            && (payload != "" && parse(payload).Event? ==> all == (before + ([parse(payload).event] + after.0), after.1))
  {
    DeliverAppend(parse, a, [frame] + b);
    assert ([frame] + b)[1..] == b;
    assert Deliver(parse, [frame] + b) == Prepend(Meaning(parse, frame), Deliver(parse, b));
    assert Deliver(parse, a).0 + [] == Deliver(parse, a).0;
  }
}
