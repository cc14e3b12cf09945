/**
 What a log request writes, told over the text the container printed and the wakings of the handler,
 with the server's words and bounds written out.
 */
module LogServing {
  import opened Options
  import opened LineBreaks
  import opened LogLines
  import opened EventStream
  import opened LogResponse
  import opened Text

  // ----- Lines and their breaks -----

  /** The lines one after the other, each with the break that ends it, and then the rest. */
  function Joined(lines: seq<string>, breaks: seq<string>, rest: string): (s: string)
    requires |breaks| == |lines|
  {
    if lines == [] then rest else lines[0] + breaks[0] + Joined(lines[1..], breaks[1..], rest)
  }

  predicate IsUnbroken(s: string) {
    '\n' !in s && '\r' !in s
  }

  /** Every line is unbroken, ends with LF, CR or CR LF, and no LF follows a CR that ends one. */
  predicate Breakable(lines: seq<string>, breaks: seq<string>, rest: string)
    requires |breaks| == |lines|
  {
    if lines == [] then IsUnbroken(rest)
    else
      var next := Joined(lines[1..], breaks[1..], rest);
      && IsUnbroken(lines[0]) && breaks[0] in ["\n", "\r", "\r\n"]
      && (breaks[0] == "\r" && next != "" ==> next[0] != '\n')
      && Breakable(lines[1..], breaks[1..], rest)
  }

  lemma UnbrokenIs(s: string)
    ensures IsUnbroken(s) <==> NoBreak(s)
  {
  }

  /** Whatever breaks end them, the lines of a text are the lines it was put together from. */
  lemma {:induction false} LinesOfJoined(lines: seq<string>, breaks: seq<string>, rest: string)
    requires |breaks| == |lines| && Breakable(lines, breaks, rest)
    ensures Lines(Joined(lines, breaks, rest)) == lines && Tail(Joined(lines, breaks, rest)) == rest
    decreases |lines|
  {
    if lines == [] {
      UnbrokenIs(rest);
      assert rest[..|rest|] == rest;
      FirstBreakIs(rest, |rest|);
    } else {
      var line, next := lines[0], Joined(lines[1..], breaks[1..], rest);
      LinesOfJoined(lines[1..], breaks[1..], rest);
      UnbrokenIs(line);
      FirstOfJoined(line, breaks[0], next);
    }
  }

  lemma FirstOfJoined(line: string, brk: string, next: string)
    requires NoBreak(line) && brk in ["\n", "\r", "\r\n"] && (brk == "\r" && next != "" ==> next[0] != '\n')
    ensures Lines(line + brk + next) == [line] + Lines(next) && Tail(line + brk + next) == Tail(next)
  {
    var s, n := line + brk + next, |line|;
    assert s[..n] == line && s[n] == brk[0] && s[n + |brk|..] == next;
    assert |brk| == 2 ==> s[n + 1] == '\n';
    assert |brk| == 1 && n + 1 < |s| ==> s[n + 1] == next[0];
    assert PastBreak(s, n) == n + |brk|;
    hide Lines, Tail, NoBreak, FirstBreak, PastBreak;
    CutAt(s, n);
  }

  // ----- The bounds of a request -----

  /** Reading the first `k` lines spends the request, and reading fewer does not. */
  predicate SpentBy(lines: seq<string>, k: nat)
    requires 0 < k <= |lines|
  {
    && (k >= 10_000 || TotalLength(lines[..k]) + k >= 4_194_304)
    && k - 1 < 10_000 && TotalLength(lines[..k - 1]) + k - 1 < 4_194_304
  }

  lemma {:induction false} LengthOfPrefix(lines: seq<string>, k: nat)
    requires k < |lines|
    ensures TotalLength(lines[..k + 1]) == TotalLength(lines[..k]) + |lines[k]|
  {
    if k == 0 {
      assert lines[..1] == [lines[0]] && lines[..0] == [] && [lines[0]][1..] == [];
    } else {
      assert lines[..k + 1][1..] == lines[1..][..k] && lines[..k][1..] == lines[1..][..k - 1];
      LengthOfPrefix(lines[1..], k - 1);
    }
  }

  lemma {:induction false} EmitPrefix(w: Writer, lines: seq<string>, more: seq<string>, keep: Search)
    ensures EmitAll(w, lines + more, keep) == EmitAll(EmitAll(w, lines, keep), more, keep)
    decreases |lines|
  {
    hide Emit;
    if lines == [] || w.spent {
      if lines == [] {
        assert lines + more == more;
      }
    } else {
      assert (lines + more)[1..] == lines[1..] + more;
      EmitPrefix(Emit(w, lines[0], keep), lines[1..], more, keep);
    }
  }

  /** The server's words once the request has reached its bounds. */
  const AT_LIMIT: string :=
    "this request reached its limit of " + "10000 lines or 4194304 bytes; " + "ask for a narrower window to see more"

  /** The server's words once the time of the request is up. */
  const TIME_UP: string := "this stream reached its time limit; " + "open it again to carry on watching"

  lemma LimitWords()
    ensures LIMIT_NOTICE == AT_LIMIT
  {
  }

  lemma TimeWords()
    ensures TIME_LIMIT + TIME_ADVICE == TIME_UP
  {
  }

  lemma {:induction false} EmitCounts(w: Writer, lines: seq<string>, keep: Search)
    requires !EmitAll(w, lines, keep).spent
    ensures !w.spent && EmitAll(w, lines, keep).lines == w.lines + |lines|
    ensures EmitAll(w, lines, keep).bytes == w.bytes + TotalLength(lines) + |lines|
    decreases |lines|
  {
    if lines != [] && !w.spent {
      EmitCounts(Emit(w, lines[0], keep), lines[1..], keep);
    }
  }

  /**
   A stream that exceeds the bounds, however it was cut into chunks, shows the matching lines up to and
   with the one that spends them, then says so, and takes nothing more.
   */
  lemma LimitedStream(chunks: seq<string>, keep: Search, k: nat)
    requires Short(Concat(chunks), 65_536)
    requires var lines := Lines(Concat(chunks)); 0 < k <= |lines| && SpentBy(lines, k)
    ensures var w := WriteAll(START, chunks, keep);
            w.spent && w.out == Kept(Lines(Concat(chunks))[..k], keep) + [Notice(AT_LIMIT)]
  {
    var lines := Lines(Concat(chunks));
    ChunkingIsInvisible(chunks, keep);
    hide WriteAll, Concat, Lines, Short, Tail;
    LimitedLines(lines, keep, k);
  }

  lemma BeforeTheLimit(lines: seq<string>, keep: Search)
    requires |lines| < 10_000 && TotalLength(lines) + |lines| < 4_194_304
    ensures var w := EmitAll(START, lines, keep);
            !w.spent && w.out == Kept(lines, keep) && w.lines == |lines| && w.bytes == TotalLength(lines) + |lines|
  {
    hide EmitAll, Kept, TotalLength;
    BoundsExactly(START, lines, keep);
    EmitCounts(START, lines, keep);
    assert START.out + Kept(lines, keep) == Kept(lines, keep);
  }

  lemma AtTheLimit(w: Writer, last: string, keep: Search)
    requires !w.spent && (w.lines + 1 >= 10_000 || w.bytes + |last| + 1 >= 4_194_304)
    ensures var e := Emit(w, last, keep);
            e.spent && e.out == w.out + (if keep(last) then [Line(last)] else []) + [Notice(AT_LIMIT)]
  {
    LimitWords();
  }

  lemma LimitedParts(before: seq<string>, last: string, rest: seq<string>, keep: Search)
    requires |before| < 10_000 && TotalLength(before) + |before| < 4_194_304
    requires |before| + 1 >= 10_000 || TotalLength(before) + |before| + |last| + 1 >= 4_194_304
    ensures var w := EmitAll(START, before + ([last] + rest), keep);
            w.spent && w.out == Kept(before + [last], keep) + [Notice(AT_LIMIT)]
  {
    hide *;
    EmitPrefix(START, before, [last] + rest, keep);
    BeforeTheLimit(before, keep);
    var w := EmitAll(START, before, keep);
    EmitCons(w, last, rest, keep);
    AtTheLimit(w, last, keep);
    KeptLast(before, last, keep);
  }

  lemma LimitedLines(lines: seq<string>, keep: Search, k: nat)
    requires 0 < k <= |lines| && SpentBy(lines, k)
    ensures var w := EmitAll(START, lines, keep);
            w.spent && w.out == Kept(lines[..k], keep) + [Notice(AT_LIMIT)]
  {
    LengthOfPrefix(lines, k - 1);
    SplitAt(lines, k);
    assert |lines[..k - 1]| == k - 1;
    assert k >= 10_000 || TotalLength(lines[..k]) + k >= 4_194_304;
    assert k - 1 < 10_000 && TotalLength(lines[..k - 1]) + k - 1 < 4_194_304;
    hide *;
    LimitedParts(lines[..k - 1], lines[k - 1], lines[k..], keep);
  }

  lemma SplitAt(lines: seq<string>, k: nat)
    requires 0 < k <= |lines|
    ensures lines[..k] == lines[..k - 1] + [lines[k - 1]]
    ensures lines == lines[..k - 1] + ([lines[k - 1]] + lines[k..])
  {
  }

  lemma {:induction false} KeptLast(lines: seq<string>, last: string, keep: Search)
    ensures Kept(lines + [last], keep) == Kept(lines, keep) + if keep(last) then [Line(last)] else []
    decreases |lines|
  {
    var end := if keep(last) then [Line(last)] else [];
    if lines == [] {
      assert lines + [last] == [last] && [last][1..] == [];
      assert end + [] == [] + end;
    } else {
      var head, rest := if keep(lines[0]) then [Line(lines[0])] else [], lines[1..];
      KeptLast(rest, last, keep);
      assert (lines + [last])[1..] == rest + [last];
      assert Kept(lines + [last], keep) == head + Kept(rest + [last], keep) && Kept(lines, keep) == head + Kept(rest, keep);
      hide Kept;
      assert head + (Kept(rest, keep) + end) == (head + Kept(rest, keep)) + end;
    }
  }

  // ----- A line that is too long -----

  /**
   Text without a break joins what is pending. Once that is 65536 bytes it is said to be split and shown
   as a line if the search keeps it, and nothing is pending; until then nothing is shown.
   */
  lemma LongLineIsSplit(w: Writer, data: string, keep: Search)
    requires !w.spent && IsUnbroken(data) && data != ""
    ensures var w', line := WriteChunk(w, data, keep), w.pending + data;
            && (|line| < 65_536 ==> w' == w.(pending := line, afterCR := false))
            && (|line| >= 65_536 ==>
                  && w'.pending == "" && w'.lines == w.lines + 1 && w'.bytes == w.bytes + |line| + 1
                  && w'.out == w.out + [Notice("a line longer than 65536 bytes was split")] + (if keep(line) then [Line(line)] else [])
                               + (if w'.lines >= 10_000 || w'.bytes >= 4_194_304 then [Notice(AT_LIMIT)] else []))
  {
    UnbrokenIs(data);
    FeedText(w, data, keep);
    LimitWords();
    hide Feed;
    if |w.pending + data| >= 65_536 {
      var noted := w.out + [Notice("a line longer than 65536 bytes was split")];
      var line := w.pending + data;
      assert noted + (if keep(line) then [Line(line)] else []) + [] == noted + (if keep(line) then [Line(line)] else []);
    }
  }

  // ----- The handler -----

  /** The server's words for bytes the reader did not get. */
  function GapWords(dropped: int): (items: seq<Item>) {
    if dropped > 0 then [Notice(Decimal(dropped) + " bytes were dropped here " + "because this reader was not keeping up")] else []
  }

  lemma GapSaid(w: Writer, dropped: int)
    ensures SayGap(w, dropped) == w.(out := w.out + GapWords(dropped))
  {
    if dropped <= 0 {
      assert w.out + [] == w.out;
    }
  }

  lemma ServedNext(events: seq<Waking>, e: Waking, keep: Search)
    ensures Served(events + [e], keep) == Wake(Served(events, keep), e, keep)
  {
    assert (events + [e])[..|events|] == events;
  }

  /** Once the handler is done nothing more is written, whatever wakes it. */
  lemma NothingAfterTheEnd(events: seq<Waking>, e: Waking, keep: Search)
    requires Served(events, keep).over
    ensures Served(events + [e], keep) == Served(events, keep)
  {
    ServedNext(events, e, keep);
  }

  /**
   While it serves, a chunk is written after the drops before it are told, and ends the request exactly
   when that spends it.
   */
  lemma ChunkIsServed(events: seq<Waking>, data: string, dropped: int, keep: Search)
    requires !Served(events, keep).over
    ensures var w := Served(events, keep).writer;
            var h := Served(events + [Arrived(data, dropped)], keep);
            h.writer == WriteChunk(w.(out := w.out + GapWords(dropped)), data, keep) && (h.over <==> h.writer.spent)
  {
    ServedNext(events, Arrived(data, dropped), keep);
    GapSaid(Served(events, keep).writer, dropped);
    hide SayGap, WriteChunk;
  }

  /**
   A recheck ends the request exactly when access was withdrawn or the time is up, and says which, the
   first before the second; otherwise it only keeps the stream alive. Whatever is pending stays so.
   */
  lemma RecheckIsServed(events: seq<Waking>, withdrawn: bool, expired: bool, keep: Search)
    requires !Served(events, keep).over
    ensures var w := Served(events, keep).writer;
            var h := Served(events + [Rechecked(withdrawn, expired)], keep);
            && (h.over <==> withdrawn || expired)
            && h.writer == w.(out := w.out + [
                 if withdrawn then Notice("your access to this log was withdrawn")
                 else if expired then Notice(TIME_UP)
                 else Keepalive])
  {
    ServedNext(events, Rechecked(withdrawn, expired), keep);
    TimeWords();
  }

  /** The stream's end tells the last drops, shows what is pending, and says that and why the stream ended. */
  lemma EndIsServed(events: seq<Waking>, dropped: int, failure: Option<string>, keep: Search)
    requires !Served(events, keep).over
    ensures var w := Served(events, keep).writer;
            var h := Served(events + [Closed(dropped, failure)], keep);
            && h.over
            && h.writer.out == w.out + GapWords(dropped) + (if w.pending == "" then [] else [Line(w.pending)])
                               + [Notice("the stream ended" + if failure.Some? then ": " + failure.value else "")]
    ensures var h := Served(events + [Left], keep); h.over && h.writer == Served(events, keep).writer
  {
    ServedNext(events, Closed(dropped, failure), keep);
    ServedNext(events, Left, keep);
    GapSaid(Served(events, keep).writer, dropped);
    assert failure.Some? ==> END_NOTICE + ": " + failure.value == "the stream ended" + (": " + failure.value);
    assert "the stream ended" + "" == "the stream ended";
  }

  function Arrivals(chunks: seq<string>): (events: seq<Waking>) {
    if chunks == [] then [] else Arrivals(chunks[..|chunks| - 1]) + [Arrived(chunks[|chunks| - 1], 0)]
  }

  lemma {:induction false} ArrivalsAreWritten(chunks: seq<string>, keep: Search)
    ensures var h := Served(Arrivals(chunks), keep); h.writer == WriteAll(START, chunks, keep) && (h.over <==> h.writer.spent)
  {
    if chunks != [] {
      var front, last := chunks[..|chunks| - 1], chunks[|chunks| - 1];
      ArrivalsAreWritten(front, keep);
      var w := WriteAll(START, front, keep);
      if w.spent {
        FeedSpent(w, last, keep);
        hide Wake;
        NothingAfterTheEnd(Arrivals(front), Arrived(last, 0), keep);
      } else {
        hide Wake, WriteChunk;
        ChunkIsServed(Arrivals(front), last, 0, keep);
        assert w.out + [] == w.out;
      }
    }
  }

  /** What a reader sees of a followed log within its bounds: its matching lines, its unended rest, and its end. */
  lemma FollowerSeesTheLog(chunks: seq<string>, keep: Search, token: string)
    requires IsUnbroken(token)
    requires var s := Concat(chunks); Short(s, 65_536) && |Lines(s)| < 10_000 && TotalLength(Lines(s)) + |Lines(s)| < 4_194_304
    ensures var s := Concat(chunks);
            var h := Served(Arrivals(chunks) + [Closed(0, None)], keep);
            Parsed(Body(h.writer.out, token)) ==
              AllMeant(Kept(Lines(s), keep) + (if Tail(s) == "" then [] else [Line(Tail(s))]) + [Notice("the stream ended")], token)
  {
    UnbrokenIs(token);
    EndOfArrivals(chunks, keep);
    assert END_NOTICE == "the stream ended" && MAX_LINE_BYTES == 65_536 && WithinBounds(Lines(Concat(chunks)));
    hide *;
    ReaderSeesTheLog(chunks, keep, token);
  }

  lemma EndOfArrivals(chunks: seq<string>, keep: Search)
    requires var s := Concat(chunks); Short(s, 65_536) && |Lines(s)| < 10_000 && TotalLength(Lines(s)) + |Lines(s)| < 4_194_304
    ensures Served(Arrivals(chunks) + [Closed(0, None)], keep).writer.out == End(WriteAll(START, chunks, keep), None, true).out
  {
    hide *;
    Unspent(chunks, keep);
    ArrivalsAreWritten(chunks, keep);
    ServedNext(Arrivals(chunks), Closed(0, None), keep);
    ClosesPlainly(Served(Arrivals(chunks), keep), keep);
  }

  lemma ClosesPlainly(h: Serving, keep: Search)
    requires !h.over
    ensures Wake(h, Closed(0, None), keep).writer == End(h.writer, None, true)
  {
    hide End;
  }

  lemma Unspent(chunks: seq<string>, keep: Search)
    requires var s := Concat(chunks); Short(s, 65_536) && |Lines(s)| < 10_000 && TotalLength(Lines(s)) + |Lines(s)| < 4_194_304
    ensures !WriteAll(START, chunks, keep).spent
  {
    ChunkingIsInvisible(chunks, keep);
    BoundsExactly(START, Lines(Concat(chunks)), keep);
    hide WriteAll, Lines, Tail, EmitAll, Short, Kept, Concat;
  }

  // ----- The response that is not followed -----

  /** What each item is in a plain response: a line as it is, the server's words marked with the request's token. */
  function PlainLines(items: seq<Item>, token: string): (lines: seq<string>) {
    if items == [] then []
    else
      (match items[0]
       case Line(text) => [text]
       case Notice(text) => ["--- kyyard " + token + ": " + text + " ---"]
       case Keepalive => []) + PlainLines(items[1..], token)
  }

  predicate ItemsUnbroken(items: seq<Item>) {
    forall i :: 0 <= i < |items| && !items[i].Keepalive? ==> NoBreak(items[i].text)
  }

  /** A plain response of unbroken items, cut at its breaks, is its lines and the server's marked words, in order. */
  lemma {:induction false} PlainReadsAll(items: seq<Item>, token: string)
    requires NoBreak(token) && ItemsUnbroken(items)
    ensures Lines(PlainBody(items, token)) == PlainLines(items, token) && Tail(PlainBody(items, token)) == ""
    decreases |items|
  {
    if items != [] {
      PlainReadsAll(items[1..], token);
      PlainFirst(items[0], PlainBody(items[1..], token), token);
      hide Lines, Tail, Plain;
    }
  }

  lemma PlainFirst(item: Item, rest: string, token: string)
    requires NoBreak(token) && (item.Keepalive? || NoBreak(item.text))
    ensures var first := match item
                         case Line(text) => [text]
                         case Notice(text) => ["--- kyyard " + token + ": " + text + " ---"]
                         case Keepalive => [];
            Lines(Plain(item, token) + rest) == first + Lines(rest) && Tail(Plain(item, token) + rest) == Tail(rest)
  {
    match item
    case Line(text) =>
      StrippedClean(text);
      assert Plain(item, token) + rest == text + [LF] + rest;
      OneLine(text, LF, rest);
    case Notice(text) =>
      var said := "--- kyyard " + token + ": " + text + " ---";
      SaidUnbroken(text, token);
      assert Plain(item, token) + rest == said + [LF] + rest;
      hide Plain, NoBreak;
      OneLine(said, LF, rest);
    case Keepalive =>
      assert Plain(item, token) + rest == rest;
      assert [] + Lines(rest) == Lines(rest);
  }

  lemma SaidUnbroken(text: string, token: string)
    requires NoBreak(token) && NoBreak(text)
    ensures NoBreak("--- kyyard " + token + ": " + text + " ---")
  {
    Marks();
    hide NoBreak;
    Unbroken("--- kyyard ", token);
    Unbroken("--- kyyard " + token, ": ");
    Unbroken("--- kyyard " + token + ": ", text);
    Unbroken("--- kyyard " + token + ": " + text, " ---");
  }

  lemma Marks()
    ensures NoBreak("--- kyyard ") && NoBreak(": ") && NoBreak(" ---")
  {
  }
}
