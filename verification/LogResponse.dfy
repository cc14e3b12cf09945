/** The log writer as the handler drives it: its fields, and the bytes it has put in the response. */
module LogResponse {
  import opened Options
  import opened LineBreaks
  import opened LogLines
  import opened EventStream
  import Text

  /** The response that is not followed: the lines themselves, and the server's words marked apart. */
  function Plain(item: Item, token: string): (s: string) {
    match item
    case Line(text) => Stripped(text) + "\n"
    case Notice(text) => "--- kyyard " + token + ": " + text + " ---\n"
    case Keepalive => ""
  }

  function PlainBody(items: seq<Item>, token: string): (s: string) {
    if items == [] then "" else Plain(items[0], token) + PlainBody(items[1..], token)
  }

  function Response(items: seq<Item>, follow: bool, token: string): (s: string) {
    if follow then Body(items, token) else PlainBody(items, token)
  }

  lemma {:induction false} ResponsePush(items: seq<Item>, item: Item, follow: bool, token: string)
    ensures Response(items + [item], follow, token) ==
            Response(items, follow, token) + if follow then Rendered(item, token) else Plain(item, token)
    decreases |items|
  {
    hide Rendered, Plain;
    var all := items + [item];
    if items == [] {
      assert all == [item] && all[1..] == [];
    } else {
      assert all[1..] == items[1..] + [item];
      ResponsePush(items[1..], item, follow, token);
    }
  }

  lemma PlainCons(text: string, rest: seq<Item>, token: string)
    ensures PlainBody([Line(text)] + rest, token) == Stripped(text) + [LF] + PlainBody(rest, token)
  {
    assert ([Line(text)] + rest)[1..] == rest;
  }

  /** Lines shown in a plain response, with nothing said between them, are the lines of the response. */
  lemma {:induction false} PlainReadsBack(lines: seq<string>, keep: Search, token: string)
    requires forall line :: line in lines ==> NoBreak(line) && keep(line)
    ensures Lines(PlainBody(Kept(lines, keep), token)) == lines
    decreases |lines|
  {
    if lines != [] {
      var first, rest := lines[0], Kept(lines[1..], keep);
      assert first in lines;
      assert Kept(lines, keep) == [Line(first)] + rest;
      PlainReadsBack(lines[1..], keep, token);
      StrippedClean(first);
      hide Lines, Tail, Kept, Stripped;
      PlainCons(first, rest, token);
      OneLine(first, LF, PlainBody(rest, token));
    }
  }

  class LogWriter {
    const follow: bool
    const token: string
    var body: string
    var pending: string
    var afterCR: bool
    var lines: nat
    var bytes: nat
    var spent: bool
    ghost var items: seq<Item>

    /** Once the bounds are spent nothing reads `afterCR` again. */
    ghost function View(): (w: Writer)
      reads this
    {
      Writer(pending, afterCR && !spent, lines, bytes, items, spent)
    }

    ghost predicate Valid()
      reads this
    {
      && body == Response(items, follow, token)
      && |pending| < MAX_LINE_BYTES
      && (afterCR ==> pending == "")
    }

    constructor (follow: bool, token: string)
      ensures Valid() && View() == START && this.follow == follow && this.token == token
    {
      this.follow, this.token := follow, token;
      body, pending, afterCR, lines, bytes, spent := "", "", false, 0, 0, false;
      items := [];
    }

    method WriteLine(text: string)
      requires body == Response(items, follow, token)
      modifies `body, `items
      ensures items == old(items) + [Line(text)] && body == Response(items, follow, token)
    {
      var clean := Stripped(text);
      if follow {
        body := body + ("data: " + clean + "\n\n");
      } else {
        body := body + (clean + "\n");
      }
      ResponsePush(items, Line(text), follow, token);
      items := items + [Line(text)];
    }

    method WriteNotice(text: string)
      requires body == Response(items, follow, token)
      modifies `body, `items
      ensures items == old(items) + [Notice(text)] && body == Response(items, follow, token)
    {
      if follow {
        body := body + ("event: notice\ndata: " + ("[" + token + "] " + text) + "\n\n");
      } else {
        body := body + ("--- kyyard " + token + ": " + text + " ---\n");
      }
      ResponsePush(items, Notice(text), follow, token);
      items := items + [Notice(text)];
    }

    method WriteKeepalive()
      requires Valid()
      modifies `body, `items
      ensures Valid() && items == old(items) + [Keepalive]
    {
      if follow {
        body := body + ": keepalive\n\n";
      }
      ResponsePush(items, Keepalive, follow, token);
      items := items + [Keepalive];
    }

    /** Bytes dropped between what came before and what comes next. */
    method Gap(dropped: int)
      requires Valid()
      modifies `body, `items
      ensures Valid() && View() == SayGap(old(View()), dropped)
    {
      if dropped > 0 {
        WriteNotice(Text.Decimal(dropped) + DROPPED_HERE + DROPPED_WHY);
      }
    }

    /** Writes one line if the search keeps it, and says whether the bounds are spent. */
    method EmitLine(line: string, keep: Search) returns (done: bool)
      requires body == Response(items, follow, token) && !spent
      modifies `body, `items, `lines, `bytes, `spent
      ensures body == Response(items, follow, token)
      ensures var e := Emit(old(View()), line, keep);
              items == e.out && lines == e.lines && bytes == e.bytes && spent == e.spent == done
    {
      lines := lines + 1;
      bytes := bytes + |line| + 1;
      if keep(line) {
        WriteLine(line);
      }
      if lines >= MAX_LOG_LINES || bytes >= MAX_LOG_BYTES {
        WriteNotice(LIMIT_NOTICE);
        spent := true;
      }
      done := spent;
    }

    /** What a chunk ends with: kept for the next, or split off once it is too long. */
    method TakeRest(data: string, keep: Search) returns (done: bool)
      requires Valid() && !spent && !afterCR && NoBreak(data) && data != ""
      modifies this
      ensures Valid() && View() == SplitLong(Feed(old(View()), data, keep), keep)
      ensures done == spent
    {
      hide Feed, Response, NoBreak;
      FeedText(View(), data, keep);
      pending := pending + data;
      if |pending| >= MAX_LINE_BYTES {
        WriteNotice(SPLIT_NOTICE);
        done := EmitLine(pending, keep);
        pending := "";
      } else {
        done := false;
      }
    }

    /** The line up to the next break, and the break: CR LF is one, and a CR at the end waits for its LF. */
    method TakeLine(data: string, keep: Search) returns (rest: string, done: bool)
      requires Valid() && !spent && !afterCR && FirstBreak(data) < |data|
      modifies this
      ensures Valid() && pending == "" && |rest| < |data|
      ensures Feed(View(), rest, keep) == Feed(old(View()), data, keep)
      ensures done == spent
    {
      hide Feed, Response, FirstBreak, NoBreak;
      CutStep(View(), data, keep);
      var cut := FirstBreak(data);
      var line, ended := pending + data[..cut], data[cut];
      rest := data[cut + 1..];
      if ended == CR && rest != "" && rest[0] == LF {
        rest := rest[1..];
      } else if ended == CR {
        afterCR := true;
      }
      assert rest == data[PastBreak(data, cut)..];
      done := EmitLine(line, keep);
      pending := "";
    }

    /** Takes a chunk, emits the lines it completes, and says whether the bounds are spent. */
    method Write(chunk: string, keep: Search) returns (done: bool)
      requires Valid() && !spent
      modifies this
      ensures Valid() && View() == WriteChunk(old(View()), chunk, keep)
      ensures done == spent
    {
      hide Feed, Response, FirstBreak, NoBreak;
      var data := chunk;
      ghost var start := View();
      while data != ""
        invariant Valid() && !spent
        invariant Feed(start, chunk, keep) == Feed(View(), data, keep)
        decreases |data|
      {
        if afterCR {
          ghost var before := View();
          afterCR := false;
          if data[0] == LF {
            SkipLF(before, data, keep);
            data := data[1..];
            continue;
          }
          NotLF(before, data, keep);
        }
        if FirstBreak(data) == |data| {
          assert data[..|data|] == data;
          done := TakeRest(data, keep);
          return;
        }
        data, done := TakeLine(data, keep);
        if done {
          FeedSpent(View(), data, keep);
          return;
        }
      }
      FeedNone(View(), keep);
      done := false;
    }

    /** The last partial line, whatever the search, and why the stream stopped. */
    method Finish(failure: Option<string>)
      requires Valid()
      modifies this
      ensures Valid() && items == End(old(View()), failure, follow).out && pending == ""
    {
      if |pending| > 0 {
        WriteLine(pending);
        pending := "";
      }
      if failure.Some? {
        WriteNotice(END_NOTICE + ": " + failure.value);
      } else if follow {
        WriteNotice(END_NOTICE);
      }
    }
  }

  lemma FeedNone(w: Writer, keep: Search)
    ensures Feed(w, "", keep) == w
  {
  }

  lemma SkipLF(w: Writer, data: string, keep: Search)
    requires !w.spent && w.afterCR && data != "" && data[0] == LF
    ensures Feed(w, data, keep) == Feed(w.(afterCR := false), data[1..], keep)
  {
    hide Feed;
    assert data == [LF] + data[1..];
    FeedAppend(w, [LF], data[1..], keep);
    FeedOne(w, LF, keep);
  }

  lemma NotLF(w: Writer, data: string, keep: Search)
    requires !w.spent && data != "" && data[0] != LF
    ensures Feed(w, data, keep) == Feed(w.(afterCR := false), data, keep)
  {
    hide Feed;
    assert data == [data[0]] + data[1..];
    FeedAppend(w, [data[0]], data[1..], keep);
    FeedAppend(w.(afterCR := false), [data[0]], data[1..], keep);
    FeedOne(w, data[0], keep);
    FeedOne(w.(afterCR := false), data[0], keep);
  }

  /** Reading up to and past a break emits what was pending and the line before the break. */
  lemma CutStep(w: Writer, data: string, keep: Search)
    requires !w.spent && !w.afterCR && FirstBreak(data) < |data|
    ensures var cut := FirstBreak(data);
            var next := PastBreak(data, cut);
            var e := Emit(w, w.pending + data[..cut], keep);
            Feed(w, data, keep) == Feed(e.(afterCR := !e.spent && data[cut] == CR && next == cut + 1), data[next..], keep)
  {
    hide Feed, Emit, FirstBreak, NoBreak;
    var cut := FirstBreak(data);
    var next := PastBreak(data, cut);
    BreakShape(data);
    FeedThree(w, data, cut, next, keep);
    AfterLine(w, data[..cut], data[cut..next], keep);
  }
}
