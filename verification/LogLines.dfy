/**
 How a log stream's chunks become lines. The writer is described one byte at a time; a chunk's end
 matters only for a line that has grown too long.
 */
module LogLines {
  import opened Options
  import opened LineBreaks

  const MAX_LINE_BYTES: nat := 65536
  const MAX_LOG_LINES: nat := 10000
  const MAX_LOG_BYTES: nat := 4194304
  const SPLIT_NOTICE: string := "a line longer than 65536 bytes was split"
  const LIMIT_REACHED: string := "this request reached its limit of "
  const LIMIT_BOUNDS: string := "10000 lines or 4194304 bytes; "
  const LIMIT_ADVICE: string := "ask for a narrower window to see more"
  const LIMIT_NOTICE: string := LIMIT_REACHED + LIMIT_BOUNDS + LIMIT_ADVICE
  const END_NOTICE: string := "the stream ended"

  /** What the response carries: a line the container printed, something the server says, or a comment. */
  datatype Item = Line(text: string) | Notice(text: string) | Keepalive

  /** `spent` is the request having reached its bounds, after which nothing is read. */
  datatype Writer = Writer(pending: string, afterCR: bool, lines: nat, bytes: nat, out: seq<Item>, spent: bool)

  const START: Writer := Writer("", false, 0, 0, [], false)

  /** The search: which lines are shown. Matching is the caller's. */
  type Search = string -> bool

  function Emit(w: Writer, line: string, keep: Search): (w': Writer) {
    var out := w.out + (if keep(line) then [Line(line)] else []);
    var lines, bytes := w.lines + 1, w.bytes + |line| + 1;
    var spent := lines >= MAX_LOG_LINES || bytes >= MAX_LOG_BYTES;
    Writer("", false, lines, bytes, if spent then out + [Notice(LIMIT_NOTICE)] else out, spent)
  }

  function Byte(w: Writer, b: char, keep: Search): (w': Writer) {
    if w.spent then w
    else if b == LF && w.afterCR then w.(afterCR := false)
    else if IsBreak(b) then
      var e := Emit(w, w.pending, keep);
      e.(afterCR := !e.spent && b == CR)
    else w.(pending := w.pending + [b], afterCR := false)
  }

  function Feed(w: Writer, data: string, keep: Search): (w': Writer) {
    if data == "" then w else Byte(Feed(w, data[..|data| - 1], keep), data[|data| - 1], keep)
  }

  function SplitLong(w: Writer, keep: Search): (w': Writer) {
    if !w.spent && |w.pending| >= MAX_LINE_BYTES then Emit(w.(out := w.out + [Notice(SPLIT_NOTICE)]), w.pending, keep)
    else w
  }

  function WriteChunk(w: Writer, data: string, keep: Search): (w': Writer) {
    SplitLong(Feed(w, data, keep), keep)
  }

  function WriteAll(w: Writer, chunks: seq<string>, keep: Search): (w': Writer) {
    if chunks == [] then w
    else WriteChunk(WriteAll(w, chunks[..|chunks| - 1], keep), chunks[|chunks| - 1], keep)
  }

  /** The last partial line goes out whatever the search; then why the stream stopped, if it failed or was followed. */
  function End(w: Writer, failure: Option<string>, follow: bool): (w': Writer) {
    var last := if w.pending == "" then [] else [Line(w.pending)];
    var why := if failure.Some? then [Notice(END_NOTICE + ": " + failure.value)] else if follow then [Notice(END_NOTICE)] else [];
    w.(pending := "", out := w.out + last + why)
  }

  function Concat(chunks: seq<string>): (s: string) {
    if chunks == [] then "" else Concat(chunks[..|chunks| - 1]) + chunks[|chunks| - 1]
  }

  // ----- Bytes in a row -----

  lemma {:induction false} FeedAppend(w: Writer, a: string, b: string, keep: Search)
    ensures Feed(w, a + b, keep) == Feed(Feed(w, a, keep), b, keep)
  {
    hide Byte;
    if b == "" {
      assert a + b == a;
    } else {
      var s := a + b;
      assert s[..|s| - 1] == a + b[..|b| - 1];
      FeedAppend(w, a, b[..|b| - 1], keep);
    }
  }

  lemma {:induction false} FeedSpent(w: Writer, s: string, keep: Search)
    requires w.spent
    ensures Feed(w, s, keep) == w
  {
    if s != "" {
      FeedSpent(w, s[..|s| - 1], keep);
    }
  }

  lemma {:induction false} FeedText(w: Writer, s: string, keep: Search)
    requires NoBreak(s) && !w.spent
    ensures Feed(w, s, keep) == w.(pending := w.pending + s, afterCR := w.afterCR && s == "")
  {
    if s == "" {
      assert w.pending + s == w.pending;
    } else {
      FeedText(w, s[..|s| - 1], keep);
      assert s == s[..|s| - 1] + [s[|s| - 1]];
      assert w.pending + s == (w.pending + s[..|s| - 1]) + [s[|s| - 1]];
    }
  }

  /** LF, CR, or CR LF. */
  predicate OneBreak(brk: string) {
    (|brk| == 1 && IsBreak(brk[0])) || (|brk| == 2 && brk[0] == CR && brk[1] == LF)
  }

  predicate LoneCR(brk: string) {
    |brk| == 1 && brk[0] == CR
  }

  /** The break that ends a line emits it, and a lone CR waits for the LF that may complete it. */
  lemma FeedBreak(w: Writer, brk: string, keep: Search)
    requires !w.spent && OneBreak(brk)
    requires w.afterCR ==> brk[0] == CR
    ensures var e := Emit(w, w.pending, keep); Feed(w, brk, keep) == e.(afterCR := !e.spent && LoneCR(brk))
  {
    hide Emit, Feed;
    FeedOne(w, brk[0], keep);
    if |brk| == 1 {
      assert brk == [brk[0]];
    } else {
      assert brk == [CR] + [LF];
      FeedAppend(w, [CR], [LF], keep);
      FeedOne(Feed(w, [CR], keep), LF, keep);
    }
  }

  lemma FeedOne(w: Writer, b: char, keep: Search)
    ensures Feed(w, [b], keep) == Byte(w, b, keep)
  {
    assert [b][..0] == "";
    assert Feed(w, [b][..0], keep) == w;
  }

  // ----- The whole stream at once -----

  function EmitAll(w: Writer, lines: seq<string>, keep: Search): (w': Writer)
    decreases |lines|
  {
    if lines == [] || w.spent then w else EmitAll(Emit(w, lines[0], keep), lines[1..], keep)
  }

  /** Cut the text at its breaks and emit the lines in order; what follows the last break is pending. */
  function Whole(w: Writer, s: string, keep: Search): (w': Writer) {
    var r := EmitAll(w, Lines(s), keep);
    if r.spent then r else r.(pending := Tail(s))
  }

  /** Reading byte by byte is cutting the whole text at LF, CR and CR LF. */
  lemma {:induction false} FeedIsWhole(w: Writer, s: string, keep: Search)
    requires !w.spent && w.pending == "" && (w.afterCR ==> s == "" || s[0] != LF)
    ensures Feed(w, s, keep).(afterCR := false) == Whole(w.(afterCR := false), s, keep)
    decreases |s|
  {
    var cut := FirstBreak(s);
    if cut == |s| {
      assert s[..cut] == s;
      FeedText(w, s, keep);
    } else {
      hide *;
      var next := PastBreak(s, cut);
      var w2 := Feed(Feed(w, s[..cut], keep), s[cut..next], keep);
      FeedThree(w, s, cut, next, keep);
      BreakShape(s);
      AfterLine(w, s[..cut], s[cut..next], keep);
      assert w.pending + s[..cut] == s[..cut];
      EmitFirst(w.(afterCR := false), s, keep);
      SameEmit(w, s[..cut], keep);
      if w2.spent {
        FeedSpent(w2, s[next..], keep);
      } else {
        FeedIsWhole(w2, s[next..], keep);
      }
    }
  }

  lemma FeedThree(w: Writer, s: string, i: nat, j: nat, keep: Search)
    requires i <= j <= |s|
    ensures Feed(w, s, keep) == Feed(Feed(Feed(w, s[..i], keep), s[i..j], keep), s[j..], keep)
  {
    hide Feed;
    assert s == s[..i] + (s[i..j] + s[j..]);
    FeedAppend(w, s[..i], s[i..j] + s[j..], keep);
    FeedAppend(Feed(w, s[..i], keep), s[i..j], s[j..], keep);
  }

  lemma SameEmit(w: Writer, line: string, keep: Search)
    ensures var e := Emit(w, line, keep);
            Emit(w.(afterCR := false), line, keep) == e == e.(afterCR := false) && e.pending == "" && !e.afterCR
  {
  }

  lemma AfterLine(w: Writer, line: string, brk: string, keep: Search)
    requires !w.spent && NoBreak(line)
    requires OneBreak(brk) && (w.afterCR && line == "" ==> brk[0] == CR)
    ensures var e := Emit(w, w.pending + line, keep);
            Feed(Feed(w, line, keep), brk, keep) == e.(afterCR := !e.spent && LoneCR(brk))
  {
    hide Feed, NoBreak, OneBreak;
    FeedText(w, line, keep);
    FeedBreak(Feed(w, line, keep), brk, keep);
  }

  lemma BreakShape(s: string)
    requires FirstBreak(s) < |s|
    ensures var cut := FirstBreak(s);
            var next := PastBreak(s, cut);
            var brk := s[cut..next];
            && NoBreak(s[..cut]) && OneBreak(brk) && (s[..cut] == "" ==> s[0] == brk[0])
            && (LoneCR(brk) ==> s[next..] == "" || s[next..][0] != LF)
  {
    var cut := FirstBreak(s);
    hide FirstBreak, NoBreak;
    var next := PastBreak(s, cut);
    var brk := s[cut..next];
    assert brk[0] == s[cut] && (next == cut + 2 ==> brk[1] == s[cut + 1]);
  }

  lemma EmitCons(w: Writer, line: string, rest: seq<string>, keep: Search)
    requires !w.spent
    ensures var e := Emit(w, line, keep);
            EmitAll(w, [line] + rest, keep) == if e.spent then e else EmitAll(e, rest, keep)
  {
    hide Emit;
    assert ([line] + rest)[1..] == rest;
  }

  lemma EmitFirst(w: Writer, s: string, keep: Search)
    requires !w.spent && FirstBreak(s) < |s|
    ensures var e := Emit(w, s[..FirstBreak(s)], keep);
            Whole(w, s, keep) == if e.spent then e else Whole(e, s[PastBreak(s, FirstBreak(s))..], keep)
  {
    hide Emit, EmitAll, Lines, Tail, FirstBreak, PastBreak, NoBreak;
    var cut := FirstBreak(s);
    CutAt(s, cut);
    EmitCons(w, s[..cut], Lines(s[PastBreak(s, cut)..]), keep);
  }

  /** When no line is too long, cutting into chunks makes no difference. */
  lemma {:induction false} ChunksAreFeed(chunks: seq<string>, more: string, keep: Search)
    requires Short(Concat(chunks) + more, MAX_LINE_BYTES)
    ensures WriteAll(START, chunks, keep) == Feed(START, Concat(chunks), keep)
  {
    hide *;
    LastChunk(chunks, more, keep);
    if chunks != [] {
      var before, last := chunks[..|chunks| - 1], chunks[|chunks| - 1];
      ChunksAreFeed(before, last + more, keep);
      FeedAppend(START, Concat(before), last, keep);
      NoSplit(Concat(chunks), more, keep);
    }
  }

  lemma LastChunk(chunks: seq<string>, more: string, keep: Search)
    ensures chunks == [] ==> WriteAll(START, chunks, keep) == Feed(START, Concat(chunks), keep)
    ensures chunks != [] ==>
              var before, last := chunks[..|chunks| - 1], chunks[|chunks| - 1];
              && Concat(chunks) == Concat(before) + last
              && Concat(before) + (last + more) == Concat(chunks) + more
              && WriteAll(START, chunks, keep) == SplitLong(Feed(WriteAll(START, before, keep), last, keep), keep)
  {
  }

  lemma NoSplit(s: string, more: string, keep: Search)
    requires Short(s + more, MAX_LINE_BYTES)
    ensures SplitLong(Feed(START, s, keep), keep) == Feed(START, s, keep)
  {
    hide Feed, Short, Lines, Tail, EmitAll, Emit;
    FeedIsWhole(START, s, keep);
    PrefixIsShort(s, more, MAX_LINE_BYTES);
  }

  /**
   For any cutting of a stream with no over-long line into chunks, what the request has emitted is
   the stream's lines in order up to its bounds, and what is pending is what follows the last break.
   */
  lemma ChunkingIsInvisible(chunks: seq<string>, keep: Search)
    requires Short(Concat(chunks), MAX_LINE_BYTES)
    ensures WriteAll(START, chunks, keep).(afterCR := false) == Whole(START, Concat(chunks), keep)
  {
    assert Concat(chunks) + "" == Concat(chunks);
    ChunksAreFeed(chunks, "", keep);
    FeedIsWhole(START, Concat(chunks), keep);
  }

  // ----- The bounds -----

  predicate WithinBounds(lines: seq<string>) {
    |lines| < MAX_LOG_LINES && TotalLength(lines) + |lines| < MAX_LOG_BYTES
  }

  function Kept(lines: seq<string>, keep: Search): (items: seq<Item>) {
    if lines == [] then []
    else (if keep(lines[0]) then [Line(lines[0])] else []) + Kept(lines[1..], keep)
  }

  /** The bounds are counted on every line, shown or not, and are spent exactly when the lines exceed them. */
  lemma {:induction false} BoundsExactly(w: Writer, lines: seq<string>, keep: Search)
    requires !w.spent && w.lines < MAX_LOG_LINES && w.bytes < MAX_LOG_BYTES
    ensures var r := EmitAll(w, lines, keep);
            var fits := w.lines + |lines| < MAX_LOG_LINES && w.bytes + TotalLength(lines) + |lines| < MAX_LOG_BYTES;
            && (r.spent <==> !fits)
            && (fits ==> r.out == w.out + Kept(lines, keep))
    decreases |lines|
  {
    if lines != [] {
      var e := Emit(w, lines[0], keep);
      if !e.spent {
        BoundsExactly(e, lines[1..], keep);
        var head := if keep(lines[0]) then [Line(lines[0])] else [];
        assert w.out + Kept(lines, keep) == (w.out + head) + Kept(lines[1..], keep);
      }
    }
  }

  /**
   A stream within the bounds, however it was cut into chunks, ends as its lines that match, then
   the unended rest even if it does not match, then why the stream stopped.
   */
  lemma StreamIsItsLines(chunks: seq<string>, keep: Search, failure: Option<string>, follow: bool)
    requires var s := Concat(chunks); Short(s, MAX_LINE_BYTES) && WithinBounds(Lines(s))
    ensures var s := Concat(chunks);
            var rest := if Tail(s) == "" then [] else [Line(Tail(s))];
            var why := if failure.Some? then [Notice(END_NOTICE + ": " + failure.value)] else if follow then [Notice(END_NOTICE)] else [];
            End(WriteAll(START, chunks, keep), failure, follow).out == Kept(Lines(s), keep) + rest + why
  {
    var s := Concat(chunks);
    ChunkingIsInvisible(chunks, keep);
    BoundsExactly(START, Lines(s), keep);
    hide WriteAll, Kept, Lines, Tail, EmitAll, Short;
    assert [] + Kept(Lines(s), keep) == Kept(Lines(s), keep);
  }

  predicate Nothing(s: string) {
    false
  }

  /** A search that matches nothing still shows a line the container did not end. */
  lemma UnendedLineIsShown()
    ensures End(WriteAll(START, ["a", "b"], Nothing), None, false).out == [Line("ab")]
  {
    AbIsUnended();
    hide WriteAll, Concat, Lines, Tail, Kept;
    StreamIsItsLines(["a", "b"], Nothing, None, false);
  }

  lemma AbIsUnended()
    ensures var s := Concat(["a", "b"]); s == "ab" && Lines(s) == [] && Tail(s) == "ab" && WithinBounds(Lines(s)) && Kept(Lines(s), Nothing) == []
  {
    assert ["a", "b"][..1] == ["a"] && ["a"][..0] == [];
    assert Concat(["a"][..0]) == "";
    assert Concat(["a"]) == "a";
    FirstBreakIs("ab", 2);
  }

  // ----- Nothing lost, whatever the lengths -----

  function Texts(out: seq<Item>): (s: string) {
    if out == [] then ""
    else Texts(out[..|out| - 1]) + (if out[|out| - 1].Line? then out[|out| - 1].text else "")
  }

  ghost predicate Accounted(w: Writer, read: string) {
    if w.spent then Texts(w.out) <= Stripped(read) else Texts(w.out) + w.pending == Stripped(read)
  }

  lemma TextsPush(out: seq<Item>, item: Item)
    ensures Texts(out + [item]) == Texts(out) + if item.Line? then item.text else ""
  {
    assert (out + [item])[..|out|] == out;
  }

  lemma EmitAccounts(w: Writer, line: string)
    ensures Texts(Emit(w, line, Any).out) == Texts(w.out) + line
  {
    TextsPush(w.out, Line(line));
    TextsPush(w.out + [Line(line)], Notice(LIMIT_NOTICE));
  }

  predicate Any(s: string) {
    true
  }

  lemma ByteAccounts(w: Writer, b: char, read: string)
    requires Accounted(w, read)
    ensures Accounted(Byte(w, b, Any), read + [b])
  {
    StrippedAppend(read, [b]);
    assert Stripped([b]) == if IsBreak(b) then "" else [b] by { assert [b][1..] == ""; }
    EmitAccounts(w, w.pending);
    hide Texts, Emit, Stripped;
  }

  lemma {:induction false} FeedAccounts(w: Writer, s: string, read: string)
    requires Accounted(w, read)
    ensures Accounted(Feed(w, s, Any), read + s)
  {
    hide Accounted, Byte;
    if s == "" {
      assert read + s == read;
    } else {
      var before := s[..|s| - 1];
      FeedAccounts(w, before, read);
      ByteAccounts(Feed(w, before, Any), s[|s| - 1], read + before);
      assert read + before + [s[|s| - 1]] == read + s;
    }
  }

  lemma SplitAccounts(w: Writer, read: string)
    requires Accounted(w, read)
    ensures Accounted(SplitLong(w, Any), read)
    ensures !SplitLong(w, Any).spent ==> |SplitLong(w, Any).pending| < MAX_LINE_BYTES
  {
    TextsPush(w.out, Notice(SPLIT_NOTICE));
    EmitAccounts(w.(out := w.out + [Notice(SPLIT_NOTICE)]), w.pending);
    hide Texts, Stripped;
  }

  /**
   With no assumption on lengths: every shown text and what is pending, one after the other, are the
   bytes read without their breaks (a prefix of them once the bounds are spent), and what is
   pending between chunks is shorter than the longest line allowed.
   */
  lemma {:induction false} NothingLost(chunks: seq<string>)
    ensures var w := WriteAll(START, chunks, Any);
            && (w.spent ==> Texts(w.out) <= Stripped(Concat(chunks)))
            && (!w.spent ==> Texts(w.out) + w.pending == Stripped(Concat(chunks)) && |w.pending| < MAX_LINE_BYTES)
  {
    if chunks != [] {
      var before, last := chunks[..|chunks| - 1], chunks[|chunks| - 1];
      NothingLost(before);
      FeedAccounts(WriteAll(START, before, Any), last, Concat(before));
      SplitAccounts(Feed(WriteAll(START, before, Any), last, Any), Concat(chunks));
      hide Texts, Stripped, SplitLong;
    }
  }

  // ----- Searching only hides lines -----

  function Shown(out: seq<Item>, keep: Search): (shown: seq<Item>) {
    if out == [] then []
    else
      var last := out[|out| - 1];
      Shown(out[..|out| - 1], keep) + if last.Line? && !keep(last.text) then [] else [last]
  }

  ghost predicate Hides(w: Writer, all: Writer, keep: Search) {
    w == all.(out := Shown(all.out, keep))
  }

  lemma ShownPush(out: seq<Item>, item: Item, keep: Search)
    ensures Shown(out + [item], keep) == Shown(out, keep) + if item.Line? && !keep(item.text) then [] else [item]
  {
    assert (out + [item])[..|out|] == out;
  }

  lemma EmitHides(w: Writer, all: Writer, line: string, keep: Search)
    requires Hides(w, all, keep)
    ensures Hides(Emit(w, line, keep), Emit(all, line, Any), keep)
  {
    ShownPush(all.out, Line(line), keep);
    ShownPush(all.out + [Line(line)], Notice(LIMIT_NOTICE), keep);
    hide Shown;
  }

  lemma {:induction false} FeedHides(w: Writer, all: Writer, s: string, keep: Search)
    requires Hides(w, all, keep)
    ensures Hides(Feed(w, s, keep), Feed(all, s, Any), keep)
  {
    hide Shown, Emit;
    if s != "" {
      var before := s[..|s| - 1];
      FeedHides(w, all, before, keep);
      EmitHides(Feed(w, before, keep), Feed(all, before, Any), Feed(w, before, keep).pending, keep);
    }
  }

  lemma SplitHides(w: Writer, all: Writer, keep: Search)
    requires Hides(w, all, keep)
    ensures Hides(SplitLong(w, keep), SplitLong(all, Any), keep)
  {
    hide Shown, Emit;
    ShownPush(all.out, Notice(SPLIT_NOTICE), keep);
    EmitHides(w.(out := w.out + [Notice(SPLIT_NOTICE)]), all.(out := all.out + [Notice(SPLIT_NOTICE)]), w.pending, keep);
  }

  /** A search hides lines and changes nothing else: not what is read, nor what it costs, nor any notice. */
  lemma {:induction false} SearchOnlyHides(chunks: seq<string>, keep: Search)
    ensures var w, all := WriteAll(START, chunks, keep), WriteAll(START, chunks, Any);
            w == all.(out := Shown(all.out, keep))
  {
    hide Shown, Feed, SplitLong;
    if chunks == [] {
      assert Shown([], keep) == [] by { NothingShown(keep); }
    } else {
      var before, last := chunks[..|chunks| - 1], chunks[|chunks| - 1];
      SearchOnlyHides(before, keep);
      var w, all := WriteAll(START, before, keep), WriteAll(START, before, Any);
      FeedHides(w, all, last, keep);
      SplitHides(Feed(w, last, keep), Feed(all, last, Any), keep);
    }
  }

  lemma NothingShown(keep: Search)
    ensures Shown([], keep) == []
  {
  }
}
