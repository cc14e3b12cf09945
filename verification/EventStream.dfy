/**
 The following response as an event stream, and the reader's side of it: the parser of sections
 9.2.5 and 9.2.6 of the WHATWG HTML Standard, on a stream with no byte order mark.
 */
module EventStream {
  import opened Options
  import opened LineBreaks
  import opened LogLines
  import opened Text

  // ----- What the server writes -----

  function Label(token: string, text: string): (s: string) {
    "[" + token + "] " + text
  }

  function Rendered(item: Item, token: string): (s: string) {
    match item
    case Line(text) => "data: " + Stripped(text) + "\n\n"
    case Notice(text) => "event: notice\ndata: " + Label(token, text) + "\n\n"
    case Keepalive => ": keepalive\n\n"
  }

  function Body(items: seq<Item>, token: string): (s: string) {
    if items == [] then "" else Rendered(items[0], token) + Body(items[1..], token)
  }

  // ----- What the reader makes of it -----

  datatype Event = Event(kind: string, data: string)

  /** The event type and data buffers, and the events dispatched. */
  datatype Reader = Reader(kind: string, data: string, events: seq<Event>)

  const FRESH: Reader := Reader("", "", [])

  function Colon(line: string): (at: nat)
    ensures at <= |line|
  {
    if line == "" || line[0] == ':' then 0 else 1 + Colon(line[1..])
  }

  function Value(line: string): (v: string)
    ensures |v| + Colon(line) < |line| || v == ""
  {
    var at := Colon(line);
    if at == |line| then ""
    else if at + 1 < |line| && line[at + 1] == ' ' then line[at + 2..]
    else line[at + 1..]
  }

  /** A field the reader keeps: `id` and `retry` change neither buffer. */
  function Field(r: Reader, name: string, value: string): (r': Reader) {
    if name == "event" then r.(kind := value)
    else if name == "data" then r.(data := r.data + value + "\n")
    else r
  }

  function Dispatch(r: Reader): (r': Reader) {
    if r.data == "" then Reader("", "", r.events)
    else Reader("", "", r.events + [Event(if r.kind == "" then "message" else r.kind, r.data[..|r.data| - 1])])
  }

  function ReadLine(r: Reader, line: string): (r': Reader) {
    if line == "" then Dispatch(r)
    else if line[0] == ':' then r
    else Field(r, line[..Colon(line)], Value(line))
  }

  function ReadLines(r: Reader, lines: seq<string>): (r': Reader)
    decreases |lines|
  {
    if lines == [] then r else ReadLines(ReadLine(r, lines[0]), lines[1..])
  }

  /** An event not ended by a blank line is dropped with the end of the stream. */
  function Parsed(s: string): (events: seq<Event>) {
    ReadLines(FRESH, Lines(s)).events
  }

  // ----- What the reader should see -----

  function Meant(item: Item, token: string): (events: seq<Event>) {
    match item
    case Line(text) => [Event("message", Stripped(text))]
    case Notice(text) => [Event("notice", Label(token, text))]
    case Keepalive => []
  }

  function AllMeant(items: seq<Item>, token: string): (events: seq<Event>) {
    if items == [] then [] else Meant(items[0], token) + AllMeant(items[1..], token)
  }

  // ----- Reading is compositional -----

  lemma {:induction false} ReadAppend(r: Reader, a: seq<string>, b: seq<string>)
    ensures ReadLines(r, a + b) == ReadLines(ReadLines(r, a), b)
    decreases |a|
  {
    hide ReadLine;
    if a == [] {
      assert a + b == b;
    } else {
      assert (a + b)[1..] == a[1..] + b;
      ReadAppend(ReadLine(r, a[0]), a[1..], b);
    }
  }

  /** A reader with more behind it reads on the same way. */
  lemma {:induction false} EarlierEventsStay(r: Reader, lines: seq<string>, earlier: seq<Event>)
    ensures var r' := ReadLines(r, lines);
            ReadLines(r.(events := earlier + r.events), lines) == r'.(events := earlier + r'.events)
    decreases |lines|
  {
    if lines != [] {
      OneLineStays(r, lines[0], earlier);
      hide ReadLine;
      EarlierEventsStay(ReadLine(r, lines[0]), lines[1..], earlier);
    }
  }

  lemma OneLineStays(r: Reader, line: string, earlier: seq<Event>)
    ensures var r' := ReadLine(r, line);
            ReadLine(r.(events := earlier + r.events), line) == r'.(events := earlier + r'.events)
  {
    if line == "" && r.data != "" {
      var e := Event(if r.kind == "" then "message" else r.kind, r.data[..|r.data| - 1]);
      assert earlier + (r.events + [e]) == (earlier + r.events) + [e];
    }
  }

  // ----- Lines the server writes -----

  lemma {:induction false} ColonIs(line: string, at: nat)
    requires at < |line| && line[at] == ':' && forall i :: 0 <= i < at ==> line[i] != ':'
    ensures Colon(line) == at
  {
    if at > 0 {
      ColonIs(line[1..], at - 1);
    }
  }

  lemma FieldLine(r: Reader, name: string, value: string)
    requires name != "" && ':' !in name
    ensures ReadLine(r, name + ": " + value) == Field(r, name, value)
  {
    hide Field;
    var line := name + ": " + value;
    ColonIs(line, |name|);
    assert line[..|name|] == name && line[|name| + 2..] == value;
  }

  lemma ReadCons(r: Reader, line: string, rest: seq<string>)
    ensures ReadLines(r, [line] + rest) == ReadLines(ReadLine(r, line), rest)
  {
    hide ReadLine;
    assert ([line] + rest)[1..] == rest;
  }

  lemma ReadNone(r: Reader)
    ensures ReadLines(r, []) == r
  {
  }

  /** A line of its own in front of more. */
  lemma LineThen(r: Reader, line: string, rest: string)
    requires NoBreak(line)
    ensures ReadLines(r, Lines(line + "\n" + rest)) == ReadLines(ReadLine(r, line), Lines(rest))
  {
    hide ReadLine, ReadLines, Lines, NoBreak, Tail;
    OneLine(line, LF, rest);
    ReadCons(r, line, Lines(rest));
  }

  lemma BlankEnds(r: Reader)
    ensures ReadLines(r, Lines("\n")) == Dispatch(r)
  {
    hide Dispatch, ReadLines, Lines, Tail;
    assert "" + "\n" + "" == "\n";
    LineThen(r, "", "");
    NoLines();
    ReadNone(ReadLine(r, ""));
  }

  lemma NoLines()
    ensures Lines("") == []
  {
  }

  /** A line and the blank one that ends its event. */
  lemma LastLine(r: Reader, line: string)
    requires NoBreak(line)
    ensures ReadLines(r, Lines(line + "\n\n")) == Dispatch(ReadLine(r, line))
  {
    hide Dispatch, ReadLine, ReadLines, Lines, NoBreak;
    assert line + "\n" + "\n" == line + "\n\n";
    LineThen(r, line, "\n");
    BlankEnds(ReadLine(r, line));
  }

  // ----- One item -----

  /** A notice is clean when nothing in it ends its line. A line the container printed always is. */
  predicate Clean(item: Item, token: string) {
    item.Notice? ==> NoBreak(Label(token, item.text))
  }

  lemma LineItem(text: string, token: string)
    ensures ReadLines(FRESH, Lines(Rendered(Line(text), token))) == Reader("", "", Meant(Line(text), token))
  {
    hide Lines, ReadLines, ReadLine, Stripped;
    var t := Stripped(text);
    assert "data: " + t == "data" + ": " + t;
    LastLine(FRESH, "data: " + t);
    FieldLine(FRESH, "data", t);
    assert ("" + t + "\n")[..|t|] == t;
  }

  lemma NoticeStarts(text: string, token: string)
    ensures ReadLines(FRESH, Lines(Rendered(Notice(text), token))) ==
            ReadLines(Reader("notice", "", []), Lines("data: " + Label(token, text) + "\n\n"))
  {
    hide Lines, ReadLines, ReadLine, Label;
    var rest := "data: " + Label(token, text) + "\n\n";
    assert Rendered(Notice(text), token) == "event: notice" + "\n" + rest;
    LineThen(FRESH, "event: notice", rest);
    assert "event: notice" == "event" + ": " + "notice";
    FieldLine(FRESH, "event", "notice");
  }

  lemma NoticeItem(text: string, token: string)
    requires NoBreak(Label(token, text))
    ensures ReadLines(FRESH, Lines(Rendered(Notice(text), token))) == Reader("", "", Meant(Notice(text), token))
  {
    hide Lines, ReadLines, ReadLine, Label;
    NoticeStarts(text, token);
    var x := Label(token, text);
    var r := Reader("notice", "", []);
    assert "data: " + x == "data" + ": " + x;
    LastLine(r, "data: " + x);
    FieldLine(r, "data", x);
    assert ("" + x + "\n")[..|x|] == x;
  }

  lemma KeepaliveItem(token: string)
    ensures ReadLines(FRESH, Lines(Rendered(Keepalive, token))) == FRESH
  {
    hide Lines, ReadLines;
    assert ": keepalive" + "\n\n" == Rendered(Keepalive, token);
    LastLine(FRESH, ": keepalive");
    assert ReadLine(FRESH, ": keepalive") == FRESH;
  }

  /** Whatever an item holds, its blank line leaves both buffers empty for the next. */
  lemma ItemEnds(item: Item, token: string)
    ensures var s := Rendered(item, token); s != "" && s[|s| - 1] == LF
    ensures var r := ReadLines(FRESH, Lines(Rendered(item, token))); r.kind == "" && r.data == ""
  {
    hide Lines, ReadLines, ReadLine, Label, Stripped;
    var head := match item
      case Line(text) => "data: " + Stripped(text)
      case Notice(text) => "event: notice\ndata: " + Label(token, text)
      case Keepalive => ": keepalive";
    assert Rendered(item, token) == (head + "\n") + "\n";
    LinesAppend(head + "\n", "\n");
    ReadAppend(FRESH, Lines(head + "\n"), Lines("\n"));
    BlankEnds(ReadLines(FRESH, Lines(head + "\n")));
  }

  /** The response is read item by item. */
  lemma BodyStep(item: Item, rest: string, token: string)
    ensures Parsed(Rendered(item, token) + rest) == Parsed(Rendered(item, token)) + Parsed(rest)
  {
    hide Lines, ReadLines, Rendered;
    var s := Rendered(item, token);
    ItemEnds(item, token);
    LinesAppend(s, rest);
    ReadAppend(FRESH, Lines(s), Lines(rest));
    var r := ReadLines(FRESH, Lines(s));
    EarlierEventsStay(FRESH, Lines(rest), r.events);
    assert r.events + [] == r.events;
  }

  // ----- A notice that is not clean -----

  function Weight(events: seq<Event>): (n: nat) {
    if events == [] then 0 else Weight(events[..|events| - 1]) + |events[|events| - 1].data| + 1
  }

  lemma WeightPush(events: seq<Event>, e: Event)
    ensures Weight(events + [e]) == Weight(events) + |e.data| + 1
  {
    assert (events + [e])[..|events|] == events;
  }

  lemma {:induction false} WeightAppend(a: seq<Event>, b: seq<Event>)
    ensures Weight(a + b) == Weight(a) + Weight(b)
  {
    if b == [] {
      assert a + b == a;
    } else {
      assert (a + b)[..|a + b| - 1] == a + b[..|b| - 1];
      WeightAppend(a, b[..|b| - 1]);
    }
  }

  function Excess(n: nat): (m: nat) {
    if n <= 3 then 0 else n - 3
  }

  lemma LineGrows(r: Reader, line: string)
    ensures var r' := ReadLine(r, line); Weight(r'.events) + |r'.data| <= Weight(r.events) + |r.data| + Excess(|line|)
  {
    if line == "" && r.data != "" {
      WeightPush(r.events, Event(if r.kind == "" then "message" else r.kind, r.data[..|r.data| - 1]));
    } else if line != "" && line[0] != ':' && line[..Colon(line)] == "data" {
      assert Colon(line) == 4;
    }
  }

  /** The field name costs more than the data line feed adds, so reading never gains on what was written. */
  lemma {:induction false} LinesGrow(r: Reader, lines: seq<string>)
    ensures var r' := ReadLines(r, lines);
            Weight(r'.events) + |r'.data| <= Weight(r.events) + |r.data| + Excess(TotalLength(lines))
    decreases |lines|
  {
    hide ReadLine, Weight;
    if lines != [] {
      LineGrows(r, lines[0]);
      LinesGrow(ReadLine(r, lines[0]), lines[1..]);
    }
  }

  lemma BrokenNoticeWeighsLess(text: string, token: string)
    requires !NoBreak(Label(token, text))
    ensures Weight(Parsed(Rendered(Notice(text), token))) < |Label(token, text)| + 1
  {
    hide Lines, ReadLines, ReadLine, Label, Weight;
    NoticeStarts(text, token);
    var x := Label(token, text);
    BrokenDataWeighsLess(Reader("notice", "", []), x);
  }

  lemma BrokenDataWeighsLess(r: Reader, x: string)
    requires !NoBreak(x) && r.data == "" && r.events == []
    ensures Weight(ReadLines(r, Lines("data: " + x + "\n\n")).events) < |x| + 1
  {
    hide *;
    var front, rest := BrokenData(x);
    var line := "data: " + front;
    ReadCons(r, line, rest);
    assert line == "data" + ": " + front;
    FieldLine(r, "data", front);
    LinesGrow(ReadLine(r, line), rest);
    FirstData(r, front, |x| - |front|, TotalLength(rest));
  }

  lemma FirstData(r: Reader, front: string, more: nat, total: nat)
    requires r.data == "" && r.events == [] && total <= more + 1 && more > 0
    ensures var r' := Field(r, "data", front); Weight(r'.events) + |r'.data| + Excess(total) < |front| + more + 1
  {
  }

  /** The line the break cuts short, and how little is left for the lines after it. */
  lemma BrokenData(x: string) returns (front: string, rest: seq<string>)
    requires !NoBreak(x)
    ensures |front| < |x| && Lines("data: " + x + "\n\n") == ["data: " + front] + rest
    ensures TotalLength(rest) <= |x| - |front| + 1
  {
    var cut := FirstBreak(x);
    assert x[..|x|] == x;
    front := x[..cut];
    var s := "data: " + x + "\n\n";
    assert s[..cut + 6] == "data: " + front && s[cut + 6] == x[cut];
    assert NoBreak("data: " + front);
    hide FirstBreak, NoBreak;
    CutAt(s, cut + 6);
    var left := s[PastBreak(s, cut + 6)..];
    rest := Lines(left);
    LinesAreShorter(left);
  }

  // ----- The whole response -----

  predicate AllClean(items: seq<Item>, token: string) {
    forall i :: 0 <= i < |items| ==> Clean(items[i], token)
  }

  /** An item reads back as it was meant exactly when it is clean, and never as more. */
  lemma ItemExactly(item: Item, token: string)
    ensures Clean(item, token) ==> Parsed(Rendered(item, token)) == Meant(item, token)
    ensures !Clean(item, token) ==> Weight(Parsed(Rendered(item, token))) < Weight(Meant(item, token))
  {
    hide Lines, ReadLines, Rendered, Label, NoBreak;
    match item
    case Line(text) => LineItem(text, token);
    case Keepalive => KeepaliveItem(token);
    case Notice(text) =>
      if Clean(item, token) {
        NoticeItem(text, token);
      } else {
        BrokenNoticeWeighsLess(text, token);
        WeightPush([], Event("notice", Label(token, text)));
        assert [] + Meant(item, token) == Meant(item, token);
      }
  }

  lemma {:induction false} BodyWeight(items: seq<Item>, token: string)
    ensures AllClean(items, token) ==> Parsed(Body(items, token)) == AllMeant(items, token)
    ensures Weight(Parsed(Body(items, token))) <= Weight(AllMeant(items, token))
    ensures !AllClean(items, token) ==> Weight(Parsed(Body(items, token))) < Weight(AllMeant(items, token))
    decreases |items|
  {
    hide Parsed, Rendered, Meant, Weight, Clean;
    if items == [] {
      EmptyBody(token);
    } else {
      var first, rest := items[0], items[1..];
      BodyWeight(rest, token);
      BodyStep(first, Body(rest, token), token);
      ItemExactly(first, token);
      WeightAppend(Parsed(Rendered(first, token)), Parsed(Body(rest, token)));
      WeightAppend(Meant(first, token), AllMeant(rest, token));
      CleanSplits(items, token);
      hide AllClean;
    }
  }

  lemma CleanSplits(items: seq<Item>, token: string)
    requires items != []
    ensures AllClean(items, token) <==> Clean(items[0], token) && AllClean(items[1..], token)
  {
    hide Clean;
    if Clean(items[0], token) && AllClean(items[1..], token) {
      forall i | 0 <= i < |items| ensures Clean(items[i], token) {
        assert i > 0 ==> items[i] == items[1..][i - 1];
      }
    }
  }

  lemma EmptyBody(token: string)
    ensures Parsed(Body([], token)) == [] == AllMeant([], token)
  {
  }

  /**
   Parsing a following response recovers its lines as message events and its notices as notice
   events, in order, keepalives leaving no trace, if and only if no notice holds a line break.
   */
  lemma ReadsBackExactly(items: seq<Item>, token: string)
    ensures Parsed(Body(items, token)) == AllMeant(items, token) <==> AllClean(items, token)
  {
    BodyWeight(items, token);
  }

  /** A notice with a line feed in it reads back as less than was meant. */
  lemma BrokenNoticeIsCutShort()
    ensures Parsed(Body([Notice("a\nb")], "t")) != AllMeant([Notice("a\nb")], "t")
  {
    assert Label("t", "a\nb")[5] == LF;
    assert !Clean([Notice("a\nb")][0], "t");
    ReadsBackExactly([Notice("a\nb")], "t");
  }

  // ----- What the handler puts in it -----

  const WITHDRAWN: string := "your access to this log was withdrawn"
  const TIME_LIMIT: string := "this stream reached its time limit; "
  const TIME_ADVICE: string := "open it again to carry on watching"
  const DROPPED_HERE: string := " bytes were dropped here "
  const DROPPED_WHY: string := "because this reader was not keeping up"

  /**
   What wakes the handler of a followed log: a chunk with the drops untold so far, the recheck tick,
   the stream's end with the last drops, or the reader going away.
   */
  datatype Waking =
    | Arrived(data: string, dropped: int)
    | Rechecked(withdrawn: bool, expired: bool)
    | Closed(dropped: int, failure: Option<string>)
    | Left

  datatype Serving = Serving(writer: Writer, over: bool)

  function Say(w: Writer, text: string): (w': Writer) {
    w.(out := w.out + [Notice(text)])
  }

  function SayGap(w: Writer, dropped: int): (w': Writer) {
    if dropped > 0 then Say(w, Decimal(dropped) + DROPPED_HERE + DROPPED_WHY) else w
  }

  function Wake(h: Serving, e: Waking, keep: Search): (h': Serving) {
    if h.over then h
    else match e
      case Arrived(data, dropped) =>
        var w := WriteChunk(SayGap(h.writer, dropped), data, keep);
        Serving(w, w.spent)
      case Rechecked(withdrawn, expired) =>
        if withdrawn then Serving(Say(h.writer, WITHDRAWN), true)
        else if expired then Serving(Say(h.writer, TIME_LIMIT + TIME_ADVICE), true)
        else Serving(h.writer.(out := h.writer.out + [Keepalive]), false)
      case Closed(dropped, failure) => Serving(End(SayGap(h.writer, dropped), failure, true), true)
      case Left => Serving(h.writer, true)
  }

  /** Everything a followed log has written after any sequence of wakings. */
  function Served(events: seq<Waking>, keep: Search): (h: Serving) {
    if events == [] then Serving(START, false) else Wake(Served(events[..|events| - 1], keep), events[|events| - 1], keep)
  }

  /** The reasons agents give have been cleaned of line breaks. */
  predicate ReasonsClean(events: seq<Waking>) {
    forall i :: 0 <= i < |events| && events[i].Closed? && events[i].failure.Some? ==> NoBreak(events[i].failure.value)
  }

  lemma Unbroken(a: string, b: string)
    requires NoBreak(a) && NoBreak(b)
    ensures NoBreak(a + b)
  {
  }

  lemma FixedTexts()
    ensures NoBreak(SPLIT_NOTICE) && NoBreak(LIMIT_REACHED) && NoBreak(LIMIT_BOUNDS) && NoBreak(LIMIT_ADVICE) && NoBreak(END_NOTICE)
    ensures NoBreak("[") && NoBreak("] ") && NoBreak(": ")
  {
  }

  lemma HandlerTexts()
    ensures NoBreak(WITHDRAWN) && NoBreak(TIME_LIMIT) && NoBreak(TIME_ADVICE) && NoBreak(DROPPED_HERE) && NoBreak(DROPPED_WHY)
  {
  }

  lemma LabelClean(text: string, token: string)
    requires NoBreak(token) && NoBreak(text)
    ensures NoBreak(Label(token, text))
  {
    FixedTexts();
    hide NoBreak;
    Unbroken("[", token);
    Unbroken("[" + token, "] ");
    Unbroken("[" + token + "] ", text);
  }

  lemma {:induction false} DecimalClean(n: nat)
    ensures NoBreak(Decimal(n))
  {
    if n >= 10 {
      DecimalClean(n / 10);
    }
  }

  lemma PushClean(out: seq<Item>, item: Item, token: string)
    requires AllClean(out, token) && Clean(item, token)
    ensures AllClean(out + [item], token)
  {
    hide Clean;
  }

  lemma SayClean(w: Writer, text: string, token: string)
    requires AllClean(w.out, token) && NoBreak(token) && NoBreak(text)
    ensures AllClean(Say(w, text).out, token)
  {
    hide AllClean, NoBreak;
    LabelClean(text, token);
    PushClean(w.out, Notice(text), token);
  }

  lemma LineClean(out: seq<Item>, text: string, token: string)
    requires AllClean(out, token)
    ensures AllClean(out + [Line(text)], token)
  {
    PushClean(out, Line(text), token);
  }

  lemma LimitClean()
    ensures NoBreak(LIMIT_NOTICE)
  {
    FixedTexts();
    hide NoBreak;
    Unbroken(LIMIT_REACHED, LIMIT_BOUNDS);
    Unbroken(LIMIT_REACHED + LIMIT_BOUNDS, LIMIT_ADVICE);
  }

  lemma EmitClean(w: Writer, line: string, keep: Search, token: string)
    requires AllClean(w.out, token) && NoBreak(token)
    ensures AllClean(Emit(w, line, keep).out, token)
  {
    hide AllClean, NoBreak;
    LineClean(w.out, line, token);
    LimitClean();
    SayClean(w.(out := w.out + [Line(line)]), LIMIT_NOTICE, token);
    SayClean(w, LIMIT_NOTICE, token);
    assert w.out + [] == w.out;
  }

  lemma {:induction false} FeedClean(w: Writer, s: string, keep: Search, token: string)
    requires AllClean(w.out, token) && NoBreak(token)
    ensures AllClean(Feed(w, s, keep).out, token)
  {
    hide AllClean, NoBreak, Emit;
    if s != "" {
      var before := s[..|s| - 1];
      FeedClean(w, before, keep, token);
      EmitClean(Feed(w, before, keep), Feed(w, before, keep).pending, keep, token);
    }
  }

  lemma WriteClean(w: Writer, data: string, keep: Search, token: string)
    requires AllClean(w.out, token) && NoBreak(token)
    ensures AllClean(WriteChunk(w, data, keep).out, token)
  {
    FixedTexts();
    hide AllClean, NoBreak, Emit, Feed;
    FeedClean(w, data, keep, token);
    var f := Feed(w, data, keep);
    SayClean(f, SPLIT_NOTICE, token);
    EmitClean(Say(f, SPLIT_NOTICE), f.pending, keep, token);
  }

  lemma EndClean(w: Writer, failure: Option<string>, token: string)
    requires AllClean(w.out, token) && NoBreak(token) && (failure.Some? ==> NoBreak(failure.value))
    ensures AllClean(End(w, failure, true).out, token)
  {
    FixedTexts();
    hide AllClean, NoBreak;
    LineClean(w.out, w.pending, token);
    var w1 := if w.pending == "" then w else w.(out := w.out + [Line(w.pending)]);
    var why := if failure.Some? then END_NOTICE + ": " + failure.value else END_NOTICE;
    if failure.Some? {
      Unbroken(END_NOTICE, ": ");
      Unbroken(END_NOTICE + ": ", failure.value);
    }
    SayClean(w1, why, token);
    assert End(w, failure, true).out == w1.out + [Notice(why)] by { assert w.out + [] == w.out; }
  }

  lemma GapClean(w: Writer, dropped: int, token: string)
    requires AllClean(w.out, token) && NoBreak(token)
    ensures AllClean(SayGap(w, dropped).out, token)
  {
    HandlerTexts();
    hide AllClean, NoBreak;
    if dropped > 0 {
      DecimalClean(dropped);
      Unbroken(Decimal(dropped), DROPPED_HERE);
      Unbroken(Decimal(dropped) + DROPPED_HERE, DROPPED_WHY);
      SayClean(w, Decimal(dropped) + DROPPED_HERE + DROPPED_WHY, token);
    }
  }

  lemma WakeClean(h: Serving, e: Waking, keep: Search, token: string)
    requires AllClean(h.writer.out, token) && NoBreak(token)
    requires e.Closed? && e.failure.Some? ==> NoBreak(e.failure.value)
    ensures AllClean(Wake(h, e, keep).writer.out, token)
  {
    HandlerTexts();
    hide AllClean, NoBreak, WriteChunk, SayGap, End;
    match e
    case Arrived(data, dropped) =>
      GapClean(h.writer, dropped, token);
      WriteClean(SayGap(h.writer, dropped), data, keep, token);
    case Rechecked(_, _) =>
      SayClean(h.writer, WITHDRAWN, token);
      Unbroken(TIME_LIMIT, TIME_ADVICE);
      SayClean(h.writer, TIME_LIMIT + TIME_ADVICE, token);
      PushClean(h.writer.out, Keepalive, token);
    case Closed(dropped, failure) =>
      GapClean(h.writer, dropped, token);
      EndClean(SayGap(h.writer, dropped), failure, token);
    case Left =>
  }

  lemma {:induction false} ServedClean(events: seq<Waking>, keep: Search, token: string)
    requires NoBreak(token) && ReasonsClean(events)
    ensures AllClean(Served(events, keep).writer.out, token)
  {
    if events != [] {
      ServedClean(events[..|events| - 1], keep, token);
      hide Wake, AllClean;
      WakeClean(Served(events[..|events| - 1], keep), events[|events| - 1], keep, token);
    }
  }

  /**
   At every moment of serving a followed log, for every container output and whatever drops, ticks,
   withdrawals, limits and ends come in between, what was written reads back exactly.
   */
  lemma FollowedLogReadsBack(events: seq<Waking>, keep: Search, token: string)
    requires NoBreak(token) && ReasonsClean(events)
    ensures var out := Served(events, keep).writer.out; Parsed(Body(out, token)) == AllMeant(out, token)
  {
    ServedClean(events, keep, token);
    ReadsBackExactly(Served(events, keep).writer.out, token);
  }

  lemma {:induction false} ChunksClean(chunks: seq<string>, keep: Search, token: string)
    requires NoBreak(token)
    ensures AllClean(WriteAll(START, chunks, keep).out, token)
  {
    if chunks != [] {
      ChunksClean(chunks[..|chunks| - 1], keep, token);
      hide WriteChunk, AllClean;
      WriteClean(WriteAll(START, chunks[..|chunks| - 1], keep), chunks[|chunks| - 1], keep, token);
    }
  }

  /** What a reader of a followed log within its bounds sees: the log's lines, as they were printed, then its end. */
  lemma ReaderSeesTheLog(chunks: seq<string>, keep: Search, token: string)
    requires NoBreak(token)
    requires var s := Concat(chunks); Short(s, MAX_LINE_BYTES) && WithinBounds(Lines(s))
    ensures var s := Concat(chunks);
            var shown := Kept(Lines(s), keep) + (if Tail(s) == "" then [] else [Line(Tail(s))]);
            && Parsed(Body(End(WriteAll(START, chunks, keep), None, true).out, token)) == AllMeant(shown + [Notice(END_NOTICE)], token)
            && forall line :: line in Lines(s) + [Tail(s)] ==> Meant(Line(line), token) == [Event("message", line)]
  {
    var s := Concat(chunks);
    StreamIsItsLines(chunks, keep, None, true);
    ChunksClean(chunks, keep, token);
    EndClean(WriteAll(START, chunks, keep), None, token);
    ReadsBackExactly(End(WriteAll(START, chunks, keep), None, true).out, token);
    forall line | line in Lines(s) + [Tail(s)] ensures Meant(Line(line), token) == [Event("message", line)] {
      LinesUnbroken(s);
      StrippedClean(line);
    }
  }
}
