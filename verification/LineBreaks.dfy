/**
 Text cut at line breaks: LF, CR, or CR LF as one. Bytes are characters below 256; no rule here
 looks at anything but CR and LF, so multi-byte text is cut the same way.
 */
module LineBreaks {
  const LF: char := '\n'
  const CR: char := '\r'

  predicate IsBreak(c: char) {
    c == LF || c == CR
  }

  predicate NoBreak(s: string) {
    forall i :: 0 <= i < |s| ==> !IsBreak(s[i])
  }

  /** The first break, or the length when there is none. */
  function FirstBreak(s: string): (cut: nat)
    ensures cut <= |s| && NoBreak(s[..cut])
    ensures cut < |s| ==> IsBreak(s[cut])
  {
    if s == "" || IsBreak(s[0]) then 0 else 1 + FirstBreak(s[1..])
  }

  /** Where the line after the break at `cut` begins. */
  function PastBreak(s: string, cut: nat): (next: nat)
    requires cut < |s|
    ensures cut < next <= |s|
  {
    if s[cut] == CR && cut + 1 < |s| && s[cut + 1] == LF then cut + 2 else cut + 1
  }

  /** Every line that was ended. */
  function Lines(s: string): (lines: seq<string>) {
    var cut := FirstBreak(s);
    if cut == |s| then [] else [s[..cut]] + Lines(s[PastBreak(s, cut)..])
  }

  /** What follows the last break. */
  function Tail(s: string): (tail: string) {
    var cut := FirstBreak(s);
    if cut == |s| then s else Tail(s[PastBreak(s, cut)..])
  }

  /** The text without its breaks. */
  function Stripped(s: string): (t: string)
    ensures NoBreak(t)
  {
    if s == "" then "" else (if IsBreak(s[0]) then "" else [s[0]]) + Stripped(s[1..])
  }

  function TotalLength(lines: seq<string>): (n: nat) {
    if lines == [] then 0 else |lines[0]| + TotalLength(lines[1..])
  }

  lemma {:induction false} StrippedAppend(a: string, b: string)
    ensures Stripped(a + b) == Stripped(a) + Stripped(b)
  {
    if a == "" {
      assert a + b == b;
    } else {
      assert (a + b)[1..] == a[1..] + b;
      StrippedAppend(a[1..], b);
    }
  }

  lemma {:induction false} StrippedClean(s: string)
    ensures NoBreak(s) ==> Stripped(s) == s
  {
    if s != "" && NoBreak(s) {
      StrippedClean(s[1..]);
    }
  }

  lemma {:induction false} FirstBreakIs(s: string, cut: nat)
    requires cut <= |s| && NoBreak(s[..cut]) && (cut == |s| || IsBreak(s[cut]))
    ensures FirstBreak(s) == cut
  {
    if cut > 0 {
      assert s[0] == s[..cut][0];
      assert s[1..][..cut - 1] == s[..cut][1..];
      FirstBreakIs(s[1..], cut - 1);
    }
  }

  /** The first line of a text and the rest of it. */
  lemma CutAt(s: string, cut: nat)
    requires cut < |s| && NoBreak(s[..cut]) && IsBreak(s[cut])
    ensures FirstBreak(s) == cut
    ensures Lines(s) == [s[..cut]] + Lines(s[PastBreak(s, cut)..])
    ensures Tail(s) == Tail(s[PastBreak(s, cut)..])
  {
    FirstBreakIs(s, cut);
  }

  lemma {:induction false} LinesUnbroken(s: string)
    ensures NoBreak(Tail(s)) && forall line :: line in Lines(s) ==> NoBreak(line)
  {
    var cut := FirstBreak(s);
    if cut == |s| {
      assert s[..cut] == s;
    } else {
      LinesUnbroken(s[PastBreak(s, cut)..]);
    }
  }

  /** One line, ended by a single LF or CR, in front of the rest. */
  lemma OneLine(line: string, c: char, rest: string)
    requires NoBreak(line) && IsBreak(c) && !(c == CR && rest != "" && rest[0] == LF)
    ensures Lines(line + [c] + rest) == [line] + Lines(rest)
    ensures Tail(line + [c] + rest) == Tail(rest)
  {
    var s := line + [c] + rest;
    assert s[..|line|] == line && s[|line|] == c;
    CutAt(s, |line|);
    assert s[PastBreak(s, |line|)..] == rest;
  }

  /** A break inside `a` cuts `a` and `a + b` alike, unless it is a CR at the end of `a` that `b` completes. */
  lemma CutInFront(a: string, b: string, cut: nat, next: nat)
    requires cut == FirstBreak(a) < |a| && next == PastBreak(a, cut) == PastBreak(a + b, cut)
    ensures Lines(a) == [a[..cut]] + Lines(a[next..]) && Tail(a) == Tail(a[next..])
    ensures Lines(a + b) == [a[..cut]] + Lines(a[next..] + b) && Tail(a + b) == Tail(a[next..] + b)
  {
    var s := a + b;
    assert s[..cut] == a[..cut] && s[cut] == a[cut];
    CutAt(s, cut);
    assert s[next..] == a[next..] + b;
  }

  lemma BreakInside(a: string, b: string)
    requires a != "" && a[|a| - 1] == LF
    ensures FirstBreak(a) < |a| && PastBreak(a + b, FirstBreak(a)) == PastBreak(a, FirstBreak(a))
    ensures var next := PastBreak(a, FirstBreak(a)); a[next..] == "" || a[next..][|a[next..]| - 1] == LF
  {
    BreakFound(a, |a| - 1);
  }

  lemma {:induction false} BreakFound(s: string, i: nat)
    requires i < |s| && IsBreak(s[i])
    ensures FirstBreak(s) <= i
  {
    if i > 0 {
      BreakFound(s[1..], i - 1);
    }
  }

  lemma NothingInFront(b: string)
    ensures Lines("" + b) == Lines("") + Lines(b) && Tail("" + b) == Tail(b)
  {
    assert "" + b == b;
  }

  /** Text that ends with LF is a whole number of lines: what follows is cut as if it stood alone. */
  lemma {:induction false} LinesAppend(a: string, b: string)
    requires a == "" || a[|a| - 1] == LF
    ensures Lines(a + b) == Lines(a) + Lines(b)
    ensures Tail(a + b) == Tail(b)
    decreases |a|
  {
    hide *;
    if a == "" {
      NothingInFront(b);
    } else {
      BreakInside(a, b);
      var cut := FirstBreak(a);
      var next := PastBreak(a, cut);
      var rest := a[next..];
      CutInFront(a, b, cut, next);
      LinesAppend(rest, b);
      assert [a[..cut]] + (Lines(rest) + Lines(b)) == ([a[..cut]] + Lines(rest)) + Lines(b);
    }
  }

  /** Each line cost at least one byte more than its length. */
  lemma {:induction false} LinesAreShorter(s: string)
    ensures TotalLength(Lines(s)) + |Lines(s)| + |Tail(s)| <= |s|
    decreases |s|
  {
    var cut := FirstBreak(s);
    if cut < |s| {
      LinesAreShorter(s[PastBreak(s, cut)..]);
    }
  }

  /** No line reaches `max`, and neither does what follows the last one. */
  predicate Short(s: string, max: nat) {
    |Tail(s)| < max && forall line :: line in Lines(s) ==> |line| < max
  }

  lemma UnbrokenStart(p: string, q: string)
    requires NoBreak(p)
    ensures |p| <= FirstBreak(p + q)
    ensures Tail(p) == p
    ensures if Lines(p + q) == [] then |p| <= |Tail(p + q)| else |p| <= |Lines(p + q)[0]|
  {
    forall i | 0 <= i < |p| ensures !IsBreak((p + q)[i]) {
      assert (p + q)[i] == p[i];
    }
    FirstBreakIs(p, |p|);
  }

  /** Wherever a text of short lines is broken off, what is left hanging is short. */
  lemma {:induction false} PrefixIsShort(p: string, q: string, max: nat)
    requires Short(p + q, max)
    ensures |Tail(p)| < max
    decreases |p|
  {
    var cut := FirstBreak(p);
    if cut == |p| {
      assert p[..cut] == p;
      UnbrokenStart(p, q);
    } else {
      var next := PastBreak(p, cut);
      if PastBreak(p + q, cut) == next {
        CutInFront(p, q, cut, next);
        hide Lines, Tail, FirstBreak, NoBreak;
        PrefixIsShort(p[next..], q, max);
      } else {
        assert p[next..] == "";
      }
    }
  }
}
