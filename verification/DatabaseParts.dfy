/**
 A database snapshot too large for one capsule member, cut into numbered parts and joined again.
 The extracted data directory is a map from file name to content.
 */
module DatabaseParts {
  import opened Text

  type Bytes = seq<char>
  type Dir = map<string, Bytes>

  const DATABASE: string := "ky_server.db"
  const PART_PREFIX: string := "ky_server.db.part-"
  const JOINING: string := "ky_server.db.joining"

  datatype Member = Member(name: string, data: Bytes)

  // ----- Part names -----

  /** At least three digits, zeros in front. */
  function Padded(n: nat): (s: string) {
    if n < 10 then "00" + Decimal(n) else if n < 100 then "0" + Decimal(n) else Decimal(n)
  }

  function Name(i: nat): (name: string) {
    PART_PREFIX + Padded(i)
  }

  function DigitValue(c: char): (d: int) {
    c as int - '0' as int
  }

  function Value(s: string): (n: int) {
    if s == "" then 0 else Value(s[..|s| - 1]) * 10 + DigitValue(s[|s| - 1])
  }

  lemma DigitRoundTrip(d: nat)
    requires d < 10
    ensures DigitValue(Digit(d)) == d
  {
  }

  lemma {:induction false} DecimalRoundTrip(n: nat)
    ensures Value(Decimal(n)) == n
  {
    hide Digit, DigitValue;
    DigitRoundTrip(n % 10);
    if n < 10 {
      assert [Digit(n)][..0] == "";
      assert Value([Digit(n)][..0]) == 0;
    } else {
      DecimalRoundTrip(n / 10);
      assert (Decimal(n / 10) + [Digit(n % 10)])[..|Decimal(n / 10)|] == Decimal(n / 10);
    }
  }

  lemma {:induction false} ZeroInFront(s: string)
    ensures Value("0" + s) == Value(s)
  {
    if s == "" {
      assert ("0" + s)[..0] == "" && Value(("0" + s)[..0]) == 0;
    } else {
      assert ("0" + s)[..|s|] == "0" + s[..|s| - 1];
      ZeroInFront(s[..|s| - 1]);
    }
  }

  /** A part's number can be read back from its name, so no two parts share one. */
  lemma NamesDiffer(i: nat, j: nat)
    requires Name(i) == Name(j)
    ensures i == j
  {
    assert Padded(i) == Name(i)[|PART_PREFIX|..] && Padded(j) == Name(j)[|PART_PREFIX|..];
    PaddedRoundTrip(i);
    PaddedRoundTrip(j);
  }

  lemma PaddedRoundTrip(n: nat)
    ensures Value(Padded(n)) == n
  {
    hide Value, Decimal;
    DecimalRoundTrip(n);
    ZeroInFront(Decimal(n));
    ZeroInFront("0" + Decimal(n));
    assert "00" + Decimal(n) == "0" + ("0" + Decimal(n));
  }

  // ----- Their order -----

  lemma {:induction false} LessAfterPrefix(p: string, a: string, b: string)
    ensures Less(p + a, p + b) <==> Less(a, b)
  {
    if p == "" {
      assert p + a == a && p + b == b;
    } else {
      assert (p + a)[1..] == p[1..] + a && (p + b)[1..] == p[1..] + b;
      LessAfterPrefix(p[1..], a, b);
    }
  }

  lemma ThreeDigits(n: nat)
    requires n < 1000
    ensures Padded(n) == [Digit(n / 100), Digit(n / 10 % 10), Digit(n % 10)]
  {
    hide Digit;
    if n >= 100 {
      assert n / 10 / 10 == n / 100;
      assert Decimal(n / 10) == Decimal(n / 10 / 10) + [Digit(n / 10 % 10)];
    } else if n >= 10 {
      assert n / 100 == 0 && n / 10 % 10 == n / 10;
      assert Digit(0) == '0' by { Zero(); }
      assert Decimal(n / 10) == [Digit(n / 10)];
      assert Decimal(n) == [Digit(n / 10), Digit(n % 10)];
    } else {
      assert Digit(0) == '0' by { Zero(); }
    }
  }

  lemma Zero()
    ensures Digit(0) == '0'
  {
  }

  lemma DigitsOrdered(a: nat, b: nat)
    requires a < b < 10
    ensures Digit(a) < Digit(b)
  {
  }

  lemma LessOfThree(a0: char, a1: char, a2: char, b0: char, b1: char, b2: char)
    requires a0 < b0 || (a0 == b0 && (a1 < b1 || (a1 == b1 && a2 < b2)))
    ensures Less([a0, a1, a2], [b0, b1, b2])
  {
    assert [a0, a1, a2][1..] == [a1, a2] && [b0, b1, b2][1..] == [b1, b2];
    assert [a1, a2][1..] == [a2] && [b1, b2][1..] == [b2];
  }

  lemma PlacesOrdered(i: nat, j: nat)
    requires i < j < 1000
    ensures i / 100 < j / 100 || (i / 100 == j / 100 && (i / 10 % 10 < j / 10 % 10 || (i / 10 % 10 == j / 10 % 10 && i % 10 < j % 10)))
    ensures i / 100 < 10 && j / 100 < 10
  {
  }

  /** Below a thousand, the order of the names is the order of the numbers. */
  lemma NamesInOrder(i: nat, j: nat)
    requires i < j < 1000
    ensures Less(Name(i), Name(j))
  {
    hide Padded, Digit, Less;
    ThreeDigits(i);
    ThreeDigits(j);
    PlacesOrdered(i, j);
    var ai, aj := i / 100, j / 100;
    var bi, bj := i / 10 % 10, j / 10 % 10;
    if ai < aj {
      DigitsOrdered(ai, aj);
    } else if bi < bj {
      DigitsOrdered(bi, bj);
    } else {
      DigitsOrdered(i % 10, j % 10);
    }
    LessOfThree(Digit(ai), Digit(bi), Digit(i % 10), Digit(aj), Digit(bj), Digit(j % 10));
    LessAfterPrefix(PART_PREFIX, Padded(i), Padded(j));
  }

  /** The first part past a thousand sorts among the hundreds. */
  lemma ThousandSortsEarly()
    ensures Less(Name(1000), Name(101))
  {
    assert Decimal(1000) == "1000" by {
      assert Decimal(10) == Decimal(1) + [Digit(0)];
      assert Decimal(100) == Decimal(10) + [Digit(0)];
      assert Decimal(1000) == Decimal(100) + [Digit(0)];
    }
    assert Decimal(101) == "101" by {
      assert Decimal(10) == Decimal(1) + [Digit(0)];
      assert Decimal(101) == Decimal(10) + [Digit(1)];
    }
    assert "1000"[1..] == "000" && "101"[1..] == "01" && "000"[1..] == "00" && "01"[1..] == "1";
    assert Less("00", "1");
    LessAfterPrefix(PART_PREFIX, "1000", "101");
  }

  // ----- Cutting -----

  function CutFrom(db: Bytes, size: nat, i: nat): (parts: seq<Member>)
    requires size > 0
    decreases |db|
  {
    if db == [] then []
    else
      var n := if |db| < size then |db| else size;
      [Member(Name(i), db[..n])] + CutFrom(db[n..], size, i + 1)
  }

  function Members(db: Bytes, size: nat): (members: seq<Member>)
    requires size > 0
  {
    if |db| <= size then [Member(DATABASE, db)] else CutFrom(db, size, 0)
  }

  function Joined(parts: seq<Member>): (db: Bytes) {
    if parts == [] then [] else parts[0].data + Joined(parts[1..])
  }

  lemma {:induction false} PartsFit(db: Bytes, size: nat, i: nat, k: nat)
    requires size > 0 && k < |CutFrom(db, size, i)|
    ensures var part := CutFrom(db, size, i)[k]; part.name == Name(i + k) && 0 < |part.data| <= size
    decreases |db|
  {
    hide Name;
    var n := if |db| < size then |db| else size;
    if k > 0 {
      PartsFit(db[n..], size, i + 1, k - 1);
    }
  }

  lemma {:induction false} PartsJoin(db: Bytes, size: nat, i: nat)
    requires size > 0
    ensures Joined(CutFrom(db, size, i)) == db
    decreases |db|
  {
    hide Name;
    if db != [] {
      var n := if |db| < size then |db| else size;
      var rest := CutFrom(db[n..], size, i + 1);
      PartsJoin(db[n..], size, i + 1);
      assert ([Member(Name(i), db[..n])] + rest)[1..] == rest;
      assert db == db[..n] + db[n..];
    }
  }

  /** The parts are numbered in order, none is empty or too large, and together they are the snapshot. */
  lemma PartsAreTheSnapshot(db: Bytes, size: nat)
    requires size > 0
    ensures var parts := CutFrom(db, size, 0);
            && (forall k :: 0 <= k < |parts| ==> parts[k].name == Name(k) && 0 < |parts[k].data| <= size)
            && Joined(parts) == db
  {
    hide CutFrom, Joined, Name;
    PartsJoin(db, size, 0);
    var parts := CutFrom(db, size, 0);
    forall k | 0 <= k < |parts| ensures parts[k].name == Name(k) && 0 < |parts[k].data| <= size {
      PartsFit(db, size, 0, k);
    }
  }

  /** Every part but the last is full, so there are as few as can be. */
  lemma {:induction false} FewestParts(db: Bytes, size: nat, i: nat)
    requires size > 0
    ensures var n := |CutFrom(db, size, i)|; |db| <= n * size && (db != [] ==> (n - 1) * size < |db|)
    decreases |db|
  {
    if |db| > size {
      FewestParts(db[size..], size, i + 1);
      var n := |CutFrom(db[size..], size, i + 1)|;
      assert (n + 1) * size == n * size + size && n * size == (n - 1) * size + size;
    }
  }

  // ----- The extracted directory -----

  predicate IsPart(name: string) {
    PART_PREFIX <= name
  }

  function PartNames(dir: Dir): (names: set<string>) {
    set name | name in dir && IsPart(name)
  }

  function Names(n: nat): (names: seq<string>)
    ensures |names| == n && forall i :: 0 <= i < n ==> names[i] == Name(i)
  {
    if n == 0 then [] else Names(n - 1) + [Name(n - 1)]
  }

  /** The parts are numbered 0 to n - 1, and there are no others. */
  predicate Numbered(dir: Dir, n: nat) {
    && (forall name :: name in Names(n) ==> name in dir)
    && (forall name :: name in dir && IsPart(name) ==> name in Names(n))
  }

  /** The contents of the first n parts, one after the other. */
  function InOrder(dir: Dir, n: nat): (db: Bytes) {
    if n == 0 then [] else InOrder(dir, n - 1) + if Name(n - 1) in dir then dir[Name(n - 1)] else []
  }

  predicate Ascending(names: seq<string>) {
    forall i, j :: 0 <= i < j < |names| ==> Less(names[i], names[j])
  }

  /** A sorted listing of a set of names. */
  ghost predicate Listing(list: seq<string>, names: set<string>) {
    Ascending(list) && forall name :: name in list <==> name in names
  }

  lemma SmallestFirst(a: seq<string>, b: seq<string>)
    requires Ascending(a) && Ascending(b) && a != [] && b != []
    requires forall name :: name in a <==> name in b
    ensures a[0] == b[0]
  {
    hide Less;
    assert a[0] in b && b[0] in a;
    var i :| 0 <= i < |b| && b[i] == a[0];
    var j :| 0 <= j < |a| && a[j] == b[0];
    if i > 0 && j > 0 {
      assert Less(b[0], b[i]) && Less(a[0], a[j]);
      LessAsymmetric(a[0], b[0]);
    }
  }

  lemma TailHas(a: seq<string>, name: string)
    requires Ascending(a) && a != []
    ensures name in a[1..] <==> name in a && name != a[0]
  {
    hide Less;
    if name in a[1..] {
      var i :| 0 <= i < |a| - 1 && a[1..][i] == name;
      assert a[i + 1] == name && Less(a[0], a[i + 1]);
      LessAsymmetric(a[0], name);
    }
  }

  lemma {:induction false} ListingUnique(a: seq<string>, b: seq<string>)
    requires Ascending(a) && Ascending(b)
    requires forall name :: name in a <==> name in b
    ensures a == b
    decreases |a|
  {
    hide Less;
    assert |b| > 0 ==> b[0] in b;
    assert |a| > 0 ==> a[0] in a;
    if a != [] && b != [] {
      SmallestFirst(a, b);
      forall name ensures name in a[1..] <==> name in b[1..] {
        TailHas(a, name);
        TailHas(b, name);
      }
      assert Ascending(a[1..]) && Ascending(b[1..]);
      ListingUnique(a[1..], b[1..]);
      assert a == [a[0]] + a[1..] && b == [b[0]] + b[1..];
    }
  }

  lemma NamesAscend(n: nat)
    requires n <= 1000
    ensures Ascending(Names(n))
  {
    hide Name, Less;
    forall i, j | 0 <= i < j < n ensures Less(Names(n)[i], Names(n)[j]) {
      NamesInOrder(i, j);
    }
  }

  /** More than a thousand names are never in order: the thousand-and-first sorts early. */
  lemma NamesDoNotAscend(n: nat)
    requires n > 1000
    ensures !Ascending(Names(n))
  {
    hide Name, Less;
    if Ascending(Names(n)) {
      assert Less(Names(n)[101], Names(n)[1000]);
      ThousandSortsEarly();
      LessAsymmetric(Name(1000), Name(101));
    }
  }

  lemma NameIsPart(i: nat)
    ensures IsPart(Name(i))
  {
  }

  lemma NumberedMeansSorted(dir: Dir, list: seq<string>, n: nat)
    requires Listing(list, PartNames(dir)) && n <= 1000 && Numbered(dir, n)
    ensures list == Names(n)
  {
    hide Name, Less, Ascending;
    NamesAscend(n);
    forall name | name in Names(n) ensures name in list {
      var i :| 0 <= i < n && Names(n)[i] == name;
      NameIsPart(i);
    }
    ListingUnique(list, Names(n));
  }

  lemma SortedMeansNumbered(dir: Dir, list: seq<string>, n: nat)
    requires Listing(list, PartNames(dir)) && list == Names(n)
    ensures n <= 1000 && Numbered(dir, n)
  {
    hide Name, Less, Ascending;
    if n > 1000 {
      NamesDoNotAscend(n);
    }
  }

  lemma NoneMeansNoNames(dir: Dir, n: nat)
    requires Numbered(dir, n)
    ensures n == 0 <==> PartNames(dir) == {}
  {
    hide Name;
    if n > 0 {
      NameIsPart(0);
      assert Names(n)[0] in Names(n);
      assert Name(0) in PartNames(dir);
    }
  }

  lemma NumberedOnce(dir: Dir, n: nat, m: nat)
    requires Numbered(dir, n) && Numbered(dir, m) && n <= m
    ensures n == m
  {
    hide Name;
    if n < m {
      NameIsPart(n);
      assert Names(m)[n] in Names(m);
      var k :| 0 <= k < n && Names(n)[k] == Name(n);
      NamesDiffer(k, n);
    }
  }

  /** At most a thousand parts, numbered from zero without a gap. */
  ghost predicate Complete(dir: Dir) {
    exists n :: 0 < n <= 1000 && Numbered(dir, n)
  }

  lemma UnsortedIsIncomplete(dir: Dir, list: seq<string>)
    requires Listing(list, PartNames(dir)) && list != Names(|list|)
    ensures !Complete(dir)
  {
    hide Name, Less, Listing, Numbered, PartNames;
    forall n | 0 < n <= 1000 && Numbered(dir, n) ensures list == Names(n) {
      NumberedMeansSorted(dir, list, n);
    }
  }

  // ----- Joining -----

  datatype Outcome = NoParts | NotNumbered | BesideDatabase | AlreadyJoining | Done(db: Bytes)

  method InsertName(list: seq<string>, name: string) returns (longer: seq<string>)
    requires Ascending(list) && name !in list
    ensures Ascending(longer) && forall other :: other in longer <==> other in list || other == name
  {
    hide Less;
    var k := 0;
    while k < |list| && Less(list[k], name)
      invariant 0 <= k <= |list|
      invariant forall i :: 0 <= i < k ==> Less(list[i], name)
    {
      k := k + 1;
    }
    longer := list[..k] + [name] + list[k..];
    forall i | k <= i < |list| ensures Less(name, list[i]) {
      LessTotal(name, list[k]);
      if i > k {
        LessTransitive(name, list[k], list[i]);
      }
    }
  }

  method SortNames(names: set<string>) returns (list: seq<string>)
    ensures Listing(list, names)
  {
    list := [];
    var todo := names;
    while todo != {}
      invariant Ascending(list) && todo <= names
      invariant forall name :: name in list <==> name in names && name !in todo
      decreases |todo|
    {
      var name :| name in todo;
      todo := todo - {name};
      list := InsertName(list, name);
    }
  }

  lemma ListsAll(dir: Dir, parts: seq<string>)
    requires Listing(parts, PartNames(dir))
    ensures parts == [] <==> PartNames(dir) == {}
    ensures forall i :: 0 <= i < |parts| ==> parts[i] in dir
  {
    hide Less, Ascending;
    assert parts != [] ==> parts[0] in PartNames(dir);
    assert forall name :: name in PartNames(dir) ==> name in parts;
    forall i | 0 <= i < |parts| ensures parts[i] in dir {
      assert parts[i] in parts;
    }
  }

  /** The check of every name against its number. */
  method CheckNames(parts: seq<string>) returns (ok: bool)
    ensures ok <==> parts == Names(|parts|)
  {
    hide Name;
    for i := 0 to |parts|
      invariant forall k :: 0 <= k < i ==> parts[k] == Name(k)
    {
      if parts[i] != Name(i) {
        return false;
      }
    }
    ok := true;
  }

  /** The parts appended in turn. */
  method AppendParts(dir: Dir, parts: seq<string>) returns (db: Bytes)
    requires parts == Names(|parts|) && forall i :: 0 <= i < |parts| ==> parts[i] in dir
    ensures db == InOrder(dir, |parts|)
  {
    hide Name;
    db := [];
    for i := 0 to |parts|
      invariant db == InOrder(dir, i)
    {
      assert parts[i] == Name(i);
      db := db + dir[parts[i]];
    }
  }

  /**
   Joins the parts of an extracted capsule. It accepts exactly the sets of at most a thousand parts
   numbered from zero without a gap, with no database and no unfinished join beside them, and then
   the database it writes is the parts in order.
   */
  method JoinDatabase(dir: Dir, remove: bool) returns (r: Outcome, after: Dir)
    ensures r == NoParts <==> PartNames(dir) == {}
    ensures r == NotNumbered <==> PartNames(dir) != {} && !Complete(dir)
    ensures r == BesideDatabase <==> Complete(dir) && DATABASE in dir
    ensures r == AlreadyJoining <==> Complete(dir) && DATABASE !in dir && JOINING in dir
    ensures forall n :: Numbered(dir, n) && r.Done? ==> r.db == InOrder(dir, n)
    ensures r.Done? ==> after == (if remove then dir - PartNames(dir) else dir)[DATABASE := r.db]
    ensures !r.Done? ==> after == dir
  {
    after := dir;
    var parts := SortNames(PartNames(dir));
    ListsAll(dir, parts);
    hide *;
    if parts == [] {
      NoPartsIncomplete(dir);
      return NoParts, after;
    }
    var ok := CheckNames(parts);
    if !ok {
      UnsortedIsIncomplete(dir, parts);
      return NotNumbered, after;
    }
    SortedIsComplete(dir, parts);
    if DATABASE in dir {
      return BesideDatabase, after;
    }
    if JOINING in dir {
      return AlreadyJoining, after;
    }
    var db := AppendParts(dir, parts);
    after := dir[DATABASE := db];
    if remove {
      after := (dir - PartNames(dir))[DATABASE := db];
    }
    r := Done(db);
  }

  lemma NoPartsIncomplete(dir: Dir)
    requires PartNames(dir) == {}
    ensures !Complete(dir) && forall n :: Numbered(dir, n) ==> n == 0
  {
    hide Numbered, PartNames;
    forall n | Numbered(dir, n) ensures n == 0 {
      NoneMeansNoNames(dir, n);
    }
  }

  lemma SortedIsComplete(dir: Dir, parts: seq<string>)
    requires Listing(parts, PartNames(dir)) && parts != [] && parts == Names(|parts|)
    ensures Complete(dir) && forall n :: Numbered(dir, n) ==> n == |parts|
  {
    hide Numbered, PartNames, Listing, Name;
    SortedMeansNumbered(dir, parts, |parts|);
    forall n: nat | Numbered(dir, n) ensures n == |parts| {
      if n <= |parts| {
        NumberedOnce(dir, n, |parts|);
      } else {
        NumberedOnce(dir, |parts|, n);
      }
    }
  }

  // ----- The round trip -----

  /** The members written out as files. */
  function Extracted(members: seq<Member>): (dir: Dir) {
    if members == [] then map[]
    else Extracted(members[..|members| - 1])[members[|members| - 1].name := members[|members| - 1].data]
  }

  lemma {:induction false} ExtractedParts(parts: seq<Member>, k: nat)
    requires k <= |parts| && forall i :: 0 <= i < |parts| ==> parts[i].name == Name(i)
    ensures var dir := Extracted(parts[..k]);
            && (forall name :: name in dir <==> name in Names(k))
            && (forall i :: 0 <= i < k ==> Name(i) in dir && dir[Name(i)] == parts[i].data)
  {
    hide Name;
    if k > 0 {
      ExtractedParts(parts, k - 1);
      assert parts[..k][..k - 1] == parts[..k - 1];
      forall i | 0 <= i < k - 1 ensures Name(i) != Name(k - 1) {
        if Name(i) == Name(k - 1) {
          NamesDiffer(i, k - 1);
        }
      }
      forall i | 0 <= i < k ensures Name(i) in Names(k) {
        assert Names(k)[i] == Name(i);
      }
    }
  }

  lemma {:induction false} JoinedPush(parts: seq<Member>, m: Member)
    ensures Joined(parts + [m]) == Joined(parts) + m.data
  {
    if parts == [] {
      assert parts + [m] == [m] && [m][1..] == [];
      assert Joined([m]) == m.data + Joined([m][1..]);
    } else {
      assert (parts + [m])[1..] == parts[1..] + [m];
      JoinedPush(parts[1..], m);
    }
  }

  lemma {:induction false} JoinedInOrder(parts: seq<Member>, dir: Dir, k: nat)
    requires k <= |parts| && forall i :: 0 <= i < |parts| ==> Name(i) in dir && dir[Name(i)] == parts[i].data
    ensures InOrder(dir, k) == Joined(parts[..k])
  {
    hide Name;
    if k > 0 {
      JoinedInOrder(parts, dir, k - 1);
      assert parts[..k] == parts[..k - 1] + [parts[k - 1]];
      JoinedPush(parts[..k - 1], parts[k - 1]);
    }
  }

  lemma OthersAreNotParts()
    ensures !IsPart(DATABASE) && !IsPart(JOINING)
  {
    assert JOINING[13] != PART_PREFIX[13];
  }

  lemma NamesAreParts(n: nat, name: string)
    requires name in Names(n)
    ensures IsPart(name)
  {
    hide Name;
    var i :| 0 <= i < n && Names(n)[i] == name;
    NameIsPart(i);
  }

  /**
   What databaseMembers makes of an oversized snapshot, once extracted, is numbered without a gap and
   holds the snapshot in order; the join accepts it if and only if there are at most a thousand parts.
   */
  lemma RoundTripExactly(db: Bytes, size: nat)
    requires 0 < size < |db|
    ensures var parts := Members(db, size);
            var dir := Extracted(parts);
            && Numbered(dir, |parts|) && InOrder(dir, |parts|) == db
            && DATABASE !in dir && JOINING !in dir && PartNames(dir) != {}
            && (Complete(dir) <==> |parts| <= 1000)
  {
    hide Name, InOrder, CutFrom;
    var parts := Members(db, size);
    var dir := Extracted(parts);
    PartsAreTheSnapshot(db, size);
    FewestParts(db, size, 0);
    assert |parts| > 0;
    assert parts[..|parts|] == parts;
    ExtractedParts(parts, |parts|);
    JoinedInOrder(parts, dir, |parts|);
    OnlyParts(dir, |parts|);
    assert Numbered(dir, |parts|);
    NoneMeansNoNames(dir, |parts|);
    CompleteCount(dir, |parts|);
  }

  /** A snapshot of 1001 parts is cut and never joined again. */
  lemma ThousandAndOneParts(db: Bytes)
    requires |db| == 1001
    ensures |Members(db, 1)| == 1001 && !Complete(Extracted(Members(db, 1)))
  {
    hide Name, CutFrom, Complete;
    FewestParts(db, 1, 0);
    RoundTripExactly(db, 1);
  }

  lemma OnlyParts(dir: Dir, n: nat)
    requires forall name :: name in dir <==> name in Names(n)
    ensures DATABASE !in dir && JOINING !in dir
  {
    hide IsPart, Names;
    OthersAreNotParts();
    forall name | name in dir ensures IsPart(name) {
      NamesAreParts(n, name);
    }
  }

  lemma CompleteCount(dir: Dir, n: nat)
    requires n > 0 && Numbered(dir, n)
    ensures Complete(dir) <==> n <= 1000
  {
    hide Numbered;
    forall m | 0 < m <= 1000 && Numbered(dir, m) ensures m == n {
      if m <= n {
        NumberedOnce(dir, m, n);
      } else {
        NumberedOnce(dir, n, m);
      }
    }
  }

  /** The snapshot as capsule members. */
  method DatabaseMembers(db: Bytes, size: nat) returns (members: seq<Member>)
    requires size > 0
    ensures members == Members(db, size)
  {
    if |db| <= size {
      return [Member(DATABASE, db)];
    }
    hide Name;
    members := [];
    var rest, i := db, 0;
    while |rest| > 0
      invariant members + CutFrom(rest, size, i) == CutFrom(db, size, 0)
      decreases |rest|
    {
      var n := if |rest| < size then |rest| else size;
      members := members + [Member(Name(i), rest[..n])];
      rest := rest[n..];
      i := i + 1;
    }
  }

  /** A backup restored: the snapshot comes back whole, or is refused, and refused exactly past a thousand parts. */
  method Restored(db: Bytes, size: nat) returns (r: Outcome, dir: Dir)
    requires size > 0
    ensures |db| <= size ==> r == NoParts && dir == map[DATABASE := db]
    ensures |db| > size && |Members(db, size)| <= 1000 ==> r == Done(db) && DATABASE in dir && dir[DATABASE] == db
    ensures |db| > size && |Members(db, size)| > 1000 ==> r == NotNumbered
  {
    var members := DatabaseMembers(db, size);
    var extracted := Extracted(members);
    r, dir := JoinDatabase(extracted, true);
    if |db| <= size {
      assert members[..|members| - 1] == [];
      assert Extracted(members[..|members| - 1]) == map[];
      assert extracted == map[DATABASE := db];
      OthersAreNotParts();
    } else {
      hide *;
      RoundTripExactly(db, size);
    }
  }
}
