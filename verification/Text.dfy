/** Splitting and joining on one character, stripping, and ordering strings, as Python does them. */
module Text {

  predicate Free(s: string, sep: char) { sep !in s }

  ghost predicate AllFree(parts: seq<string>, sep: char) {
    forall p | p in parts :: Free(p, sep)
  }

  function Join(parts: seq<string>, sep: char): string {
    if |parts| == 0 then ""
    else if |parts| == 1 then parts[0]
    else parts[0] + [sep] + Join(parts[1..], sep)
  }

  /** What a split becomes when a character is put in front. */
  function Extend(c: char, parts: seq<string>, sep: char): seq<string>
    requires |parts| > 0
  {
    if c == sep then [""] + parts else [[c] + parts[0]] + parts[1..]
  }

  /** Never empty: splitting "" gives one empty part. */
  function Split(s: string, sep: char): (parts: seq<string>)
    ensures |parts| > 0
  {
    if s == "" then [""] else Extend(s[0], Split(s[1..], sep), sep)
  }

  lemma SplitCons(c: char, t: string, sep: char)
    ensures Split([c] + t, sep) == Extend(c, Split(t, sep), sep)
  {
    assert ([c] + t)[1..] == t;
  }

  lemma ExtendFirst(c: char, a: seq<string>, b: seq<string>, sep: char)
    requires |a| > 0
    ensures Extend(c, a + b, sep) == Extend(c, a, sep) + b
  {
  }

  /** Splitting takes a string apart at every separator. */
  lemma {:induction false} SplitAt(a: string, b: string, sep: char)
    ensures Split(a + [sep] + b, sep) == Split(a, sep) + Split(b, sep)
  {
    if a == "" {
      SplitCons(sep, b, sep);
      assert a + [sep] + b == [sep] + b;
    } else {
      hide Split, Extend;
      var t := a[1..];
      SplitAt(t, b, sep);
      SplitCons(a[0], t, sep);
      SplitCons(a[0], t + [sep] + b, sep);
      ExtendFirst(a[0], Split(t, sep), Split(b, sep), sep);
      assert a == [a[0]] + t;
      assert a + [sep] + b == [a[0]] + (t + [sep] + b);
    }
  }

  lemma {:induction false} SplitOfFree(s: string, sep: char)
    ensures |Split(s, sep)| == 1 <==> Free(s, sep)
    ensures Free(s, sep) ==> Split(s, sep) == [s]
  {
    if s != "" {
      SplitOfFree(s[1..], sep);
      assert s == [s[0]] + s[1..];
    }
  }

  /** What was joined comes back, part by part, when no part holds the separator. */
  lemma {:induction false} SplitJoin(parts: seq<string>, sep: char)
    requires |parts| > 0 && AllFree(parts, sep)
    ensures Split(Join(parts, sep), sep) == parts
  {
    SplitOfFree(parts[0], sep);
    if |parts| > 1 {
      SplitJoin(parts[1..], sep);
      SplitAt(parts[0], Join(parts[1..], sep), sep);
    }
  }

  /** And otherwise more parts come back than were joined. */
  lemma {:induction false} PartsOfJoin(parts: seq<string>, sep: char)
    requires |parts| > 0
    ensures |Split(Join(parts, sep), sep)| >= |parts|
    ensures |Split(Join(parts, sep), sep)| == |parts| <==> AllFree(parts, sep)
  {
    SplitOfFree(parts[0], sep);
    assert parts == [parts[0]] + parts[1..];
    if |parts| > 1 {
      PartsOfJoin(parts[1..], sep);
      SplitAt(parts[0], Join(parts[1..], sep), sep);
    }
  }

  /** No part of a split holds the separator. */
  lemma {:induction false} SplitFree(s: string, sep: char)
    ensures AllFree(Split(s, sep), sep)
  {
    if s != "" {
      SplitFree(s[1..], sep);
      var rest := Split(s[1..], sep);
      assert Free(rest[0], sep);
      forall p | p in Split(s, sep) ensures Free(p, sep) {
        assert p in rest || p == "" || p == [s[0]] + rest[0];
      }
    }
  }

  /** As many parts as free ones were joined, whatever they hold, join to the same string only if they are the same. */
  lemma JoinInjective(a: seq<string>, b: seq<string>, sep: char)
    requires 0 < |a| == |b| && AllFree(a, sep)
    requires Join(a, sep) == Join(b, sep)
    ensures a == b
  {
    SplitJoin(a, sep);
    PartsOfJoin(b, sep);
    SplitJoin(b, sep);
  }

  /** A separator inside a part can as well stand one part further on. */
  lemma {:induction false} MoveSeparator(front: seq<string>, x: string, y: string, z: string,
                                         back: seq<string>, sep: char)
    ensures Join(front + [x + [sep] + y, z] + back, sep) == Join(front + [x, y + [sep] + z] + back, sep)
  {
    var a, b := front + [x + [sep] + y, z] + back, front + [x, y + [sep] + z] + back;
    if front == [] {
      assert a[1..] == [z] + back && b[1..] == [y + [sep] + z] + back;
      if back != [] {
        assert ([z] + back)[1..] == back && ([y + [sep] + z] + back)[1..] == back;
      }
      JoinHead(z, back, sep);
      JoinHead(y + [sep] + z, back, sep);
    } else {
      MoveSeparator(front[1..], x, y, z, back, sep);
      assert a[1..] == front[1..] + [x + [sep] + y, z] + back;
      assert b[1..] == front[1..] + [x, y + [sep] + z] + back;
    }
  }

  lemma JoinHead(p: string, back: seq<string>, sep: char)
    ensures Join([p] + back, sep) == if back == [] then p else p + [sep] + Join(back, sep)
  {
    assert ([p] + back)[1..] == back;
  }

  /** In order, without the empty ones. */
  function NonEmpty(parts: seq<string>): (r: seq<string>)
    ensures forall x :: x in r <==> x in parts && x != ""
  {
    if parts == [] then []
    else if parts[0] == "" then NonEmpty(parts[1..])
    else [parts[0]] + NonEmpty(parts[1..])
  }

  // ----- whitespace -----

  /** The characters that Python's `str.strip` removes. */
  predicate IsSpace(c: char) {
    var code := c as int;
    || 0x09 <= code <= 0x0d || 0x1c <= code <= 0x20 || 0x2000 <= code <= 0x200a
    || code in {0x85, 0xa0, 0x1680, 0x2028, 0x2029, 0x202f, 0x205f, 0x3000}
  }

  function StripLeft(s: string): string {
    if s != "" && IsSpace(s[0]) then StripLeft(s[1..]) else s
  }

  function StripRight(s: string): string {
    if s != "" && IsSpace(s[|s| - 1]) then StripRight(s[..|s| - 1]) else s
  }

  function Strip(s: string): string { StripRight(StripLeft(s)) }

  lemma {:induction false} StripRightFacts(s: string)
    ensures StripRight(s) <= s
    ensures StripRight(s) == "" || !IsSpace(StripRight(s)[|StripRight(s)| - 1])
  {
    if s != "" && IsSpace(s[|s| - 1]) {
      StripRightFacts(s[..|s| - 1]);
    }
  }

  lemma {:induction false} StripLeftFacts(s: string)
    ensures StripLeft(s) == "" || !IsSpace(StripLeft(s)[0])
    ensures forall c :: c in StripLeft(s) ==> c in s
  {
    if s != "" && IsSpace(s[0]) {
      StripLeftFacts(s[1..]);
    }
  }

  /** Stripping twice is stripping once, and adds no character. */
  lemma StripFacts(s: string)
    ensures Strip(Strip(s)) == Strip(s)
    ensures forall c :: c in Strip(s) ==> c in s
  {
    StripLeftFacts(s);
    StripRightFacts(StripLeft(s));
    var t := Strip(s);
    if t != "" {
      assert t[0] == StripLeft(s)[0];
    }
  }

  ghost predicate AllSpace(s: string) {
    forall c | c in s :: IsSpace(c)
  }

  /** Neither end is whitespace, and there is something between. */
  predicate Trimmed(s: string) {
    s != "" && !IsSpace(s[0]) && !IsSpace(s[|s| - 1])
  }

  lemma {:induction false} StripLeftPadded(l: string, s: string)
    requires AllSpace(l) && (s != "" ==> !IsSpace(s[0]))
    ensures StripLeft(l + s) == s
  {
    if l == "" {
      assert l + s == s;
    } else {
      StripLeftPadded(l[1..], s);
      assert (l + s)[0] == l[0] && (l + s)[1..] == l[1..] + s;
    }
  }

  lemma {:induction false} StripRightPadded(s: string, r: string)
    requires AllSpace(r) && (s != "" ==> !IsSpace(s[|s| - 1]))
    ensures StripRight(s + r) == s
  {
    if r == "" {
      assert s + r == s;
    } else {
      var last := |r| - 1;
      StripRightPadded(s, r[..last]);
      assert (s + r)[..|s| + last] == s + r[..last] && (s + r)[|s| + last] == r[last];
    }
  }

  /** Stripping takes off exactly the whitespace around, whatever stands between. */
  lemma StripPadded(l: string, s: string, r: string)
    requires AllSpace(l) && AllSpace(r) && (s == "" || Trimmed(s))
    ensures Strip(l + s + r) == s
  {
    assert l + s + r == l + (s + r);
    if s == "" {
      assert s + r == r;
      StripLeftPadded(l + r, "");
      assert l + r + "" == l + (s + r);
    } else {
      StripLeftPadded(l, s + r);
      StripRightPadded(s, r);
    }
  }

  /** Nothing is left of a text exactly if it is nothing but whitespace. */
  lemma StripBlank(s: string)
    ensures Strip(s) == "" <==> AllSpace(s)
  {
    if AllSpace(s) {
      StripPadded(s, "", "");
      assert s + "" + "" == s;
    } else {
      var c :| c in s && !IsSpace(c);
      StripLeftKeeps(s, c);
      StripRightKeeps(StripLeft(s), c);
    }
  }

  lemma {:induction false} StripLeftKeeps(s: string, c: char)
    requires c in s && !IsSpace(c)
    ensures c in StripLeft(s)
  {
    if IsSpace(s[0]) {
      assert s == [s[0]] + s[1..];
      StripLeftKeeps(s[1..], c);
    }
  }

  lemma {:induction false} StripRightKeeps(s: string, c: char)
    requires c in s && !IsSpace(c)
    ensures c in StripRight(s)
  {
    if IsSpace(s[|s| - 1]) {
      assert s == s[..|s| - 1] + [s[|s| - 1]];
      StripRightKeeps(s[..|s| - 1], c);
    }
  }

  /** The whitespace of Python's `str`, character by character. */
  const WHITESPACE: string :=
    "\t\n\U{0B}\U{0C}\r\U{1C}\U{1D}\U{1E}\U{1F} \U{85}\U{A0}\U{1680}"
    + "\U{2000}\U{2001}\U{2002}\U{2003}\U{2004}\U{2005}\U{2006}\U{2007}\U{2008}\U{2009}\U{200A}"
    + "\U{2028}\U{2029}\U{202F}\U{205F}\U{3000}"

  lemma WhitespaceIs(c: char)
    ensures IsSpace(c) <==> c in WHITESPACE
  {
    var a := "\t\n\U{0B}\U{0C}\r\U{1C}\U{1D}\U{1E}\U{1F} \U{85}\U{A0}\U{1680}";
    var b := "\U{2000}\U{2001}\U{2002}\U{2003}\U{2004}\U{2005}\U{2006}\U{2007}\U{2008}\U{2009}\U{200A}";
    assert c in WHITESPACE <==> c in a || c in b || c in "\U{2028}\U{2029}\U{202F}\U{205F}\U{3000}";
  }

  // ----- numbers -----

  /** The decimal text of a number. */
  function Decimal(n: nat): string {
    if n < 10 then [(n + '0' as int) as char] else Decimal(n / 10) + Decimal(n % 10)
  }

  // ----- order -----

  /** Code-point order, the order of `sorted` on strings. */
  predicate LexLe(a: string, b: string) {
    a == "" || (b != "" && (a[0] < b[0] || (a[0] == b[0] && LexLe(a[1..], b[1..]))))
  }

  /** That order in full: the first place where two texts differ decides, and a prefix comes first. */
  lemma {:induction false} LexLeMeans(p: string, x: char, a: string, y: char, b: string)
    requires x < y
    ensures LexLe(p + ([x] + a), p + ([y] + b)) && !LexLe(p + ([y] + b), p + ([x] + a))
    ensures LexLe(p, p + ([x] + a)) && !LexLe(p + ([x] + a), p)
  {
    var s, t := [x] + a, [y] + b;
    if p == "" {
      assert p + s == s && p + t == t;
    } else {
      LexLeMeans(p[1..], x, a, y, b);
      assert (p + s)[0] == p[0] && (p + s)[1..] == p[1..] + s;
      assert (p + t)[0] == p[0] && (p + t)[1..] == p[1..] + t;
    }
  }

  lemma {:induction false} LexTotal(a: string, b: string)
    ensures LexLe(a, b) || LexLe(b, a)
  {
    if a != "" && b != "" {
      LexTotal(a[1..], b[1..]);
    }
  }

  predicate InOrder(xs: seq<string>) {
    |xs| <= 1 || (LexLe(xs[0], xs[1]) && InOrder(xs[1..]))
  }

  function Insert(x: string, xs: seq<string>): seq<string> {
    if xs == [] then [x]
    else if LexLe(x, xs[0]) then [x] + xs
    else [xs[0]] + Insert(x, xs[1..])
  }

  function Sorted(xs: seq<string>): seq<string> {
    if xs == [] then [] else Insert(xs[0], Sorted(xs[1..]))
  }

  lemma {:induction false} InsertFacts(x: string, xs: seq<string>)
    requires InOrder(xs)
    ensures InOrder(Insert(x, xs)) && multiset(Insert(x, xs)) == multiset(xs) + multiset{x}
    ensures Insert(x, xs)[0] == x || (xs != [] && Insert(x, xs)[0] == xs[0])
  {
    if xs != [] {
      var rest := xs[1..];
      assert xs == [xs[0]] + rest;
      if LexLe(x, xs[0]) {
        assert ([x] + xs)[1..] == xs;
      } else {
        InsertFacts(x, rest);
        LexTotal(x, xs[0]);
        var tail := Insert(x, rest);
        assert ([xs[0]] + tail)[1..] == tail;
      }
    }
  }

  /** Sorting orders, and only reorders. */
  lemma {:induction false} SortedFacts(xs: seq<string>)
    ensures InOrder(Sorted(xs)) && multiset(Sorted(xs)) == multiset(xs)
  {
    if xs != [] {
      SortedFacts(xs[1..]);
      InsertFacts(xs[0], Sorted(xs[1..]));
      assert xs == [xs[0]] + xs[1..];
    }
  }

  lemma SortedMembers(xs: seq<string>)
    ensures |Sorted(xs)| == |xs|
    ensures forall x :: x in Sorted(xs) <==> x in xs
  {
    SortedFacts(xs);
    assert |multiset(Sorted(xs))| == |multiset(xs)|;
    forall x ensures x in Sorted(xs) <==> x in xs {
      assert x in multiset(Sorted(xs)) <==> x in Sorted(xs);
      assert x in multiset(xs) <==> x in xs;
    }
  }
}
