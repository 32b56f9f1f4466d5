/** The string operations the adapters use: Go's `strings.Split`, `strings.SplitN(s, sep, 2)`,
    `strings.Replace(s, " ", "", -1)`, `strings.TrimSuffix(s, ".")`, and the byte-wise
    ordering that `sort.Sort` applies to a target list. */
module Strings {

  /** Number of occurrences of `c` in `s`. */
  function Count(s: string, c: char): nat {
    multiset(s)[c]
  }

  /** `strings.Split(s, string(sep))`: the pieces between separators, in order. */
  function Split(s: string, sep: char): (parts: seq<string>)
    ensures |parts| >= 1
    decreases |s|
  {
    if s == [] then [""]
    else
      var rest := Split(s[1..], sep);
      if s[0] == sep then [""] + rest else [[s[0]] + rest[0]] + rest[1..]
  }

  /** `strings.Join(parts, string(sep))`. */
  function Join(parts: seq<string>, sep: char): string
    decreases |parts|
  {
    if parts == [] then ""
    else if |parts| == 1 then parts[0]
    else parts[0] + [sep] + Join(parts[1..], sep)
  }

  lemma {:induction false} SplitCount(s: string, sep: char)
    ensures |Split(s, sep)| == Count(s, sep) + 1
    decreases |s|
  {
    if s != [] {
      SplitCount(s[1..], sep);
      assert s == [s[0]] + s[1..];
      assert multiset(s) == multiset{s[0]} + multiset(s[1..]);
    }
  }

  lemma {:induction false} SplitPiecesHaveNoSeparator(s: string, sep: char)
    ensures forall p | p in Split(s, sep) :: sep !in p
    decreases |s|
  {
    if s != [] {
      SplitPiecesHaveNoSeparator(s[1..], sep);
      var rest := Split(s[1..], sep);
      assert rest[0] in rest;
      assert forall p | p in rest[1..] :: p in rest;
    }
  }

  /** Joining the pieces gives the string back. */
  lemma {:induction false} JoinSplit(s: string, sep: char)
    ensures Join(Split(s, sep), sep) == s
    decreases |s|
  {
    if s != [] {
      JoinSplit(s[1..], sep);
      var rest := Split(s[1..], sep);
      if s[0] == sep {
        assert ([""] + rest)[1..] == rest;
      } else {
        var parts := [[s[0]] + rest[0]] + rest[1..];
        assert parts[1..] == rest[1..];
        if |rest| == 1 {
          assert Join(parts, sep) == [s[0]] + rest[0];
        } else {
          assert Join(rest, sep) == rest[0] + [sep] + Join(rest[1..], sep);
        }
      }
    }
  }

  lemma {:induction false} SplitWithoutSeparator(s: string, sep: char)
    requires sep !in s
    ensures Split(s, sep) == [s]
    decreases |s|
  {
    if s != [] {
      assert s[0] in s;
      assert forall c | c in s[1..] :: c in s;
      SplitWithoutSeparator(s[1..], sep);
      assert [s[0]] + s[1..] == s;
    }
  }

  lemma {:induction false} SplitAtSeparator(p: string, sep: char, t: string)
    requires sep !in p
    ensures Split(p + [sep] + t, sep) == [p] + Split(t, sep)
    decreases |p|
  {
    if p == [] {
      assert p + [sep] + t == [sep] + t;
      assert ([sep] + t)[1..] == t;
    } else {
      var s := p + [sep] + t;
      assert s[0] == p[0] && s[1..] == p[1..] + [sep] + t;
      SplitAtSeparator(p[1..], sep, t);
      assert [p[0]] + p[1..] == p;
    }
  }

  /** Splitting a join of separator-free pieces gives the pieces back. */
  lemma {:induction false} SplitJoin(parts: seq<string>, sep: char)
    requires |parts| >= 1
    requires forall p | p in parts :: sep !in p
    ensures Split(Join(parts, sep), sep) == parts
    decreases |parts|
  {
    if |parts| == 1 {
      SplitWithoutSeparator(parts[0], sep);
    } else {
      SplitJoin(parts[1..], sep);
      SplitAtSeparator(parts[0], sep, Join(parts[1..], sep));
      assert [parts[0]] + parts[1..] == parts;
    }
  }

  /** What a split into exactly two pieces says about the string. */
  lemma SplitInTwo(s: string, sep: char)
    requires |Split(s, sep)| == 2
    ensures s == Split(s, sep)[0] + [sep] + Split(s, sep)[1]
    ensures sep !in Split(s, sep)[0] && sep !in Split(s, sep)[1]
  {
    var parts := Split(s, sep);
    JoinSplit(s, sep);
    SplitPiecesHaveNoSeparator(s, sep);
    assert parts[0] in parts && parts[1] in parts;
    assert Join(parts[1..], sep) == parts[1];
  }

  /** `strings.SplitN(s, string(sep), 2)`: the text before the first separator and
      everything after it, or the whole string when there is no separator. */
  function SplitFirst(s: string, sep: char): (parts: seq<string>)
    ensures |parts| == 1 || |parts| == 2
    decreases |s|
  {
    if s == [] then [""]
    else if s[0] == sep then ["", s[1..]]
    else
      var rest := SplitFirst(s[1..], sep);
      [[s[0]] + rest[0]] + rest[1..]
  }

  /** SplitFirst splits iff the separator occurs, at its first occurrence. */
  lemma {:induction false} SplitFirstSpec(s: string, sep: char)
    ensures |SplitFirst(s, sep)| == 2 <==> sep in s
    ensures |SplitFirst(s, sep)| == 1 ==> SplitFirst(s, sep)[0] == s
    ensures |SplitFirst(s, sep)| == 2 ==>
      && s == SplitFirst(s, sep)[0] + [sep] + SplitFirst(s, sep)[1]
      && sep !in SplitFirst(s, sep)[0]
    decreases |s|
  {
    if s != [] && s[0] != sep {
      SplitFirstSpec(s[1..], sep);
      assert s == [s[0]] + s[1..];
    }
  }

  /** Splitting a string built as `before + sep + after` at the first separator. */
  lemma {:induction false} SplitFirstAt(before: string, sep: char, after: string)
    requires sep !in before
    ensures SplitFirst(before + [sep] + after, sep) == [before, after]
    decreases |before|
  {
    var s := before + [sep] + after;
    if before == [] {
      assert s == [sep] + after;
      assert s[1..] == after;
    } else {
      assert s[0] == before[0] && s[1..] == before[1..] + [sep] + after;
      SplitFirstAt(before[1..], sep, after);
      assert [before[0]] + before[1..] == before;
    }
  }

  /** `strings.Replace(s, " ", "", -1)`. */
  function RemoveSpaces(s: string): (r: string)
    decreases |s|
  {
    if s == [] then "" else (if s[0] == ' ' then "" else [s[0]]) + RemoveSpaces(s[1..])
  }

  lemma {:induction false} RemoveSpacesSpec(s: string)
    ensures ' ' !in RemoveSpaces(s)
    ensures forall c | c != ' ' :: Count(RemoveSpaces(s), c) == Count(s, c)
    ensures ' ' !in s ==> RemoveSpaces(s) == s
    decreases |s|
  {
    if s != [] {
      RemoveSpacesSpec(s[1..]);
      assert s == [s[0]] + s[1..];
      assert multiset(s) == multiset([s[0]]) + multiset(s[1..]);
      var head: string := if s[0] == ' ' then "" else [s[0]];
      assert RemoveSpaces(s) == head + RemoveSpaces(s[1..]);
      assert multiset(RemoveSpaces(s)) == multiset(head) + multiset(RemoveSpaces(s[1..]));
      assert ' ' !in head;
      forall c | c != ' ' ensures Count(RemoveSpaces(s), c) == Count(s, c) {
        assert multiset(head)[c] == multiset([s[0]])[c];
        assert Count(RemoveSpaces(s[1..]), c) == Count(s[1..], c);
        assert Count(s, c) == multiset([s[0]])[c] + Count(s[1..], c);
        assert Count(RemoveSpaces(s), c) == multiset(head)[c] + Count(RemoveSpaces(s[1..]), c);
      }
      if ' ' !in s {
        assert s[0] in s;
        assert forall c | c in s[1..] :: c in s;
        assert RemoveSpaces(s[1..]) == s[1..];
        assert head == [s[0]];
      }
    }
  }

  lemma {:induction false} RemoveSpacesAppend(s: string, t: string)
    ensures RemoveSpaces(s + t) == RemoveSpaces(s) + RemoveSpaces(t)
    decreases |s|
  {
    if s == [] {
      assert s + t == t;
    } else {
      assert (s + t)[0] == s[0] && (s + t)[1..] == s[1..] + t;
      RemoveSpacesAppend(s[1..], t);
    }
  }

  /** `strings.TrimSuffix(s, ".")`: at most one trailing dot is removed. */
  function TrimDot(s: string): (r: string)
    ensures r == s || r + "." == s
    ensures s == r + "." <==> (|s| > 0 && s[|s| - 1] == '.')
  {
    if |s| > 0 && s[|s| - 1] == '.' then s[..|s| - 1] else s
  }

  /** TrimDot on every element, keeping the order. */
  function TrimDots(ss: seq<string>): (r: seq<string>)
    ensures |r| == |ss|
    ensures forall i | 0 <= i < |ss| :: r[i] == TrimDot(ss[i])
    decreases |ss|
  {
    if ss == [] then [] else [TrimDot(ss[0])] + TrimDots(ss[1..])
  }

  /** The list splitter of the hostname annotation: spaces removed, then split on commas. */
  function SplitList(s: string): (r: seq<string>)
  {
    Split(RemoveSpaces(s), ',')
  }

  /** The splitter of a rendered FQDN template and of the target annotation:
      SplitList, then one trailing dot trimmed from each piece. */
  function SplitTrimmed(s: string): (r: seq<string>)
  {
    TrimDots(SplitList(s))
  }

  /** Shape of a trimmed list: one piece per comma plus one, no spaces, no commas,
      and the i-th is the i-th comma-separated piece with one trailing dot trimmed. */
  lemma SplitTrimmedShape(s: string)
    ensures |SplitTrimmed(s)| == Count(s, ',') + 1
    ensures forall h | h in SplitTrimmed(s) :: ' ' !in h && ',' !in h
    ensures forall i | 0 <= i < |SplitTrimmed(s)| ::
      SplitTrimmed(s)[i] == TrimDot(SplitList(s)[i])
  {
    RemoveSpacesSpec(s);
    SplitCount(RemoveSpaces(s), ',');
    SplitPiecesHaveNoSeparator(RemoveSpaces(s), ',');
    var parts := SplitList(s);
    forall h | h in SplitTrimmed(s) ensures ' ' !in h && ',' !in h {
      var i :| 0 <= i < |parts| && h == TrimDot(parts[i]);
      assert parts[i] in parts;
      assert multiset(parts[i]) == multiset(RemoveSpaces(s)[0..0] + parts[i]);
      SpaceFreePiece(RemoveSpaces(s), parts[i]);
    }
  }

  lemma SpaceFreePiece(s: string, p: string)
    requires ' ' !in s
    requires p in Split(s, ',')
    ensures ' ' !in p && ' ' !in TrimDot(p)
  {
    JoinSplit(s, ',');
    JoinedPieceIsPart(Split(s, ','), ',', p);
    forall i | 0 <= i < |TrimDot(p)| ensures TrimDot(p)[i] != ' ' {
      assert TrimDot(p)[i] == p[i];
    }
  }

  lemma {:induction false} JoinedPieceIsPart(parts: seq<string>, sep: char, p: string)
    requires p in parts
    ensures forall c | c in p :: c in Join(parts, sep)
    decreases |parts|
  {
    if |parts| > 1 && p != parts[0] {
      assert p in parts[1..];
      JoinedPieceIsPart(parts[1..], sep, p);
    }
  }

  /** A comma-separated list of clean hostnames, with or without spaces after the
      commas, splits back into exactly those hostnames in their order. */
  lemma {:induction false} SplitTrimmedOfList(hs: seq<string>)
    requires |hs| >= 1
    requires forall h | h in hs :: ' ' !in h && ',' !in h && (h == [] || h[|h| - 1] != '.')
    ensures SplitTrimmed(Join(hs, ',')) == hs
    ensures SplitTrimmed(JoinSpaced(hs)) == hs
  {
    NoSpaceJoin(hs);
    RemoveSpacesSpec(Join(hs, ','));
    SplitJoin(hs, ',');
    SpacedJoinStripsToJoin(hs);
    forall i | 0 <= i < |hs| ensures TrimDot(hs[i]) == hs[i] {
      assert hs[i] in hs;
    }
  }

  /** The hostname annotation `"a, b, c"` yields `a`, `b`, `c` in that order. */
  lemma SplitListOfList(hs: seq<string>)
    requires |hs| >= 1
    requires forall h | h in hs :: ' ' !in h && ',' !in h
    ensures SplitList(JoinSpaced(hs)) == hs
    ensures SplitList(Join(hs, ',')) == hs
  {
    NoSpaceJoin(hs);
    RemoveSpacesSpec(Join(hs, ','));
    SpacedJoinStripsToJoin(hs);
    SplitJoin(hs, ',');
  }

  /** A rendered template `"a., b"` yields `a`, `b`: one trailing dot goes from each hostname. */
  lemma SplitTrimmedOfDotted(hs: seq<string>)
    requires |hs| >= 1
    requires forall h | h in hs :: ' ' !in h && ',' !in h
    ensures SplitTrimmed(JoinSpaced(hs)) == TrimDots(hs)
  {
    SplitListOfList(hs);
  }

  /** `strings.Join(hs, ", ")`. */
  function JoinSpaced(hs: seq<string>): string
    decreases |hs|
  {
    if hs == [] then ""
    else if |hs| == 1 then hs[0]
    else hs[0] + ", " + JoinSpaced(hs[1..])
  }

  lemma {:induction false} NoSpaceJoin(hs: seq<string>)
    requires forall h | h in hs :: ' ' !in h
    ensures ' ' !in Join(hs, ',')
    decreases |hs|
  {
    if |hs| > 1 {
      NoSpaceJoin(hs[1..]);
      assert hs[0] in hs;
    } else if |hs| == 1 {
      assert hs[0] in hs;
    }
  }

  lemma {:induction false} SpacedJoinStripsToJoin(hs: seq<string>)
    requires forall h | h in hs :: ' ' !in h
    ensures RemoveSpaces(JoinSpaced(hs)) == Join(hs, ',')
    decreases |hs|
  {
    if |hs| == 1 {
      assert hs[0] in hs;
      RemoveSpacesSpec(hs[0]);
    } else if |hs| > 1 {
      assert hs[0] in hs;
      SpacedJoinStripsToJoin(hs[1..]);
      RemoveSpacesSpec(hs[0]);
      RemoveSpacesAppend(hs[0] + ", ", JoinSpaced(hs[1..]));
      RemoveSpacesAppend(hs[0], ", ");
      assert RemoveSpaces(", ") == ",";
      assert hs[0] + ", " + JoinSpaced(hs[1..]) == (hs[0] + ", ") + JoinSpaced(hs[1..]);
    }
  }

  // ----- ordering and sorting of target lists -----

  /** Lexicographic order on code points, which is the byte order of the UTF-8 encodings Go compares. */
  predicate LessEq(a: string, b: string)
    decreases |a|
  {
    a == [] || (b != [] && (a[0] < b[0] || (a[0] == b[0] && LessEq(a[1..], b[1..]))))
  }

  lemma {:induction false} LessEqTotal(a: string, b: string)
    ensures LessEq(a, b) || LessEq(b, a)
    decreases |a|
  {
    if a != [] && b != [] && a[0] == b[0] {
      LessEqTotal(a[1..], b[1..]);
    }
  }

  lemma {:induction false} LessEqTransitive(a: string, b: string, c: string)
    requires LessEq(a, b) && LessEq(b, c)
    ensures LessEq(a, c)
    decreases |a|
  {
    if a != [] && a[0] == b[0] && b[0] == c[0] {
      LessEqTransitive(a[1..], b[1..], c[1..]);
    }
  }

  lemma {:induction false} LessEqAntisymmetric(a: string, b: string)
    requires LessEq(a, b) && LessEq(b, a)
    ensures a == b
    decreases |a|
  {
    if a != [] {
      LessEqAntisymmetric(a[1..], b[1..]);
      assert a == [a[0]] + a[1..] && b == [b[0]] + b[1..];
    }
  }

  predicate Sorted(s: seq<string>) {
    forall i, j | 0 <= i < j < |s| :: LessEq(s[i], s[j])
  }

  /** Insert `x` before the first element it is not greater than. */
  function Insert(x: string, s: seq<string>): (r: seq<string>)
    requires Sorted(s)
    ensures Sorted(r) && multiset(r) == multiset(s) + multiset{x}
    decreases |s|
  {
    if s == [] then [x]
    else if LessEq(x, s[0]) then
      InsertFront(x, s);
      [x] + s
    else
      var rest := Insert(x, s[1..]);
      InsertBehind(x, s, rest);
      [s[0]] + rest
  }

  lemma InsertFront(x: string, s: seq<string>)
    requires Sorted(s) && s != [] && LessEq(x, s[0])
    ensures Sorted([x] + s)
  {
    var r := [x] + s;
    forall i, j | 0 <= i < j < |r| ensures LessEq(r[i], r[j]) {
      if i == 0 && j > 1 { LessEqTransitive(x, s[0], s[j - 1]); }
    }
  }

  lemma InsertBehind(x: string, s: seq<string>, rest: seq<string>)
    requires Sorted(s) && s != [] && !LessEq(x, s[0])
    requires Sorted(rest) && multiset(rest) == multiset(s[1..]) + multiset{x}
    ensures Sorted([s[0]] + rest)
    ensures multiset([s[0]] + rest) == multiset(s) + multiset{x}
  {
    LessEqTotal(x, s[0]);
    forall j | 0 <= j < |rest| ensures LessEq(s[0], rest[j]) {
      assert rest[j] in multiset(rest);
      if rest[j] != x {
        assert rest[j] in multiset(s[1..]);
        var k :| 0 <= k < |s[1..]| && s[1..][k] == rest[j];
        assert s[k + 1] == rest[j];
      }
    }
    assert s == [s[0]] + s[1..];
  }

  /** The sorted permutation of a target list (an insertion sort). */
  function Sort(s: seq<string>): (r: seq<string>)
    ensures Sorted(r) && multiset(r) == multiset(s)
    decreases |s|
  {
    if s == [] then []
    else
      assert s == [s[0]] + s[1..];
      Insert(s[0], Sort(s[1..]))
  }

  lemma SortedHeadIsLeast(a: seq<string>, x: string)
    requires Sorted(a) && x in multiset(a)
    ensures a != [] && LessEq(a[0], x)
  {
    var k :| 0 <= k < |a| && a[k] == x;
    if k == 0 { LessEqTotal(x, x); }
  }

  lemma MultisetOfTail(a: seq<string>)
    requires a != []
    ensures multiset(a[1..]) == multiset(a) - multiset{a[0]}
  {
    assert a == [a[0]] + a[1..];
  }

  /** Two sorted permutations of one multiset are equal, so every correct sort
      (in particular Go's `sort.Sort`, which is not stable) returns Sort(s). */
  lemma {:induction false} SortedPermutationsAreEqual(a: seq<string>, b: seq<string>)
    requires Sorted(a) && Sorted(b) && multiset(a) == multiset(b)
    ensures a == b
    decreases |a|
  {
    if a == [] {
      assert |b| == |multiset(b)| == 0;
    } else {
      assert a[0] in multiset(a);
      SortedHeadIsLeast(b, a[0]);
      assert b[0] in multiset(b);
      SortedHeadIsLeast(a, b[0]);
      LessEqAntisymmetric(a[0], b[0]);
      MultisetOfTail(a);
      MultisetOfTail(b);
      assert Sorted(a[1..]) && Sorted(b[1..]);
      SortedPermutationsAreEqual(a[1..], b[1..]);
      assert a == [a[0]] + a[1..] && b == [b[0]] + b[1..];
    }
  }

  /** Sorting is idempotent and is the identity on sorted lists. */
  lemma SortOfSorted(s: seq<string>)
    requires Sorted(s)
    ensures Sort(s) == s
  {
    SortedPermutationsAreEqual(Sort(s), s);
  }
}
