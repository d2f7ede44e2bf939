/**
 * The JavaScript array idioms the application uses: `filter`, the
 * `indexOf(x) === index` duplicate filter (first occurrence wins), removing
 * every occurrence of a value, and the notion of an order-preserving
 * sub-sequence.
 */
module Lists {

  /** No value occurs twice. */
  predicate Distinct<T(==)>(s: seq<T>) {
    forall i, j :: 0 <= i < j < |s| ==> s[i] != s[j]
  }

  /** `s.filter(p)`. */
  function Filter<T>(s: seq<T>, p: T -> bool): (r: seq<T>)
    ensures |r| <= |s|
  {
    if s == [] then [] else (if p(s[0]) then [s[0]] else []) + Filter(s[1..], p)
  }

  lemma {:induction false} FilterMembers<T>(s: seq<T>, p: T -> bool)
    ensures forall x :: x in Filter(s, p) <==> x in s && p(x)
  {
    if s != [] {
      FilterMembers(s[1..], p);
      assert forall x :: x in s <==> x == s[0] || x in s[1..];
    }
  }

  lemma {:induction false} FilterConcat<T>(a: seq<T>, b: seq<T>, p: T -> bool)
    ensures Filter(a + b, p) == Filter(a, p) + Filter(b, p)
  {
    if a != [] {
      var h := if p(a[0]) then [a[0]] else [];
      assert (a + b)[0] == a[0];
      assert (a + b)[1..] == a[1..] + b;
      FilterConcat(a[1..], b, p);
      calc {
        Filter(a + b, p);
        h + Filter(a[1..] + b, p);
        h + (Filter(a[1..], p) + Filter(b, p));
        (h + Filter(a[1..], p)) + Filter(b, p);
      }
    } else {
      assert a + b == b;
    }
  }

  /** A filter keeps a distinct sequence distinct. */
  lemma {:induction false} FilterDistinct<T>(s: seq<T>, p: T -> bool)
    requires Distinct(s)
    ensures Distinct(Filter(s, p))
  {
    if s != [] {
      FilterDistinct(s[1..], p);
      FilterMembers(s[1..], p);
      assert s[0] !in s[1..];
    }
  }

  /** `r` is `s` with some positions left out, the rest in order. */
  predicate IsSubsequence<T(==)>(r: seq<T>, s: seq<T>)
    decreases |s|
  {
    if s == [] then r == []
    else (r != [] && r[0] == s[0] && IsSubsequence(r[1..], s[1..])) || IsSubsequence(r, s[1..])
  }

  lemma {:induction false} SubsequenceRefl<T>(s: seq<T>)
    ensures IsSubsequence(s, s)
  {
    if s != [] {
      SubsequenceRefl(s[1..]);
    }
  }

  /** A filter keeps the order of what it keeps. */
  lemma {:induction false} FilterSubsequence<T>(s: seq<T>, p: T -> bool)
    ensures IsSubsequence(Filter(s, p), s)
  {
    if s != [] {
      FilterSubsequence(s[1..], p);
      if p(s[0]) {
        var r := Filter(s, p);
        assert r == [s[0]] + Filter(s[1..], p);
        assert r[1..] == Filter(s[1..], p);
      } else {
        assert Filter(s, p) == Filter(s[1..], p);
      }
    }
  }

  /** `s.map(f)`. */
  function Map<T, U>(s: seq<T>, f: T -> U): (r: seq<U>)
    ensures |r| == |s|
    ensures forall i :: 0 <= i < |s| ==> r[i] == f(s[i])
  {
    if s == [] then [] else [f(s[0])] + Map(s[1..], f)
  }

  /** Every occurrence of `x` removed, the rest in order (`s.filter(y => y !== x)`). */
  function RemoveAll<T(==)>(s: seq<T>, x: T): (r: seq<T>)
    ensures x !in r
    ensures forall i :: 0 <= i < |r| ==> r[i] in s
    ensures forall i :: 0 <= i < |s| && s[i] != x ==> s[i] in r
    ensures |r| <= |s|
  {
    if s == [] then [] else (if s[0] == x then [] else [s[0]]) + RemoveAll(s[1..], x)
  }

  /** What `RemoveAll` keeps stays in order. */
  lemma {:induction false} RemoveAllSubsequence<T>(s: seq<T>, x: T)
    ensures IsSubsequence(RemoveAll(s, x), s)
  {
    if s != [] {
      RemoveAllSubsequence(s[1..], x);
      var r := RemoveAll(s, x);
      if s[0] == x {
        assert r == RemoveAll(s[1..], x);
      } else {
        assert r[1..] == RemoveAll(s[1..], x);
      }
    }
  }

  /** Removing what is absent changes nothing. */
  lemma {:induction false} RemoveAbsent<T>(s: seq<T>, x: T)
    requires x !in s
    ensures RemoveAll(s, x) == s
  {
    if s != [] {
      RemoveAbsent(s[1..], x);
    }
  }

  /** Toggling membership the way the application's chip and list handlers do:
      remove every occurrence when present, otherwise append at the end. */
  function Toggle<T(==)>(s: seq<T>, x: T): (r: seq<T>)
    ensures x in s ==> r == RemoveAll(s, x)
    ensures x !in s ==> r == s + [x]
  {
    if x in s then RemoveAll(s, x) else s + [x]
  }

  /** Toggling twice returns the original membership; when `x` was absent, the original sequence. */
  lemma ToggleTwice<T>(s: seq<T>, x: T)
    ensures forall y :: y in Toggle(Toggle(s, x), x) <==> y in s
    ensures x !in s ==> Toggle(Toggle(s, x), x) == s
  {
    if x !in s {
      RemoveAllAppended(s, x);
    }
  }

  /** Moving a finished part from the work still to do onto the result built so far. */
  lemma ShiftPart<T>(done: seq<T>, todo: seq<T>, part: seq<T>, rest: seq<T>, all: seq<T>)
    requires done + todo == all && todo == part + rest
    ensures (done + part) + rest == all
  {
    assert done + (part + rest) == (done + part) + rest;
  }

  /** Three parts joined left to right are the same parts joined right to left. */
  lemma Assoc<T>(a: seq<T>, b: seq<T>, c: seq<T>)
    ensures a + b + c == a + (b + c)
  {
  }

  /** Four parts joined left to right are the same parts joined right to left. */
  lemma Regroup<T>(a: seq<T>, b: seq<T>, c: seq<T>, d: seq<T>)
    ensures a + b + c + d == a + (b + (c + d))
  {
    assert a + b + c + d == a + (b + c + d);
  }

  /** A non-empty sequence is its head followed by its tail. */
  lemma HeadTail<T>(xs: seq<T>)
    requires xs != []
    ensures [xs[0]] + xs[1..] == xs
  {
    assert |[xs[0]] + xs[1..]| == |xs|;
  }

  /** Appending the head of a sequence and then its tail appends the whole sequence. */
  lemma AppendHead<T>(acc: seq<T>, vs: seq<T>)
    requires vs != []
    ensures acc + [vs[0]] + vs[1..] == acc + vs
  {
    assert [vs[0]] + vs[1..] == vs;
  }

  lemma {:induction false} RemoveAllAppended<T>(s: seq<T>, x: T)
    requires x !in s
    ensures RemoveAll(s + [x], x) == s
  {
    if s == [] {
      assert RemoveAll([x], x) == [] + RemoveAll([x][1..], x);
    } else {
      assert (s + [x])[1..] == s[1..] + [x];
      RemoveAllAppended(s[1..], x);
    }
  }

  /** Removing `x` from a sequence with `x` appended is removing it from the sequence. */
  lemma {:induction false} RemoveAllAfterAppend<T>(s: seq<T>, x: T)
    ensures RemoveAll(s + [x], x) == RemoveAll(s, x)
  {
    if s == [] {
      assert RemoveAll([x], x) == [] + RemoveAll([x][1..], x);
    } else {
      assert (s + [x])[1..] == s[1..] + [x];
      RemoveAllAfterAppend(s[1..], x);
    }
  }

  /** First-occurrence de-duplication, in the order the first occurrences appear.
      This is also the key order of a JavaScript object filled by assigning the
      keys `s[0]`, `s[1]`, ... in turn. */
  function Dedup<T(==)>(s: seq<T>): seq<T> {
    if s == [] then []
    else
      var d := Dedup(s[..|s| - 1]);
      if s[|s| - 1] in d then d else d + [s[|s| - 1]]
  }

  lemma {:induction false} DedupMembers<T>(s: seq<T>)
    ensures forall x :: x in Dedup(s) <==> x in s
  {
    if s != [] {
      DedupMembers(s[..|s| - 1]);
      assert forall x :: x in s <==> x in s[..|s| - 1] || x == s[|s| - 1];
    }
  }

  lemma {:induction false} DedupDistinct<T>(s: seq<T>)
    ensures Distinct(Dedup(s))
  {
    if s != [] {
      DedupDistinct(s[..|s| - 1]);
    }
  }

  /** A distinct sequence is its own de-duplication. */
  lemma {:induction false} DedupOfDistinct<T>(s: seq<T>)
    requires Distinct(s)
    ensures Dedup(s) == s
  {
    if s != [] {
      var p := s[..|s| - 1];
      DedupOfDistinct(p);
      assert s[|s| - 1] !in p;
      assert p + [s[|s| - 1]] == s;
    }
  }

  /** `s.filter((x, i) => s.indexOf(x) === i)`, position by position: the values not seen before. */
  function KeepFirstOccurrences<T(==)>(s: seq<T>): seq<T> {
    if s == [] then []
    else
      var p := s[..|s| - 1];
      KeepFirstOccurrences(p) + (if s[|s| - 1] in p then [] else [s[|s| - 1]])
  }

  /** The de-duplication is the `indexOf` filter. */
  lemma {:induction false} DedupIsIndexOfFilter<T>(s: seq<T>)
    ensures Dedup(s) == KeepFirstOccurrences(s)
  {
    if s != [] {
      var p := s[..|s| - 1];
      DedupIsIndexOfFilter(p);
      DedupMembers(p);
    }
  }

  /** Filtering a sequence that starts with a known value. */
  lemma FilterCons<T>(a: T, b: seq<T>, p: T -> bool)
    ensures Filter([a] + b, p) == (if p(a) then [a] else []) + Filter(b, p)
  {
    assert ([a] + b)[1..] == b;
  }

  /** Mapping a sequence that starts with a known value. */
  lemma MapCons<T, U>(a: T, b: seq<T>, f: T -> U)
    ensures Map([a] + b, f) == [f(a)] + Map(b, f)
  {
    assert ([a] + b)[1..] == b;
  }

  /** Index of the first occurrence of `x`. */
  function FirstIndex<T(==)>(s: seq<T>, x: T): (i: nat)
    requires x in s
    ensures i < |s| && s[i] == x && x !in s[..i]
  {
    if s[0] == x then 0 else 1 + FirstIndex(s[1..], x)
  }

  lemma {:induction false} FirstIndexPrefix<T>(s: seq<T>, n: nat, x: T)
    requires n <= |s| && x in s[..n]
    ensures x in s && FirstIndex(s, x) == FirstIndex(s[..n], x)
  {
    var i := FirstIndex(s[..n], x);
    var j := FirstIndex(s, x);
    assert s[..n][..i] == s[..i];
  }

  /** Every value of `d` occurs in `s`, and `d` lists them in the order of their first occurrence in `s`. */
  predicate InFirstOccurrenceOrder<T(==)>(d: seq<T>, s: seq<T>) {
    forall i, j :: 0 <= i < j < |d| ==> d[i] in s && d[j] in s && FirstIndex(s, d[i]) < FirstIndex(s, d[j])
  }

  /** The de-duplication lists values in the order of their first occurrence. */
  lemma {:induction false} DedupOrder<T>(s: seq<T>)
    ensures InFirstOccurrenceOrder(Dedup(s), s)
  {
    DedupMembers(s);
    if s != [] {
      DedupOrder(s[..|s| - 1]);
      forall i, j | 0 <= i < j < |Dedup(s)|
        ensures Dedup(s)[i] in s && Dedup(s)[j] in s && FirstIndex(s, Dedup(s)[i]) < FirstIndex(s, Dedup(s)[j])
      {
        DedupOrderStep(s, i, j);
      }
    }
    assert InFirstOccurrenceOrder(Dedup(s), s);
  }

  lemma DedupOrderStep<T>(s: seq<T>, i: nat, j: nat)
    requires s != [] && i < j < |Dedup(s)|
    requires InFirstOccurrenceOrder(Dedup(s[..|s| - 1]), s[..|s| - 1])
    ensures Dedup(s)[i] in s && Dedup(s)[j] in s
    ensures FirstIndex(s, Dedup(s)[i]) < FirstIndex(s, Dedup(s)[j])
  {
    var p := s[..|s| - 1];
    var d := Dedup(p);
    var last := s[|s| - 1];
    assert Dedup(s) == if last in d then d else d + [last];
    if j < |d| {
      assert Dedup(s)[i] == d[i] && Dedup(s)[j] == d[j];
      OrderInPrefix(s, i, j);
    } else {
      assert Dedup(s)[i] == d[i] && Dedup(s)[j] == last && last !in d;
      OrderBeforeLast(s, i);
    }
  }

  /** Two values already kept from the prefix keep their order in the whole sequence. */
  lemma OrderInPrefix<T>(s: seq<T>, i: nat, j: nat)
    requires s != [] && i < j < |Dedup(s[..|s| - 1])|
    requires InFirstOccurrenceOrder(Dedup(s[..|s| - 1]), s[..|s| - 1])
    ensures var d := Dedup(s[..|s| - 1]);
      d[i] in s && d[j] in s && FirstIndex(s, d[i]) < FirstIndex(s, d[j])
  {
    var p := s[..|s| - 1];
    var d := Dedup(p);
    assert d[i] in p && d[j] in p && FirstIndex(p, d[i]) < FirstIndex(p, d[j]);
    FirstIndexPrefix(s, |s| - 1, d[i]);
    FirstIndexPrefix(s, |s| - 1, d[j]);
  }

  /** A value kept from the prefix comes before a new last value. */
  lemma OrderBeforeLast<T>(s: seq<T>, i: nat)
    requires s != [] && i < |Dedup(s[..|s| - 1])|
    requires s[|s| - 1] !in Dedup(s[..|s| - 1])
    ensures var d := Dedup(s[..|s| - 1]);
      d[i] in s && s[|s| - 1] in s && FirstIndex(s, d[i]) < FirstIndex(s, s[|s| - 1])
  {
    var p := s[..|s| - 1];
    DedupIndexIn(p, i);
    DedupMembers(p);
    FirstIndexPrefix(s, |s| - 1, Dedup(p)[i]);
    assert s[|s| - 1] !in p;
  }

  /** A kept value is a value of the sequence. */
  lemma DedupIndexIn<T>(p: seq<T>, i: nat)
    requires i < |Dedup(p)|
    ensures Dedup(p)[i] in p
  {
    DedupMembers(p);
    assert Dedup(p)[i] in Dedup(p);
  }

  /** `showAll ? s : s.slice(0, limit)`: the rows a preview table shows. */
  function Shown<T>(s: seq<T>, showAll: bool, limit: nat): (r: seq<T>)
    ensures showAll ==> r == s
    ensures !showAll ==> |r| == (if |s| < limit then |s| else limit) && r == s[..|r|]
  {
    if showAll || |s| <= limit then s else s[..limit]
  }

  /** Number of positions holding a value in `xs`. */
  function CountIn<T(==)>(s: seq<T>, xs: seq<T>): nat {
    if s == [] then 0 else (if s[0] in xs then 1 else 0) + CountIn(s[1..], xs)
  }
}
