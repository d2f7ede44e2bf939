/**
 * The JavaScript string built-ins the application leans on, stated over
 * `seq<char>`: `trim`, `split` on one character, `join`, `includes`,
 * `startsWith`/`endsWith`, and ASCII `toLowerCase`/`toUpperCase`.
 */
module JsText {

  /** JavaScript's WhiteSpace and LineTerminator code points: exactly what `String.prototype.trim` removes. */
  predicate IsSpace(c: char) {
    var n := c as int;
    (9 <= n <= 13) || n == 0x20 || n == 0xA0 || n == 0x1680 || (0x2000 <= n <= 0x200A)
    || n == 0x2028 || n == 0x2029 || n == 0x202F || n == 0x205F || n == 0x3000 || n == 0xFEFF
  }

  function TrimStart(s: string): (r: string)
    ensures |r| <= |s| && r == s[|s| - |r|..]
    ensures r == [] || !IsSpace(r[0])
  {
    if |s| > 0 && IsSpace(s[0]) then TrimStart(s[1..]) else s
  }

  function TrimEnd(s: string): (r: string)
    ensures |r| <= |s| && r == s[..|r|]
    ensures r == [] || !IsSpace(r[|r| - 1])
  {
    if |s| > 0 && IsSpace(s[|s| - 1]) then TrimEnd(s[..|s| - 1]) else s
  }

  /** `s.trim()`. */
  function Trim(s: string): string {
    TrimEnd(TrimStart(s))
  }

  /** A string that `trim` leaves unchanged. */
  predicate Trimmed(s: string) {
    s == [] || (!IsSpace(s[0]) && !IsSpace(s[|s| - 1]))
  }

  /** What `trim` returns is the middle of `s` left once exactly the white space at both ends is
      removed: a slice of `s` with only white space around it, and nothing left to trim at either end. */
  lemma {:induction false} TrimSpec(s: string)
    ensures Trimmed(Trim(s))
    ensures |Trim(s)| <= |s|
    ensures exists i, j :: 0 <= i <= j <= |s| && Trim(s) == s[i..j] &&
              (forall k :: 0 <= k < i || j <= k < |s| ==> IsSpace(s[k]))
  {
    var t := TrimStart(s);
    TrimEndKeepsStart(t);
    var i := |s| - |t|;
    var j := i + |TrimEnd(t)|;
    TrimSlice(s, t, i, j);
    TrimStartSkips(s);
    TrimEndAround(s, t, i, j);
    assert forall k :: 0 <= k < i || j <= k < |s| ==> IsSpace(s[k]);
  }

  /** The slice `trim` keeps. */
  lemma TrimSlice(s: string, t: string, i: nat, j: nat)
    requires t == TrimStart(s) && i == |s| - |t| && j == i + |TrimEnd(t)|
    ensures j <= |s| && Trim(s) == s[i..j]
  {
    assert t == s[i..];
    assert TrimEnd(t) == t[..j - i];
    SliceOfSuffix(s, i, j - i);
  }

  /** Cutting `s[i..]` at `n` is cutting `s` at `i + n`. */
  lemma SliceOfSuffix(s: string, i: nat, n: nat)
    requires i + n <= |s|
    ensures s[i..][..n] == s[i..i + n]
  {
  }

  lemma TrimEndAround(s: string, t: string, i: nat, j: nat)
    requires i <= |s| && t == s[i..] && j == i + |TrimEnd(t)|
    ensures forall k :: j <= k < |s| ==> IsSpace(s[k])
  {
    TrimEndSkips(t);
    forall k | j <= k < |s|
      ensures IsSpace(s[k])
    {
      assert s[k] == t[k - i];
    }
  }

  lemma {:induction false} TrimStartSkips(s: string)
    ensures forall k :: 0 <= k < |s| - |TrimStart(s)| ==> IsSpace(s[k])
  {
    if |s| > 0 && IsSpace(s[0]) {
      TrimStartSkips(s[1..]);
    }
  }

  lemma {:induction false} TrimEndSkips(s: string)
    ensures forall k :: |TrimEnd(s)| <= k < |s| ==> IsSpace(s[k])
  {
    if |s| > 0 && IsSpace(s[|s| - 1]) {
      TrimEndSkips(s[..|s| - 1]);
    }
  }

  lemma {:induction false} TrimEndKeepsStart(s: string)
    requires s == [] || !IsSpace(s[0])
    ensures TrimEnd(s) == [] || !IsSpace(TrimEnd(s)[0])
  {
  }

  /** A trimmed string is its own trim. */
  lemma {:induction false} TrimOfTrimmed(s: string)
    requires Trimmed(s)
    ensures Trim(s) == s
  {
    assert TrimStart(s) == s;
  }

  /** `trim` is idempotent. */
  lemma TrimIdempotent(s: string)
    ensures Trim(Trim(s)) == Trim(s)
  {
    TrimSpec(s);
    TrimOfTrimmed(Trim(s));
  }

  /** Leading white space never survives `trim`. */
  lemma {:induction false} TrimSkipsLeadingSpace(c: char, s: string)
    requires IsSpace(c)
    ensures Trim([c] + s) == Trim(s)
  {
    assert ([c] + s)[1..] == s;
  }

  /** `trim` adds no character. */
  lemma TrimFree(s: string, c: char)
    requires c !in s
    ensures c !in Trim(s)
  {
    var t := TrimStart(s);
    assert t == s[|s| - |t|..];
    assert Trim(s) == t[..|Trim(s)|];
  }

  /** `trim` yields the empty string exactly when the input is all white space. */
  lemma {:induction false} TrimEmptyIff(s: string)
    ensures Trim(s) == [] <==> forall k :: 0 <= k < |s| ==> IsSpace(s[k])
  {
    TrimStartSkips(s);
    if forall k :: 0 <= k < |s| ==> IsSpace(s[k]) {
      AllSpaceTrimStart(s);
    }
    if TrimStart(s) != [] {
      assert TrimEnd(TrimStart(s)) != [] by {
        assert !IsSpace(TrimStart(s)[0]);
        TrimEndNonEmpty(TrimStart(s));
      }
    }
  }

  lemma {:induction false} AllSpaceTrimStart(s: string)
    requires forall k :: 0 <= k < |s| ==> IsSpace(s[k])
    ensures TrimStart(s) == []
  {
    if |s| > 0 {
      AllSpaceTrimStart(s[1..]);
    }
  }

  lemma {:induction false} TrimEndNonEmpty(s: string)
    requires s != [] && !IsSpace(s[0])
    ensures TrimEnd(s) != []
  {
    if IsSpace(s[|s| - 1]) {
      assert |s| > 1;
      TrimEndNonEmpty(s[..|s| - 1]);
    }
  }

  /** Number of occurrences of `c` in `s`. */
  function Count(s: string, c: char): nat {
    if s == [] then 0 else (if s[0] == c then 1 else 0) + Count(s[1..], c)
  }

  /** `s.split(c)` for a one-character separator: never empty, one more piece than separators. */
  function Split(s: string, c: char): (r: seq<string>)
    ensures |r| == Count(s, c) + 1
  {
    if s == [] then [[]]
    else
      var rest := Split(s[1..], c);
      if s[0] == c then [[]] + rest else [[s[0]] + rest[0]] + rest[1..]
  }

  /** No piece of a split contains the separator. */
  lemma {:induction false} SplitPiecesFree(s: string, c: char)
    ensures forall k :: 0 <= k < |Split(s, c)| ==> c !in Split(s, c)[k]
  {
    if s != [] {
      SplitPiecesFree(s[1..], c);
    }
  }

  /** Splitting text that starts with a separator-free piece and a separator. */
  lemma {:induction false} SplitAfterPiece(a: string, c: char, b: string)
    requires c !in a
    ensures Split(a + [c] + b, c) == [a] + Split(b, c)
  {
    if a == [] {
      assert a + [c] + b == [c] + b;
      assert ([c] + b)[1..] == b;
    } else {
      assert (a + [c] + b)[1..] == a[1..] + [c] + b;
      SplitAfterPiece(a[1..], c, b);
      assert (a + [c] + b)[0] == a[0] != c;
      assert [a[0]] + a[1..] == a;
    }
  }

  /** A separator-free string splits into itself. */
  lemma {:induction false} SplitFree(a: string, c: char)
    requires c !in a
    ensures Split(a, c) == [a]
  {
    if a != [] {
      SplitFree(a[1..], c);
      assert a[0] != c;
      assert [a[0]] + a[1..] == a;
    }
  }

  /** The first piece of a split is the text up to the first separator, or the whole text. */
  lemma {:induction false} FirstPieceSpec(s: string, c: char)
    ensures var p := Split(s, c)[0];
      c !in p && |p| <= |s| && s[..|p|] == p && (p == s || s[|p|] == c)
  {
    if s != [] {
      FirstPieceSpec(s[1..], c);
    }
  }

  /** `xs.join(sep)`. */
  function Join(xs: seq<string>, sep: string): string {
    if xs == [] then []
    else if |xs| == 1 then xs[0]
    else xs[0] + sep + Join(xs[1..], sep)
  }

  /** Joining separator-free pieces and splitting again gives the pieces back. */
  lemma {:induction false} SplitJoin(pieces: seq<string>, c: char)
    requires |pieces| >= 1
    requires forall k :: 0 <= k < |pieces| ==> c !in pieces[k]
    ensures Split(Join(pieces, [c]), c) == pieces
  {
    if |pieces| == 1 {
      SplitFree(pieces[0], c);
    } else {
      SplitJoin(pieces[1..], c);
      SplitAfterPiece(pieces[0], c, Join(pieces[1..], [c]));
      assert [pieces[0]] + pieces[1..] == pieces;
    }
  }

  /** `s.startsWith(p)`. */
  predicate StartsWith(s: string, p: string) {
    |p| <= |s| && s[..|p|] == p
  }

  /** `s.endsWith(p)`. */
  predicate EndsWith(s: string, p: string) {
    |p| <= |s| && s[|s| - |p|..] == p
  }

  /** A concatenation starts with its first part and ends with its second. */
  lemma ConcatEnds(a: string, b: string)
    ensures StartsWith(a + b, a) && EndsWith(a + b, b)
  {
    assert (a + b)[..|a|] == a;
    assert (a + b)[|a + b| - |b|..] == b;
  }

  /** A prefix of a text is a prefix of any longer text that starts with it. */
  lemma StartsWithGrows(s: string, p: string, b: string)
    requires StartsWith(s, p)
    ensures StartsWith(s + b, p)
  {
    assert (s + b)[..|p|] == s[..|p|];
  }

  /** In `a`, `c`, `t` with no `c` in `t`, the last `c` is the one after `a`, and what follows it is `t`. */
  lemma LastIndexBeforeTail(s: string, a: string, c: char, t: string)
    requires s == a + [c] + t && c !in t
    ensures LastIndexOf(s, c) == |a|
    ensures SubstringFrom(s, |a| + 1) == t
  {
    assert s[|a|] == c;
    assert s[|a| + 1..] == t;
    forall k | |a| < k < |s| ensures s[k] != c {
      assert s[k] == t[k - |a| - 1];
      assert t[k - |a| - 1] in t;
    }
    LastIndexIs(s, c, |a|);
  }

  /** A `c` with none after it is the last one. */
  lemma LastIndexIs(s: string, c: char, i: nat)
    requires i < |s| && s[i] == c
    requires forall k :: i < k < |s| ==> s[k] != c
    ensures LastIndexOf(s, c) == i
  {
    var r := LastIndexOf(s, c);
    assert i <= r;
  }

  /** `s.includes(t)`: `t` occurs in `s` at some position. */
  predicate Includes(s: string, t: string)
    decreases |s|
  {
    StartsWith(s, t) || (s != [] && Includes(s[1..], t))
  }

  /** A string never includes a longer one. */
  lemma {:induction false} IncludesNoLonger(s: string, t: string)
    requires |t| > |s|
    ensures !Includes(s, t)
  {
    if s != [] {
      IncludesNoLonger(s[1..], t);
    }
  }

  /** `t` occurs in `s` starting at index `i`. */
  predicate OccursAt(s: string, t: string, i: nat) {
    i + |t| <= |s| && s[i..i + |t|] == t
  }

  /** `includes` holds exactly when `t` occurs in `s` at some index. */
  lemma {:induction false} IncludesIff(s: string, t: string)
    ensures Includes(s, t) <==> exists i: nat :: OccursAt(s, t, i)
  {
    if s == [] {
      if exists i: nat :: OccursAt(s, t, i) {
        var i: nat :| OccursAt(s, t, i);
        assert StartsWith(s, t);
      }
      if StartsWith(s, t) {
        assert OccursAt(s, t, 0);
      }
    } else {
      IncludesIff(s[1..], t);
      if exists i: nat :: OccursAt(s, t, i) {
        var i: nat :| OccursAt(s, t, i);
        if i > 0 {
          assert s[1..][i - 1..i - 1 + |t|] == s[i..i + |t|];
          assert OccursAt(s[1..], t, i - 1);
        } else {
          assert StartsWith(s, t);
        }
      }
      if StartsWith(s, t) {
        assert OccursAt(s, t, 0);
      }
      if exists i: nat :: OccursAt(s[1..], t, i) {
        var i: nat :| OccursAt(s[1..], t, i);
        assert s[i + 1..i + 1 + |t|] == s[1..][i..i + |t|];
        assert OccursAt(s, t, i + 1);
      }
    }
  }

  /** A one-character `includes` is membership. */
  lemma {:induction false} IncludesChar(s: string, c: char)
    ensures Includes(s, [c]) <==> c in s
  {
    IncludesIff(s, [c]);
    if c in s {
      var i :| 0 <= i < |s| && s[i] == c;
      assert OccursAt(s, [c], i);
    }
    if exists i: nat :: OccursAt(s, [c], i) {
      var i: nat :| OccursAt(s, [c], i);
      assert s[i] == s[i..i + 1][0] == c;
    }
  }

  function LowerChar(c: char): char {
    if 'A' <= c <= 'Z' then (c as int + 32) as char else c
  }

  function UpperChar(c: char): char {
    if 'a' <= c <= 'z' then (c as int - 32) as char else c
  }

  /** `s.toLowerCase()` on the ASCII letters. */
  function ToLower(s: string): (r: string)
    ensures |r| == |s|
    ensures forall k :: 0 <= k < |s| ==> r[k] == LowerChar(s[k])
  {
    if s == [] then [] else [LowerChar(s[0])] + ToLower(s[1..])
  }

  /** `s.toUpperCase()` on the ASCII letters. */
  function ToUpper(s: string): (r: string)
    ensures |r| == |s|
    ensures forall k :: 0 <= k < |s| ==> r[k] == UpperChar(s[k])
  {
    if s == [] then [] else [UpperChar(s[0])] + ToUpper(s[1..])
  }

  /** Index of the last `c` in `s`, or -1 (`s.lastIndexOf(c)`). */
  function LastIndexOf(s: string, c: char): (r: int)
    ensures -1 <= r < |s|
    ensures r >= 0 ==> s[r] == c
    ensures forall k :: r < k < |s| ==> s[k] != c
  {
    if s == [] then -1
    else if s[|s| - 1] == c then |s| - 1
    else LastIndexOf(s[..|s| - 1], c)
  }

  /** `s.substring(k)` for any integer `k`: a negative start counts as 0. */
  function SubstringFrom(s: string, k: int): string {
    if k <= 0 then s else if k >= |s| then [] else s[k..]
  }

  function Digit(d: nat): char
    requires d < 10
  {
    ('0' as int + d) as char
  }

  /** A number written in decimal (`String(n)`). */
  function NatText(n: nat): (r: string)
    ensures r != [] && forall k :: 0 <= k < |r| ==> '0' <= r[k] <= '9'
    decreases n
  {
    if n < 10 then [Digit(n)] else NatText(n / 10) + [Digit(n % 10)]
  }
}
