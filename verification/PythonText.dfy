/** The few string and byte operations of Python's standard library that the modelled code relies on. */
module PythonText {
  /** What str.strip removes: the characters str.isspace accepts. */
  predicate Space(c: char) {
    || '\t' <= c <= '\r' || '\U{001C}' <= c <= ' ' || c in {'\U{0085}', '\U{00A0}', '\U{1680}'}
    || '\U{2000}' <= c <= '\U{200A}' || c in {'\U{2028}', '\U{2029}', '\U{202F}', '\U{205F}', '\U{3000}'}
  }

  function LeftStrip(s: string): (r: string)
    ensures r == [] || !Space(r[0])
    ensures |r| <= |s| && r == s[|s| - |r|..] && forall c | c in s[..|s| - |r|] :: Space(c)
  {
    if s != [] && Space(s[0]) then LeftStrip(s[1..]) else s
  }

  function RightStrip(s: string): (r: string)
    ensures r == [] || !Space(r[|r| - 1])
    ensures |r| <= |s| && r == s[..|r|] && forall c | c in s[|r|..] :: Space(c)
  {
    if s != [] && Space(s[|s| - 1]) then RightStrip(s[..|s| - 1]) else s
  }

  /** str.strip: the longest middle part that neither begins nor ends with a space. */
  function Strip(s: string): string {
    RightStrip(LeftStrip(s))
  }

  predicate Blank(s: string) {
    forall c | c in s :: Space(c)
  }

  lemma Middle(s: string, left: string, strip: string)
    requires |strip| <= |left| <= |s| && left == s[|s| - |left|..] && strip == left[..|strip|]
    ensures s == s[..|s| - |left|] + strip + left[|strip|..]
  {
    assert left == strip + left[|strip|..];
  }

  /** Stripping takes spaces from both ends and nothing else, and leaves none there. */
  lemma StripExactly(s: string) returns (a: string, b: string)
    ensures s == a + Strip(s) + b && Blank(a) && Blank(b)
    ensures Strip(s) != "" ==> !Space(Strip(s)[0]) && !Space(Strip(s)[|Strip(s)| - 1])
    ensures Strip(s) == "" <==> Blank(s)
  {
    var left, strip := LeftStrip(s), Strip(s);
    assert strip == RightStrip(left) && (strip != "" ==> !Space(strip[|strip| - 1]) && strip[0] == left[0]);
    assert forall c | c in left[|strip|..] :: Space(c);
    Middle(s, left, strip);
    a, b := s[..|s| - |left|], left[|strip|..];
    hide LeftStrip, RightStrip, Strip, Space;
    BlankParts(a, strip, b);
  }

  lemma BlankParts(a: string, strip: string, b: string)
    requires Blank(a) && Blank(b) && (strip != "" ==> !Space(strip[0]))
    ensures Blank(a + strip + b) <==> strip == ""
  {
    hide Space;
    if strip != "" {
      assert (a + strip + b)[|a|] == strip[0];
    }
  }

  /** str.find of one item, or the length when it does not occur. */
  function Find<T(==)>(s: seq<T>, c: T): (i: nat)
    ensures i <= |s| && c !in s[..i]
    ensures i < |s| ==> s[i] == c
    ensures i == |s| <==> c !in s
  {
    if s == [] || s[0] == c then 0 else 1 + Find(s[1..], c)
  }

  /** str.split on one item. */
  function Split<T(==)>(s: seq<T>, c: T): (pieces: seq<seq<T>>)
    ensures pieces != []
    decreases |s|
  {
    var i := Find(s, c);
    if i == |s| then [s] else [s[..i]] + Split(s[i + 1..], c)
  }

  /** str.join with one item. */
  function Join<T(==)>(pieces: seq<seq<T>>, c: T): seq<T> {
    if pieces == [] then []
    else if |pieces| == 1 then pieces[0]
    else pieces[0] + [c] + Join(pieces[1..], c)
  }

  /** str.partition: what precedes the first occurrence of an item, and what follows it. */
  function Before<T(==)>(s: seq<T>, c: T): seq<T> {
    s[..Find(s, c)]
  }

  function After<T(==)>(s: seq<T>, c: T): seq<T> {
    if Find(s, c) == |s| then [] else s[Find(s, c) + 1..]
  }

  lemma Associative<T>(a: seq<T>, b: seq<T>, c: seq<T>)
    ensures a + (b + c) == (a + b) + c
  {
  }

  lemma {:induction false} FindAt<T>(a: seq<T>, c: T, b: seq<T>)
    requires c !in a
    ensures Find(a + [c] + b, c) == |a|
  {
    if a != [] {
      FindAt(a[1..], c, b);
      assert (a + [c] + b)[1..] == a[1..] + [c] + b;
    }
  }

  lemma SplitAt<T>(a: seq<T>, c: T, b: seq<T>)
    requires c !in a
    ensures Split(a + [c] + b, c) == [a] + Split(b, c)
  {
    FindAt(a, c, b);
    assert (a + [c] + b)[..|a|] == a;
    assert (a + [c] + b)[|a| + 1..] == b;
  }

  lemma SplitFirst<T>(s: seq<T>, c: T)
    requires c in s
    ensures s == Before(s, c) + [c] + After(s, c) && c !in Before(s, c) && |After(s, c)| < |s|
    ensures Split(s, c) == [Before(s, c)] + Split(After(s, c), c)
  {
  }

  /** Splitting undoes joining, as long as no piece holds the separator. */
  lemma {:induction false} SplitJoin<T>(pieces: seq<seq<T>>, c: T)
    requires pieces != [] && forall p | p in pieces :: c !in p
    ensures Split(Join(pieces, c), c) == pieces
  {
    if |pieces| > 1 {
      SplitJoin(pieces[1..], c);
      SplitAt(pieces[0], c, Join(pieces[1..], c));
    }
  }

  /** Pieces hold items of the whole, and never the separator. */
  lemma {:induction false} PiecesFree<T>(s: seq<T>, c: T)
    ensures forall p | p in Split(s, c) :: c !in p && forall d | d in p :: d in s
    decreases |s|
  {
    if Find(s, c) < |s| {
      PiecesFree(s[Find(s, c) + 1..], c);
    }
  }

  lemma PartitionAt<T>(a: seq<T>, c: T, b: seq<T>)
    requires c !in a
    ensures Before(a + [c] + b, c) == a && After(a + [c] + b, c) == b
  {
    FindAt(a, c, b);
  }

  lemma PartitionNone<T>(s: seq<T>, c: T)
    requires c !in s
    ensures Before(s, c) == s && After(s, c) == []
  {
  }

  // ---- sorted -------------------------------------------------------------------------------------

  /** The order of strings: by the first character in which they differ. */
  predicate Leq(a: string, b: string) {
    a == "" || (b != "" && (a[0] < b[0] || (a[0] == b[0] && Leq(a[1..], b[1..]))))
  }

  lemma {:induction false} LeqTotal(a: string, b: string)
    ensures Leq(a, b) || Leq(b, a)
    ensures Leq(a, b) && Leq(b, a) ==> a == b
  {
    if a != "" && b != "" {
      LeqTotal(a[1..], b[1..]);
      assert a == [a[0]] + a[1..] && b == [b[0]] + b[1..];
    }
  }

  lemma {:induction false} LeqTransitive(a: string, b: string, c: string)
    requires Leq(a, b) && Leq(b, c)
    ensures Leq(a, c)
  {
    if a != "" && a[0] == b[0] == c[0] {
      LeqTransitive(a[1..], b[1..], c[1..]);
    }
  }

  predicate Least(x: string, s: set<string>) {
    x in s && forall y | y in s :: Leq(x, y)
  }

  lemma {:induction false} LeastExists(s: set<string>)
    requires s != {}
    ensures exists x :: Least(x, s)
    decreases |s|
  {
    var x :| x in s;
    LeqTotal(x, x);
    if s == {x} {
      assert Least(x, s);
    } else {
      LeastExists(s - {x});
      var y :| Least(y, s - {x});
      LeqTotal(x, y);
      if Leq(x, y) {
        forall z | z in s ensures Leq(x, z) {
          if z != x {
            LeqTransitive(x, y, z);
          }
        }
        assert Least(x, s);
      } else {
        assert Least(y, s);
      }
    }
  }

  lemma LeastUnique(s: set<string>)
    ensures forall x, y :: Least(x, s) && Least(y, s) ==> x == y
  {
    forall x, y | Least(x, s) && Least(y, s) ensures x == y {
      LeqTotal(x, y);
    }
  }

  /** sorted(s) of a set of strings. */
  function Sorted(s: set<string>): (r: seq<string>)
    ensures forall x :: x in r <==> x in s
    decreases |s|
  {
    if s == {} then []
    else
      LeastExists(s);
      LeastUnique(s);
      var x :| x in s && Least(x, s);
      [x] + Sorted(s - {x})
  }
}
