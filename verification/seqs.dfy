/** Sequence helpers: Python slicing, counting, sums and flattening. */
module Seqs {

  function Min(a: int, b: int): int
  {
    if a <= b then a else b
  }

  /** numpy's `row[:c]` for a non-negative bound `c`: at most `c` leading elements. */
  function Take<T>(s: seq<T>, c: nat): (r: seq<T>)
    ensures |r| == Min(c, |s|) && r == s[..|r|]
  {
    s[..Min(c, |s|)]
  }

  /** Python's `s[:c]` for any integer `c`: a negative bound counts back from the end. */
  function PyPrefix<T>(s: seq<T>, c: int): (r: seq<T>)
    ensures |r| <= |s| && r == s[..|r|]
    ensures 0 <= c ==> r == Take(s, c)
  {
    if 0 <= c then Take(s, c)
    else if |s| + c < 0 then []
    else s[..|s| + c]
  }

  /** Number of positions of `s` holding `x`. */
  function Occurrences<T(==)>(s: seq<T>, x: T): (n: nat)
    ensures n <= |s|
  {
    if |s| == 0 then 0
    else (if s[0] == x then 1 else 0) + Occurrences(s[1..], x)
  }

  lemma {:induction false} OccurrencesConcat<T>(a: seq<T>, b: seq<T>, x: T)
    ensures Occurrences(a + b, x) == Occurrences(a, x) + Occurrences(b, x)
  {
    if |a| == 0 {
      assert a + b == b;
    } else {
      assert (a + b)[1..] == a[1..] + b;
      OccurrencesConcat(a[1..], b, x);
    }
  }

  lemma {:induction false} OccurrencesPositive<T>(s: seq<T>, x: T)
    ensures x in s <==> Occurrences(s, x) > 0
  {
    if |s| > 0 {
      OccurrencesPositive(s[1..], x);
      assert x in s <==> s[0] == x || x in s[1..];
    }
  }

  function Sum(s: seq<nat>): nat
  {
    if |s| == 0 then 0 else s[0] + Sum(s[1..])
  }

  lemma {:induction false} SumConcat(a: seq<nat>, b: seq<nat>)
    ensures Sum(a + b) == Sum(a) + Sum(b)
  {
    if |a| == 0 {
      assert a + b == b;
    } else {
      assert (a + b)[1..] == a[1..] + b;
      SumConcat(a[1..], b);
    }
  }

  /** Concatenation of the pieces, in order. */
  function Flatten<T>(parts: seq<seq<T>>): seq<T>
  {
    if |parts| == 0 then [] else parts[0] + Flatten(parts[1..])
  }

  lemma {:induction false} FlattenConcat<T>(a: seq<seq<T>>, b: seq<seq<T>>)
    ensures Flatten(a + b) == Flatten(a) + Flatten(b)
  {
    if |a| == 0 {
      assert a + b == b;
    } else {
      assert (a + b)[1..] == a[1..] + b;
      FlattenConcat(a[1..], b);
    }
  }

  lemma FlattenSingle<T>(x: seq<T>)
    ensures Flatten([x]) == x
  {
    assert [x][1..] == [];
  }

  lemma SumSingle(x: nat)
    ensures Sum([x]) == x
  {
    assert [x][1..] == [];
  }

  /** Appending the next piece to what precedes it extends the flattened prefix by one. */
  lemma AppendPiece<T>(base: seq<T>, parts: seq<seq<T>>, i: nat)
    requires i < |parts|
    ensures base + Flatten(parts[..i]) + parts[i] == base + Flatten(parts[..i + 1])
  {
    FlattenSnoc(parts, i);
  }

  /** Flattening one more piece of a prefix appends that piece. */
  lemma FlattenSnoc<T>(parts: seq<seq<T>>, i: nat)
    requires i < |parts|
    ensures Flatten(parts[..i + 1]) == Flatten(parts[..i]) + parts[i]
  {
    assert parts[..i + 1] == parts[..i] + [parts[i]];
    FlattenConcat(parts[..i], [parts[i]]);
    FlattenSingle(parts[i]);
  }

  /** The elements of `s` passed through `f`, in order. */
  function MapSeq<A, B>(f: A -> B, s: seq<A>): (r: seq<B>)
    ensures |r| == |s| && forall i :: 0 <= i < |s| ==> r[i] == f(s[i])
  {
    seq(|s|, i requires 0 <= i < |s| => f(s[i]))
  }

  /** `MapSeq` applied to every piece. */
  function MapEach<A, B>(f: A -> B, parts: seq<seq<A>>): (r: seq<seq<B>>)
    ensures |r| == |parts| && forall j :: 0 <= j < |parts| ==> r[j] == MapSeq(f, parts[j])
  {
    seq(|parts|, j requires 0 <= j < |parts| => MapSeq(f, parts[j]))
  }

  /** The sum of each piece passed through `f`. */
  function SumEach<A>(f: A -> nat, parts: seq<seq<A>>): (r: seq<nat>)
    ensures |r| == |parts| && forall j :: 0 <= j < |parts| ==> r[j] == Sum(MapSeq(f, parts[j]))
  {
    seq(|parts|, j requires 0 <= j < |parts| => Sum(MapSeq(f, parts[j])))
  }

  /** The length of each piece. */
  function Lengths<T>(parts: seq<seq<T>>): (r: seq<nat>)
    ensures |r| == |parts| && forall j :: 0 <= j < |parts| ==> r[j] == |parts[j]|
  {
    seq(|parts|, j requires 0 <= j < |parts| => |parts[j]|)
  }

  lemma MapConcat<A, B>(f: A -> B, a: seq<A>, b: seq<A>)
    ensures MapSeq(f, a + b) == MapSeq(f, a) + MapSeq(f, b)
  {
  }

  /** Mapping piece by piece and then flattening is mapping the flattened pieces. */
  lemma {:induction false} FlattenMapEach<A, B>(f: A -> B, parts: seq<seq<A>>)
    ensures Flatten(MapEach(f, parts)) == MapSeq(f, Flatten(parts))
  {
    if |parts| > 0 {
      FlattenMapEach(f, parts[1..]);
      assert MapEach(f, parts)[1..] == MapEach(f, parts[1..]);
      MapConcat(f, parts[0], Flatten(parts[1..]));
    }
  }

  /** Summing piece by piece and then adding up is summing the flattened pieces. */
  lemma {:induction false} SumOfSumEach<A>(f: A -> nat, parts: seq<seq<A>>)
    ensures Sum(SumEach(f, parts)) == Sum(MapSeq(f, Flatten(parts)))
  {
    if |parts| > 0 {
      SumOfSumEach(f, parts[1..]);
      assert SumEach(f, parts)[1..] == SumEach(f, parts[1..]);
      MapConcat(f, parts[0], Flatten(parts[1..]));
      SumConcat(MapSeq(f, parts[0]), MapSeq(f, Flatten(parts[1..])));
    }
  }

  /** A flattening is as long as its pieces together. */
  lemma {:induction false} FlattenLength<T>(parts: seq<seq<T>>)
    ensures |Flatten(parts)| == Sum(Lengths(parts))
  {
    if |parts| > 0 {
      FlattenLength(parts[1..]);
      assert Lengths(parts)[1..] == Lengths(parts[1..]);
    }
  }

  /** Every element of a flattening comes from one of the pieces. */
  lemma {:induction false} FlattenWidth<T>(parts: seq<seq<seq<T>>>, w: nat)
    requires forall j, i :: 0 <= j < |parts| && 0 <= i < |parts[j]| ==> |parts[j][i]| == w
    ensures forall k :: 0 <= k < |Flatten(parts)| ==> |Flatten(parts)[k]| == w
  {
    if |parts| > 0 {
      FlattenWidth(parts[1..], w);
      var rest := Flatten(parts[1..]);
      assert Flatten(parts) == parts[0] + rest;
      forall k | 0 <= k < |Flatten(parts)|
        ensures |Flatten(parts)[k]| == w
      {
        if k < |parts[0]| {
          assert Flatten(parts)[k] == parts[0][k];
        } else {
          assert Flatten(parts)[k] == rest[k - |parts[0]|];
        }
      }
    }
  }
}
