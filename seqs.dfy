/** Generic sequence functions: reversal, flattening and their laws. */
module Seqs {

  function Reverse<T>(s: seq<T>): (r: seq<T>)
    ensures |r| == |s|
  {
    if s == [] then [] else Reverse(s[1..]) + [s[0]]
  }

  /** Concatenation of a sequence of sequences, left to right. */
  function Flatten<T>(ss: seq<seq<T>>): seq<T> {
    if ss == [] then [] else ss[0] + Flatten(ss[1..])
  }

  /** The sum of the lengths of the inner sequences. */
  function TotalLength<T>(ss: seq<seq<T>>): nat {
    if ss == [] then 0 else |ss[0]| + TotalLength(ss[1..])
  }

  /** Reversing puts an element appended at the end in front. */
  lemma {:induction false} ReverseSnoc<T>(s: seq<T>, x: T)
    ensures Reverse(s + [x]) == [x] + Reverse(s)
  {
    if s == [] {
      assert [x][1..] == [];
    } else {
      assert (s + [x])[1..] == s[1..] + [x];
      ReverseSnoc(s[1..], x);
    }
  }

  lemma {:induction false} FlattenAppend<T>(a: seq<seq<T>>, b: seq<seq<T>>)
    ensures Flatten(a + b) == Flatten(a) + Flatten(b)
    ensures TotalLength(a + b) == TotalLength(a) + TotalLength(b)
  {
    if a == [] {
      assert a + b == b;
    } else {
      assert (a + b)[1..] == a[1..] + b;
      FlattenAppend(a[1..], b);
    }
  }

  /** Reversed then flattened: the first inner sequence ends up last, after all the others. */
  lemma FlattenReverseFirstLast<T>(ss: seq<seq<T>>)
    requires ss != []
    ensures Flatten(Reverse(ss)) == Flatten(Reverse(ss[1..])) + ss[0]
  {
    FlattenAppend(Reverse(ss[1..]), [ss[0]]);
    assert Flatten([ss[0]]) == ss[0] + Flatten([ss[0]][1..]);
    assert [ss[0]][1..] == [];
  }

  lemma {:induction false} FlattenReverseLength<T>(ss: seq<seq<T>>)
    ensures |Flatten(Reverse(ss))| == TotalLength(ss)
  {
    if ss != [] {
      FlattenReverseFirstLast(ss);
      FlattenReverseLength(ss[1..]);
    }
  }

  /**
   * Reversed then flattened, element j of inner sequence k sits after every element of
   * the inner sequences that follow k: each inner sequence keeps its own order and the
   * inner sequences appear last to first.
   */
  lemma {:induction false} FlattenReverseAt<T>(ss: seq<seq<T>>, k: nat, j: nat)
    requires k < |ss| && j < |ss[k]|
    ensures |Flatten(Reverse(ss))| == TotalLength(ss)
    ensures TotalLength(ss[k + 1..]) + j < TotalLength(ss)
    ensures Flatten(Reverse(ss))[TotalLength(ss[k + 1..]) + j] == ss[k][j]
  {
    FlattenReverseFirstLast(ss);
    FlattenReverseLength(ss[1..]);
    FlattenReverseLength(ss);
    if k == 0 {
      assert ss[1..] == ss[k + 1..];
    } else {
      FlattenReverseAt(ss[1..], k - 1, j);
      assert ss[1..][k..] == ss[k + 1..];
      assert ss[1..][k - 1] == ss[k];
    }
  }
}
