/** Order-preserving operations on lists, as JavaScript's `Array.prototype.filter` performs them. */
module Seqs {

  /** `s.filter(keep)`: the elements of `s` that satisfy `keep`, in their original order. */
  function Filter<T>(s: seq<T>, keep: T -> bool): (r: seq<T>)
    ensures |r| <= |s|
    ensures forall i :: 0 <= i < |r| ==> r[i] in s && keep(r[i])
    ensures forall i :: 0 <= i < |s| && keep(s[i]) ==> s[i] in r
  {
    if |s| == 0 then []
    else (if keep(s[0]) then [s[0]] else []) + Filter(s[1..], keep)
  }

  /** Filtering a concatenation filters each part and keeps them in order:
      together with the membership contract of Filter this says that the result
      is the order-preserving subsequence of the kept elements. */
  lemma {:induction false} FilterAppend<T>(a: seq<T>, b: seq<T>, keep: T -> bool)
    ensures Filter(a + b, keep) == Filter(a, keep) + Filter(b, keep)
  {
    if |a| == 0 {
      assert a + b == b;
    } else {
      assert (a + b)[1..] == a[1..] + b;
      FilterAppend(a[1..], b, keep);
    }
  }

  /** Nothing is dropped exactly when every element is kept. */
  lemma {:induction false} FilterKeepsAll<T>(s: seq<T>, keep: T -> bool)
    ensures |Filter(s, keep)| == |s| <==> forall i :: 0 <= i < |s| ==> keep(s[i])
    ensures (forall i :: 0 <= i < |s| ==> keep(s[i])) ==> Filter(s, keep) == s
  {
    if |s| > 0 {
      FilterKeepsAll(s[1..], keep);
      if forall i :: 0 <= i < |s| ==> keep(s[i]) {
        assert forall i :: 0 <= i < |s| - 1 ==> keep(s[1..][i]) by {
          forall i | 0 <= i < |s| - 1 ensures keep(s[1..][i]) { assert s[1..][i] == s[i + 1]; }
        }
        assert [s[0]] + s[1..] == s;
      } else {
        var j :| 0 <= j < |s| && !keep(s[j]);
        if j > 0 {
          assert s[1..][j - 1] == s[j];
        }
      }
    }
  }

  /** `s.filter((_, i) => i !== index)`: drop the element at position `index`,
      keep every other one in order; an index outside the list drops nothing. */
  function RemoveAt<T>(s: seq<T>, index: int): (r: seq<T>)
    ensures 0 <= index < |s| ==> |r| == |s| - 1 && r[..index] == s[..index] && r[index..] == s[index + 1..]
    ensures !(0 <= index < |s|) ==> r == s
  {
    if |s| == 0 then []
    else (if index == 0 then [] else [s[0]]) + RemoveAt(s[1..], index - 1)
  }
}
