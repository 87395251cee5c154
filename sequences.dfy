/**
 * Filtering-and-mapping a list in one pass: every element either contributes one output or is
 * dropped, and the outputs keep the order of the elements they come from. Both the segment parser
 * and the track search build their result lists this way, by appending inside a loop.
 */
module Sequences {
  import opened Wrappers

  /** The outputs `f` gives for the elements of `s`, in the order of `s`. */
  function FilterMap<T, U>(s: seq<T>, f: T -> Option<U>): seq<U>
  {
    if s == [] then [] else FilterMap(s[..|s| - 1], f) + OptionToSeq(f(s[|s| - 1]))
  }

  /** The positions of `s` whose element `f` keeps, in increasing order. */
  function KeptIndices<T, U>(s: seq<T>, f: T -> Option<U>): seq<nat>
  {
    if s == [] then []
    else KeptIndices(s[..|s| - 1], f) + (if f(s[|s| - 1]).Some? then [|s| - 1] else [])
  }

  /** Extending the input by one element extends the output by that element's output alone. */
  lemma FilterMapSnoc<T, U>(s: seq<T>, x: T, f: T -> Option<U>)
    ensures FilterMap(s + [x], f) == FilterMap(s, f) + OptionToSeq(f(x))
  {
    assert (s + [x])[..|s + [x]| - 1] == s;
  }

  /** Filtering a concatenation is the concatenation of the filtered parts. */
  lemma {:induction false} FilterMapAppend<T, U>(a: seq<T>, b: seq<T>, f: T -> Option<U>)
    ensures FilterMap(a + b, f) == FilterMap(a, f) + FilterMap(b, f)
    decreases |b|
  {
    if b == [] {
      assert a + b == a;
    } else {
      var b', x := b[..|b| - 1], b[|b| - 1];
      assert b == b' + [x];
      assert a + b == (a + b') + [x];
      calc {
        FilterMap(a + b, f);
      == { FilterMapSnoc(a + b', x, f); }
        FilterMap(a + b', f) + OptionToSeq(f(x));
      == { FilterMapAppend(a, b', f); }
        FilterMap(a, f) + FilterMap(b', f) + OptionToSeq(f(x));
      == { FilterMapSnoc(b', x, f); }
        FilterMap(a, f) + FilterMap(b, f);
      }
    }
  }

  /**
   * The kept positions are positions of `s`, strictly increasing, and a position is kept if and
   * only if `f` gives it an output.
   */
  lemma {:induction false} KeptIndicesExact<T, U>(s: seq<T>, f: T -> Option<U>)
    ensures |KeptIndices(s, f)| <= |s|
    ensures forall k :: 0 <= k < |KeptIndices(s, f)| ==> KeptIndices(s, f)[k] < |s|
    ensures forall k, l :: 0 <= k < l < |KeptIndices(s, f)| ==> KeptIndices(s, f)[k] < KeptIndices(s, f)[l]
    ensures forall i :: 0 <= i < |s| ==> (i in KeptIndices(s, f) <==> f(s[i]).Some?)
    decreases |s|
  {
    if s != [] {
      var s' := s[..|s| - 1];
      var last := |s| - 1;
      KeptIndicesExact(s', f);
      var idx' := KeptIndices(s', f);
      var idx := KeptIndices(s, f);
      assert idx == idx' + (if f(s[last]).Some? then [last] else []);
      forall i | 0 <= i < last
        ensures i in idx <==> f(s[i]).Some?
      {
        assert s[i] == s'[i];
        assert i in idx <==> i in idx';
      }
    }
  }

  /**
   * The output is exactly the outputs of the kept positions, listed in increasing order of
   * position, and a position is kept if and only if `f` gives it an output.
   */
  lemma {:induction false} FilterMapIndices<T, U>(s: seq<T>, f: T -> Option<U>)
    ensures |FilterMap(s, f)| == |KeptIndices(s, f)| <= |s|
    ensures forall k :: 0 <= k < |KeptIndices(s, f)| ==>
              KeptIndices(s, f)[k] < |s| && f(s[KeptIndices(s, f)[k]]) == Some(FilterMap(s, f)[k])
    ensures forall k, l :: 0 <= k < l < |KeptIndices(s, f)| ==> KeptIndices(s, f)[k] < KeptIndices(s, f)[l]
    ensures forall i :: 0 <= i < |s| ==> (i in KeptIndices(s, f) <==> f(s[i]).Some?)
    decreases |s|
  {
    KeptIndicesExact(s, f);
    if s != [] {
      var s' := s[..|s| - 1];
      var last := |s| - 1;
      FilterMapIndices(s', f);
      var idx', r' := KeptIndices(s', f), FilterMap(s', f);
      var idx, r := KeptIndices(s, f), FilterMap(s, f);
      assert idx == idx' + (if f(s[last]).Some? then [last] else []);
      assert r == r' + OptionToSeq(f(s[last]));
      forall k | 0 <= k < |idx'|
        ensures f(s[idx[k]]) == Some(r[k])
      {
        assert s[idx'[k]] == s'[idx'[k]];
      }
    }
  }
}
