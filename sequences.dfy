/**
 * Filtering and mapping a sequence in one pass, the shape of each collector's
 * `for ... { if skip { continue }; out = append(out, build(x)) }` loop.
 */
module Sequences {
  import opened Results

  function AsSeq<B>(o: Option<B>): seq<B>
  {
    match o
    case Some(b) => [b]
    case None => []
  }

  /** The values `f` yields on the elements of `s`, in the order of `s`; elements on which `f` yields None are skipped. */
  function FilterMap<A, B>(f: A -> Option<B>, s: seq<A>): (r: seq<B>)
    ensures |r| <= |s|
  {
    if s == [] then [] else FilterMap(f, s[..|s| - 1]) + AsSeq(f(s[|s| - 1]))
  }

  lemma PrefixOfPrefix<A>(s: seq<A>, i: nat)
    requires i < |s|
    ensures s[..i + 1][..i] == s[..i]
  {
  }

  lemma PrefixAt<A>(s: seq<A>, n: nat, i: nat)
    requires i < n <= |s|
    ensures s[..n][i] == s[i]
  {
  }

  lemma DropLastOfConcat<A>(s: seq<A>, t: seq<A>)
    requires t != []
    ensures (s + t)[..|s + t| - 1] == s + t[..|t| - 1]
    ensures (s + t)[|s + t| - 1] == t[|t| - 1]
  {
  }

  /** A sequence is its part before `j`, its element at `j` and its part after `j`. */
  lemma SplitAt<A>(t: seq<A>, j: nat)
    requires j < |t|
    ensures t == (t[..j] + [t[j]]) + t[j + 1..]
  {
  }

  /** One more loop iteration appends the value built from the next element, if any. */
  lemma FilterMapSnoc<A, B>(f: A -> Option<B>, s: seq<A>, i: nat)
    requires i < |s|
    ensures FilterMap(f, s[..i + 1]) == FilterMap(f, s[..i]) + AsSeq(f(s[i]))
  {
    PrefixOfPrefix(s, i);
  }

  lemma {:induction false} FilterMapConcat<A, B>(f: A -> Option<B>, s: seq<A>, t: seq<A>)
    ensures FilterMap(f, s + t) == FilterMap(f, s) + FilterMap(f, t)
  {
    if t != [] {
      DropLastOfConcat(s, t);
      FilterMapConcat(f, s, t[..|t| - 1]);
    } else {
      assert s + t == s;
    }
  }

  lemma FilterMapSingle<A, B>(f: A -> Option<B>, x: A)
    ensures FilterMap(f, [x]) == AsSeq(f(x))
  {
    assert [x][..0] == [];
  }

  /** The output splits where the input does. */
  lemma FilterMapSplit<A, B>(f: A -> Option<B>, t: seq<A>, j: nat)
    requires j < |t|
    ensures FilterMap(f, t) == FilterMap(f, t[..j]) + AsSeq(f(t[j])) + FilterMap(f, t[j + 1..])
  {
    SplitAt(t, j);
    FilterMapSingle(f, t[j]);
    FilterMapConcat(f, t[..j], [t[j]]);
    FilterMapConcat(f, t[..j] + [t[j]], t[j + 1..]);
  }

  /**
   * Every output element comes from its own input element, the outputs keep the
   * input order, and an input element is used exactly when `f` yields a value on it.
   */
  lemma {:induction false} FilterMapOrigins<A, B>(f: A -> Option<B>, s: seq<A>) returns (idx: seq<nat>)
    ensures |idx| == |FilterMap(f, s)|
    ensures forall k :: 0 <= k < |idx| ==> idx[k] < |s| && f(s[idx[k]]) == Some(FilterMap(f, s)[k])
    ensures forall k, l :: 0 <= k < l < |idx| ==> idx[k] < idx[l]
    ensures forall i :: 0 <= i < |s| ==> (i in idx <==> f(s[i]).Some?)
  {
    if s == [] {
      idx := [];
    } else {
      var n := |s| - 1;
      var front := FilterMapOrigins(f, s[..n]);
      var r0 := FilterMap(f, s[..n]);
      var last := AsSeq(f(s[n]));
      assert FilterMap(f, s) == r0 + last;
      idx := if f(s[n]).Some? then front + [n] else front;
      OriginsStep(f, s, front, idx);
    }
  }

  /** The inductive step of FilterMapOrigins: extending the input by its last element. */
  lemma OriginsStep<A, B>(f: A -> Option<B>, s: seq<A>, front: seq<nat>, idx: seq<nat>)
    requires s != []
    requires |front| == |FilterMap(f, s[..|s| - 1])|
    requires forall k :: 0 <= k < |front| ==> front[k] < |s| - 1 && f(s[..|s| - 1][front[k]]) == Some(FilterMap(f, s[..|s| - 1])[k])
    requires forall k, l :: 0 <= k < l < |front| ==> front[k] < front[l]
    requires forall i :: 0 <= i < |s| - 1 ==> (i in front <==> f(s[..|s| - 1][i]).Some?)
    requires FilterMap(f, s) == FilterMap(f, s[..|s| - 1]) + AsSeq(f(s[|s| - 1]))
    requires idx == if f(s[|s| - 1]).Some? then front + [|s| - 1] else front
    ensures |idx| == |FilterMap(f, s)|
    ensures forall k :: 0 <= k < |idx| ==> idx[k] < |s| && f(s[idx[k]]) == Some(FilterMap(f, s)[k])
    ensures forall k, l :: 0 <= k < l < |idx| ==> idx[k] < idx[l]
    ensures forall i :: 0 <= i < |s| ==> (i in idx <==> f(s[i]).Some?)
  {
    var n := |s| - 1;
    var p := s[..n];
    forall i | 0 <= i < n {
      PrefixAt(s, n, i);
    }
    var r0, r := FilterMap(f, p), FilterMap(f, s);
    forall k | 0 <= k < |front|
      ensures idx[k] == front[k] && r[k] == r0[k]
    {
    }
  }

  /**
   * Two functions that skip the same elements keep the same positions: the
   * k-th output of each comes from the same input element, and the origins
   * are in increasing order.
   */
  lemma {:induction false} FilterMapAlong<A, B, C>(f: A -> Option<B>, g: A -> Option<C>, s: seq<A>) returns (idx: seq<nat>)
    requires forall x :: f(x).Some? <==> g(x).Some?
    ensures |idx| == |FilterMap(f, s)| == |FilterMap(g, s)|
    ensures forall k :: 0 <= k < |idx| ==>
      idx[k] < |s| && f(s[idx[k]]) == Some(FilterMap(f, s)[k]) && g(s[idx[k]]) == Some(FilterMap(g, s)[k])
    ensures forall k, l :: 0 <= k < l < |idx| ==> idx[k] < idx[l]
  {
    if s == [] {
      idx := [];
    } else {
      var n := |s| - 1;
      var front := FilterMapAlong(f, g, s[..n]);
      idx := if f(s[n]).Some? then front + [n] else front;
      AlongStep(f, g, s, front, idx);
    }
  }

  lemma AlongStep<A, B, C>(f: A -> Option<B>, g: A -> Option<C>, s: seq<A>, front: seq<nat>, idx: seq<nat>)
    requires forall x :: f(x).Some? <==> g(x).Some?
    requires s != []
    requires |front| == |FilterMap(f, s[..|s| - 1])| == |FilterMap(g, s[..|s| - 1])|
    requires forall k :: 0 <= k < |front| ==>
      front[k] < |s| - 1 && f(s[..|s| - 1][front[k]]) == Some(FilterMap(f, s[..|s| - 1])[k])
      && g(s[..|s| - 1][front[k]]) == Some(FilterMap(g, s[..|s| - 1])[k])
    requires forall k, l :: 0 <= k < l < |front| ==> front[k] < front[l]
    requires idx == if f(s[|s| - 1]).Some? then front + [|s| - 1] else front
    ensures |idx| == |FilterMap(f, s)| == |FilterMap(g, s)|
    ensures forall k :: 0 <= k < |idx| ==>
      idx[k] < |s| && f(s[idx[k]]) == Some(FilterMap(f, s)[k]) && g(s[idx[k]]) == Some(FilterMap(g, s)[k])
    ensures forall k, l :: 0 <= k < l < |idx| ==> idx[k] < idx[l]
  {
    var n := |s| - 1;
    var rf0, rg0 := FilterMap(f, s[..n]), FilterMap(g, s[..n]);
    var rf, rg := FilterMap(f, s), FilterMap(g, s);
    assert rf == rf0 + AsSeq(f(s[n])) && rg == rg0 + AsSeq(g(s[n]));
    forall k | 0 <= k < |front|
      ensures idx[k] == front[k] && rf[k] == rf0[k] && rg[k] == rg0[k] && s[..n][front[k]] == s[front[k]]
    {
      PrefixAt(s, n, front[k]);
    }
  }

  lemma FilterMapPair<A, B>(f: A -> Option<B>, x: A, y: A)
    requires f(x).Some? && f(y).Some?
    ensures FilterMap(f, [x, y]) == [f(x).value, f(y).value]
  {
    assert [x, y][..1] == [x];
    FilterMapSingle(f, x);
  }

  /** A function that never skips maps the sequence element by element. */
  lemma {:induction false} FilterMapTotal<A, B>(f: A -> Option<B>, s: seq<A>)
    requires forall x :: f(x).Some?
    ensures |FilterMap(f, s)| == |s|
    ensures forall i :: 0 <= i < |s| ==> FilterMap(f, s)[i] == f(s[i]).value
  {
    if s != [] {
      var n := |s| - 1;
      FilterMapTotal(f, s[..n]);
      forall i | 0 <= i < n {
        PrefixAt(s, n, i);
      }
    }
  }

  /** Removing the element at `j` removes one occurrence of it from the multiset. */
  lemma MultisetRemoveAt<A>(t: seq<A>, j: nat)
    requires j < |t|
    ensures multiset(t[..j] + t[j + 1..]) == multiset(t) - multiset{t[j]}
  {
    SplitAt(t, j);
  }

  lemma MultisetTail<A>(s: seq<A>)
    requires s != []
    ensures multiset(s[1..]) == multiset(s) - multiset{s[0]}
  {
    assert s == [s[0]] + s[1..];
  }

  /** Reordering the input reorders the output and changes nothing else. */
  lemma {:induction false} FilterMapPermutation<A, B>(f: A -> Option<B>, s: seq<A>, t: seq<A>)
    requires multiset(s) == multiset(t)
    ensures multiset(FilterMap(f, s)) == multiset(FilterMap(f, t))
  {
    if s == [] {
      assert |t| == |multiset(t)| == 0;
    } else {
      var n := |s| - 1;
      var x := s[n];
      MultisetRemoveAt(s, n);
      assert s[..n] + s[n + 1..] == s[..n];
      assert x in multiset(t);
      var j :| 0 <= j < |t| && t[j] == x;
      MultisetRemoveAt(t, j);
      FilterMapPermutation(f, s[..n], t[..j] + t[j + 1..]);
      FilterMapMoveToEnd(f, t, j);
    }
  }

  /** Moving one input element to the end only moves its output. */
  lemma FilterMapMoveToEnd<A, B>(f: A -> Option<B>, t: seq<A>, j: nat)
    requires j < |t|
    ensures multiset(FilterMap(f, t)) == multiset(FilterMap(f, t[..j] + t[j + 1..]) + AsSeq(f(t[j])))
  {
    var a, o, b := FilterMap(f, t[..j]), AsSeq(f(t[j])), FilterMap(f, t[j + 1..]);
    FilterMapSplit(f, t, j);
    FilterMapConcat(f, t[..j], t[j + 1..]);
    assert multiset(a + o + b) == multiset(a) + multiset(o) + multiset(b);
    assert multiset((a + b) + o) == multiset(a) + multiset(b) + multiset(o);
  }
}
