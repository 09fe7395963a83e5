/** Vocabulary shared by the whole model: optional values, calls that may throw,
    and the order-preserving filter-map that the sync handlers compute. */
module Prelude {

  datatype Option<+T> = None | Some(value: T)

  /** What a call in the program does: it returns, or it throws. */
  datatype Result<+T> = Returned(value: T) | Threw

  /** The defined images under `f`, in order. */
  function FilterMap<A, B>(f: A -> Option<B>, s: seq<A>): seq<B> {
    if s == [] then [] else
    var rest := FilterMap(f, s[..|s| - 1]);
    match f(s[|s| - 1])
    case Some(b) => rest + [b]
    case None => rest
  }

  /** The positions of `s` on which `f` is defined, in order. */
  function Kept<A, B>(f: A -> Option<B>, s: seq<A>): seq<nat> {
    if s == [] then [] else
    var rest := Kept(f, s[..|s| - 1]);
    if f(s[|s| - 1]).Some? then rest + [|s| - 1] else rest
  }

  ghost predicate StrictlyIncreasing(s: seq<nat>) {
    forall i, j :: 0 <= i < j < |s| ==> s[i] < s[j]
  }

  lemma {:induction false} KeptIncreasing<A, B>(f: A -> Option<B>, s: seq<A>)
    ensures forall i :: 0 <= i < |Kept(f, s)| ==> Kept(f, s)[i] < |s|
    ensures StrictlyIncreasing(Kept(f, s))
  {
    if s == [] {
    } else {
      KeptIncreasing(f, s[..|s| - 1]);
    }
  }

  lemma {:induction false} KeptExactly<A, B>(f: A -> Option<B>, s: seq<A>, k: nat)
    requires k < |s|
    ensures k in Kept(f, s) <==> f(s[k]).Some?
  {
    var front := s[..|s| - 1];
    if k < |front| {
      KeptExactly(f, front, k);
    } else {
      KeptIncreasing(f, front);
    }
  }

  lemma {:induction false} KeptImages<A, B>(f: A -> Option<B>, s: seq<A>)
    ensures |FilterMap(f, s)| == |Kept(f, s)| <= |s|
    ensures forall i :: 0 <= i < |Kept(f, s)| ==> Kept(f, s)[i] < |s| && f(s[Kept(f, s)[i]]) == Some(FilterMap(f, s)[i])
  {
    if s == [] {
    } else {
      var front := s[..|s| - 1];
      KeptImages(f, front);
      forall i | 0 <= i < |Kept(f, s)|
        ensures Kept(f, s)[i] < |s| && f(s[Kept(f, s)[i]]) == Some(FilterMap(f, s)[i])
      {
        if i < |Kept(f, front)| {
          assert Kept(f, s)[i] == Kept(f, front)[i];
          assert s[Kept(f, s)[i]] == front[Kept(f, front)[i]];
        }
      }
    }
  }

  /** `FilterMap` is an order-preserving selection: its i-th element comes from the
      i-th kept position, and the kept positions are exactly the defined ones. */
  lemma FilterMapPositions<A, B>(f: A -> Option<B>, s: seq<A>)
    ensures |FilterMap(f, s)| == |Kept(f, s)| <= |s|
    ensures StrictlyIncreasing(Kept(f, s))
    ensures forall i :: 0 <= i < |Kept(f, s)| ==> Kept(f, s)[i] < |s| && f(s[Kept(f, s)[i]]) == Some(FilterMap(f, s)[i])
    ensures forall k :: 0 <= k < |s| ==> (k in Kept(f, s) <==> f(s[k]).Some?)
  {
    KeptIncreasing(f, s);
    KeptImages(f, s);
    forall k | 0 <= k < |s| ensures k in Kept(f, s) <==> f(s[k]).Some? {
      KeptExactly(f, s, k);
    }
  }

  lemma {:induction false} FilterMapConcat<A, B>(f: A -> Option<B>, a: seq<A>, b: seq<A>)
    ensures FilterMap(f, a + b) == FilterMap(f, a) + FilterMap(f, b)
  {
    if b == [] {
      assert a + b == a;
    } else {
      assert (a + b)[..|a + b| - 1] == a + b[..|b| - 1];
      FilterMapConcat(f, a, b[..|b| - 1]);
    }
  }

  lemma FilterMapSnoc<A, B>(f: A -> Option<B>, s: seq<A>, a: A)
    ensures FilterMap(f, s + [a]) == FilterMap(f, s) + match f(a) case Some(b) => [b] case None => []
  {
    assert (s + [a])[..|s + [a]| - 1] == s;
  }

  lemma {:induction false} FilterMapNone<A, B>(f: A -> Option<B>, s: seq<A>)
    requires forall i :: 0 <= i < |s| ==> f(s[i]).None?
    ensures FilterMap(f, s) == []
  {
    if s == [] {
    } else {
      FilterMapNone(f, s[..|s| - 1]);
    }
  }

  lemma {:induction false} FilterMapTotal<A, B>(f: A -> Option<B>, s: seq<A>)
    requires forall i :: 0 <= i < |s| ==> f(s[i]).Some?
    ensures |FilterMap(f, s)| == |s|
  {
    if s == [] {
    } else {
      FilterMapTotal(f, s[..|s| - 1]);
    }
  }

  /** Sequences with the same images have the same filter-map. */
  lemma {:induction false} FilterMapPointwise<A, B, C>(f: A -> Option<C>, a: seq<A>, g: B -> Option<C>, b: seq<B>)
    requires |a| == |b|
    requires forall i :: 0 <= i < |a| ==> f(a[i]) == g(b[i])
    ensures FilterMap(f, a) == FilterMap(g, b)
  {
    if a == [] {
    } else {
      FilterMapPointwise(f, a[..|a| - 1], g, b[..|b| - 1]);
    }
  }

  /** Every element of a filter-map is the image of some input. */
  lemma {:induction false} FilterMapSource<A, B>(f: A -> Option<B>, s: seq<A>, i: nat)
    requires i < |FilterMap(f, s)|
    ensures exists k :: 0 <= k < |s| && f(s[k]) == Some(FilterMap(f, s)[i])
  {
    KeptImages(f, s);
    assert Kept(f, s)[i] < |s|;
  }
}
