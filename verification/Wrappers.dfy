/** Option, Result, and what every module needs of sequences. */
module Wrappers {
  datatype Option<+T> = None | Some(value: T)

  datatype Result<+T, +E> = Ok(value: T) | Err(error: E)

  predicate NoDuplicates<T(==)>(s: seq<T>) {
    forall i, j :: 0 <= i < j < |s| ==> s[i] != s[j]
  }

  lemma ConcatAssoc<T>(a: seq<T>, b: seq<T>, c: seq<T>)
    ensures a + (b + c) == (a + b) + c
  {
  }

  /** The values `f` yields on `s`, in order; elements on which it yields nothing are skipped. */
  function Collect<A, B>(f: A -> Option<B>, s: seq<A>): seq<B> {
    if s == [] then []
    else
      var before := Collect(f, s[..|s| - 1]);
      match f(s[|s| - 1])
      case None => before
      case Some(b) => before + [b]
  }

  /** The elements of `s` on which `f` yields something. */
  function Kept<A, B>(f: A -> Option<B>, s: seq<A>): seq<A> {
    if s == [] then []
    else
      var before := Kept(f, s[..|s| - 1]);
      if f(s[|s| - 1]).Some? then before + [s[|s| - 1]] else before
  }

  lemma CollectPush<A, B>(f: A -> Option<B>, s: seq<A>, a: A)
    ensures Collect(f, s + [a]) ==
            match f(a) { case None => Collect(f, s) case Some(b) => Collect(f, s) + [b] }
    ensures Kept(f, s + [a]) == if f(a).Some? then Kept(f, s) + [a] else Kept(f, s)
  {
    assert (s + [a])[..|s|] == s;
  }

  /** Collecting is mapping over the kept elements: same length, element by element. */
  lemma {:induction false} CollectKept<A, B>(f: A -> Option<B>, s: seq<A>)
    ensures |Collect(f, s)| == |Kept(f, s)| <= |s|
    ensures forall i :: 0 <= i < |Kept(f, s)| ==> f(Kept(f, s)[i]) == Some(Collect(f, s)[i])
  {
    if s != [] {
      CollectKept(f, s[..|s| - 1]);
    }
  }

  lemma {:induction false} KeptFrom<A, B>(f: A -> Option<B>, s: seq<A>, a: A)
    ensures a in Kept(f, s) <==> a in s && f(a).Some?
  {
    if s != [] {
      var n := |s| - 1;
      assert a in s <==> a in s[..n] || a == s[n];
      KeptFrom(f, s[..n], a);
    }
  }

  /** Nothing is skipped if and only if `f` yields something everywhere. */
  lemma {:induction false} KeptAll<A, B>(f: A -> Option<B>, s: seq<A>)
    ensures |Kept(f, s)| <= |s|
    ensures |Kept(f, s)| == |s| <==> forall i :: 0 <= i < |s| ==> f(s[i]).Some?
    ensures |Kept(f, s)| == |s| ==> Kept(f, s) == s
  {
    if s != [] {
      var n := |s| - 1;
      KeptAll(f, s[..n]);
      assert forall i :: 0 <= i < n ==> s[..n][i] == s[i];
    }
  }
}
