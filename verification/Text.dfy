/**
 * Expansion of `${PWD}` and `$PWD` in configured folders: two in-place passes, one per token,
 * each going on behind what it has just inserted. The results hold for any two tokens of the
 * same form, so the proofs never look into them.
 */
module Text {
  import opened Wrappers

  const BRACED: string := "${PWD}"
  const BARE: string := "$PWD"

  /** Neither starts a token nor appears at the start of an absolute directory. */
  predicate Plain(w: string) {
    forall i :: 0 <= i < |w| ==> w[i] != '$' && w[i] != '/'
  }

  predicate IsToken(t: string) {
    t != [] && t[0] == '$' && Plain(t[1..])
  }

  lemma TheTokens()
    ensures BRACED == "${PWD}" && BARE == "$PWD"
    ensures IsToken(BRACED) && IsToken(BARE) && !(BRACED <= BARE) && !(BARE <= BRACED)
  {
    assert BRACED[1] != BARE[1];
  }

  /** The length of the token the text starts with; zero for none. */
  function Hit(s: string, t: string, u: string): (n: nat)
    ensures n <= |s|
  {
    if t <= s then |t| else if u <= s then |u| else 0
  }

  /** All occurrences of either token replaced at once: what is inserted is not looked at. */
  function Rewrite(s: string, t: string, u: string, dir: string): string {
    if s == [] then []
    else if Hit(s, t, u) > 0 then dir + Rewrite(s[Hit(s, t, u)..], t, u, dir)
    else [s[0]] + Rewrite(s[1..], t, u, dir)
  }

  /** A single token. */
  function Pass(s: string, t: string, dir: string): string {
    Rewrite(s, t, t, dir)
  }

  function TwoPasses(s: string, t: string, u: string, dir: string): string {
    Pass(Pass(s, t, dir), u, dir)
  }

  // ---- the loop -----------------------------------------------------------------------------------

  predicate OccursAt(t: string, s: string, p: nat) {
    p <= |s| && t <= s[p..]
  }

  /** The first occurrence of `t` at or behind `from`. */
  function Find(s: string, t: string, from: nat): (p: Option<nat>)
    ensures p.Some? ==> from <= p.value && OccursAt(t, s, p.value)
    ensures forall j: nat :: from <= j && (p.Some? ==> j < p.value) ==> !OccursAt(t, s, j)
    decreases |s| - from
  {
    if from > |s| then None
    else if t <= s[from..] then Some(from)
    else Find(s, t, from + 1)
  }

  lemma OccursBehind(t: string, s: string, k: nat, p: nat)
    requires k <= |s|
    ensures OccursAt(t, s[k..], p) <==> OccursAt(t, s, k + p)
  {
    if k + p <= |s| {
      assert s[k..][p..] == s[k + p..];
    }
  }

  lemma {:induction false} UpToFirst(s: string, t: string, dir: string, p: nat)
    requires t != [] && OccursAt(t, s, p) && forall j: nat :: j < p ==> !OccursAt(t, s, j)
    ensures p + |t| <= |s| && Pass(s, t, dir) == s[..p] + dir + Pass(s[p + |t|..], t, dir)
  {
    assert s[0..] == s;
    if p > 0 {
      assert !OccursAt(t, s, 0);
      forall j: nat | j < p ensures OccursAt(t, s[1..], j) <==> OccursAt(t, s, 1 + j) {
        OccursBehind(t, s, 1, j);
      }
      UpToFirst(s[1..], t, dir, p - 1);
      assert s[1..][p - 1 + |t|..] == s[p + |t|..];
      assert s[..p] == [s[0]] + s[1..][..p - 1];
      ConcatAssoc([s[0]], s[1..][..p - 1] + dir, Pass(s[p + |t|..], t, dir));
      ConcatAssoc([s[0]], s[1..][..p - 1], dir);
    } else {
      assert s[..0] + dir == dir;
    }
  }

  lemma {:induction false} Untouched(s: string, t: string, dir: string)
    requires t != [] && forall j: nat :: !OccursAt(t, s, j)
    ensures Pass(s, t, dir) == s
  {
    if s != [] {
      assert s[0..] == s && !OccursAt(t, s, 0);
      forall j: nat ensures !OccursAt(t, s[1..], j) {
        OccursBehind(t, s, 1, j);
      }
      Untouched(s[1..], t, dir);
    }
  }

  /** Up to the offset the pass is done; the rest is still to be rewritten. */
  predicate Halfway(s: string, offset: nat, t: string, dir: string, goal: string) {
    offset <= |s| && s[..offset] + Pass(s[offset..], t, dir) == goal
  }

  lemma HalfwayEnds(s: string, offset: nat, t: string, dir: string, goal: string)
    requires t != [] && Halfway(s, offset, t, dir, goal) && Find(s, t, offset).None?
    ensures s == goal
  {
    forall j: nat ensures !OccursAt(t, s[offset..], j) {
      OccursBehind(t, s, offset, j);
    }
    Untouched(s[offset..], t, dir);
    assert s[..offset] + s[offset..] == s;
  }

  lemma FirstInRest(s: string, offset: nat, t: string, p: nat)
    requires offset <= |s| && Find(s, t, offset) == Some(p)
    ensures offset <= p && OccursAt(t, s[offset..], p - offset)
    ensures forall j: nat :: j < p - offset ==> !OccursAt(t, s[offset..], j)
  {
    forall j: nat ensures OccursAt(t, s[offset..], j) <==> OccursAt(t, s, offset + j) {
      OccursBehind(t, s, offset, j);
    }
  }

  lemma SliceOfRest(s: string, offset: nat, p: nat, q: nat)
    requires offset <= p <= q <= |s|
    ensures s[offset..][..p - offset] == s[offset..p] && s[offset..][q - offset..] == s[q..]
  {
  }

  /** The rest of the pass, cut at the next occurrence. */
  lemma RestOfPass(s: string, offset: nat, t: string, dir: string, p: nat)
    requires t != [] && offset <= p && offset <= |s| && OccursAt(t, s[offset..], p - offset)
    requires forall j: nat :: j < p - offset ==> !OccursAt(t, s[offset..], j)
    ensures p + |t| <= |s|
    ensures Pass(s[offset..], t, dir) == s[offset..p] + dir + Pass(s[p + |t|..], t, dir)
  {
    UpToFirst(s[offset..], t, dir, p - offset);
    SliceOfRest(s, offset, p, p + |t|);
  }

  lemma HalfwayOn(s: string, offset: nat, t: string, dir: string, goal: string, p: nat)
    requires t != [] && Halfway(s, offset, t, dir, goal) && Find(s, t, offset) == Some(p)
    ensures p + |t| <= |s|
    ensures Halfway(s[..p] + dir + s[p + |t|..], p + |dir|, t, dir, goal)
  {
    FirstInRest(s, offset, t, p);
    RestOfPass(s, offset, t, dir, p);
    var tail := s[p + |t|..];
    var next := s[..p] + dir + tail;
    assert next[..p + |dir|] == s[..p] + dir && next[p + |dir|..] == tail;
    assert s[..offset] + s[offset..p] == s[..p];
    ConcatAssoc(s[..offset], s[offset..p] + dir, Pass(tail, t, dir));
    ConcatAssoc(s[..offset], s[offset..p], dir);
  }

  /** One pass, in place. It ends: what is behind the offset loses a token each time. */
  method ExpandToken(folder: string, token: string, dir: string) returns (out: string)
    requires token != []
    ensures out == Pass(folder, token, dir)
  {
    ghost var goal := Pass(folder, token, dir);
    out := folder;
    var offset: nat := 0;
    assert folder[..0] + Pass(folder[0..], token, dir) == goal by {
      assert folder[0..] == folder;
    }
    while true
      invariant Halfway(out, offset, token, dir, goal)
      decreases |out| - offset
    {
      var found := Find(out, token, offset);
      if found.None? {
        HalfwayEnds(out, offset, token, dir, goal);
        return;
      }
      HalfwayOn(out, offset, token, dir, goal, found.value);
      offset := found.value;
      out := out[..offset] + dir + out[offset + |token|..];
      offset := offset + |dir|;
    }
  }

  method ExpandFolder(folder: string, dir: string) returns (out: string)
    ensures out == TwoPasses(folder, "${PWD}", "$PWD", dir)
  {
    out := ExpandToken(folder, BRACED, dir);
    out := ExpandToken(out, BARE, dir);
  }

  // ---- when the two passes are one substitution ---------------------------------------------------

  /** The directory of a configuration file: canonical, hence absolute. */
  predicate Absolute(dir: string) {
    dir != [] && dir[0] == '/'
  }

  /** Nowhere in `dir` does the token start, or something that could still become it. */
  predicate Clear(dir: string, t: string) {
    forall k :: 0 <= k < |dir| ==> !(t <= dir[k..]) && !(dir[k..] <= t)
  }

  lemma HeadAndTail(w: string, s: string)
    requires w != [] && s != []
    ensures w <= s <==> w[0] == s[0] && w[1..] <= s[1..]
  {
    if w[0] == s[0] && w[1..] <= s[1..] {
      assert w == [w[0]] + w[1..] && s == [s[0]] + s[1..];
    }
  }

  /** Plain text goes through unchanged, and none appears that was not there. */
  lemma {:induction false} PlainStays(w: string, s: string, t: string, u: string, dir: string)
    requires Absolute(dir) && IsToken(t) && IsToken(u) && Plain(w)
    ensures w <= Rewrite(s, t, u, dir) <==> w <= s
    ensures w <= s ==> Rewrite(s, t, u, dir) == w + Rewrite(s[|w|..], t, u, dir)
  {
    var r := Rewrite(s, t, u, dir);
    if w == [] {
      assert s[0..] == s;
    } else if s != [] && Hit(s, t, u) == 0 {
      PlainStays(w[1..], s[1..], t, u, dir);
      assert r[1..] == Rewrite(s[1..], t, u, dir);
      HeadAndTail(w, s);
      HeadAndTail(w, r);
      if w <= s {
        assert s[1..][|w| - 1..] == s[|w|..] && w == [w[0]] + w[1..];
        ConcatAssoc([w[0]], w[1..], Rewrite(s[|w|..], t, u, dir));
      }
    } else if s != [] {
      assert r[0] == '/' && s[0] == '$';
    }
  }

  lemma PlainIsKept(w: string, t: string, u: string, dir: string)
    requires Absolute(dir) && IsToken(t) && IsToken(u) && Plain(w)
    ensures Rewrite(w, t, u, dir) == w
  {
    PlainStays(w, w, t, u, dir);
    assert w[|w|..] == [];
  }

  lemma DropOfConcat(a: string, b: string, j: nat)
    requires j <= |a|
    ensures (a + b)[j..] == a[j..] + b
  {
  }

  /** A token starting inside `a` is in `a`, or the rest of `a` starts it. */
  lemma Comparable(t: string, a: string, y: string)
    ensures t <= a + y ==> t <= a || a <= t
  {
    if t <= a + y {
      if |t| <= |a| {
        assert t == a[..|t|];
      } else {
        assert t[..|a|] == a;
      }
    }
  }

  /** A pass goes over an inserted directory without a match. */
  lemma {:induction false} PassesOver(dir: string, k: nat, y: string, u: string)
    requires u != [] && Clear(dir, u) && k <= |dir|
    ensures Pass(dir[k..] + y, u, dir) == dir[k..] + Pass(y, u, dir)
    decreases |dir| - k
  {
    if k == |dir| {
      assert dir[k..] + y == y;
    } else {
      Comparable(u, dir[k..], y);
      assert (dir[k..] + y)[1..] == dir[k + 1..] + y;
      PassesOver(dir, k + 1, y, u);
      assert dir[k..] == [dir[k]] + dir[k + 1..];
    }
  }

  /** A pass for `t` neither makes nor breaks an occurrence of `u` at the front. */
  lemma OtherTokenStays(s: string, t: string, u: string, dir: string)
    requires Absolute(dir) && IsToken(t) && IsToken(u) && s != [] && !(t <= s)
    ensures u <= Pass(s, t, dir) <==> u <= s
    ensures u <= s ==> Pass(s, t, dir) == u + Pass(s[|u|..], t, dir)
  {
    var r := Pass(s, t, dir);
    assert r[1..] == Pass(s[1..], t, dir);
    PlainStays(u[1..], s[1..], t, t, dir);
    HeadAndTail(u, s);
    HeadAndTail(u, r);
    if u <= s {
      assert s[1..][|u| - 1..] == s[|u|..];
      assert r == [u[0]] + (u[1..] + Pass(s[|u|..], t, dir));
    }
  }

  lemma {:induction false} PassesAgree(s: string, t: string, u: string, dir: string)
    requires Absolute(dir) && IsToken(t) && IsToken(u) && Clear(dir, u)
    ensures TwoPasses(s, t, u, dir) == Rewrite(s, t, u, dir)
  {
    if s == [] {
    } else if t <= s {
      PassesAgree(s[|t|..], t, u, dir);
      PassesOver(dir, 0, Pass(s[|t|..], t, dir), u);
      assert dir[0..] == dir;
    } else {
      OtherTokenStays(s, t, u, dir);
      var r := Pass(s, t, dir);
      if u <= s {
        PassesAgree(s[|u|..], t, u, dir);
        assert r[|u|..] == Pass(s[|u|..], t, dir);
      } else {
        PassesAgree(s[1..], t, u, dir);
        assert r[1..] == Pass(s[1..], t, dir);
      }
    }
  }

  /** A pass over text holding its token changes the text. */
  lemma {:induction false} PassChanges(s: string, u: string, dir: string, p: nat)
    requires Absolute(dir) && IsToken(u) && OccursAt(u, s, p)
    ensures Pass(s, u, dir) != s
  {
    if u <= s {
      assert Pass(s, u, dir)[0] == '/';
    } else {
      assert s[0..] == s;
      OccursBehind(u, s, 1, p - 1);
      PassChanges(s[1..], u, dir, p - 1);
      assert Pass(s, u, dir)[1..] == Pass(s[1..], u, dir);
    }
  }

  /** What the end of `dir` from `k` on still lacks of the token; nothing if the token is inside. */
  function Missing(dir: string, t: string, k: nat): string
    requires k < |dir|
  {
    if |dir| - k < |t| then t[|dir| - k..] else []
  }

  lemma Completes(dir: string, t: string, k: nat, y: string)
    requires IsToken(t) && k < |dir| && (t <= dir[k..] || dir[k..] <= t)
    ensures Plain(Missing(dir, t, k)) && OccursAt(t, dir + (Missing(dir, t, k) + y), k)
  {
    var more := Missing(dir, t, k);
    DropOfConcat(dir, more + y, k);
    ConcatAssoc(dir[k..], more, y);
    assert |dir| - k < |t| ==> t == dir[k..] + more;
  }

  /** The first token, then text the passes do not touch. */
  lemma AfterToken(rest: string, t: string, u: string, dir: string)
    requires Absolute(dir) && IsToken(t) && IsToken(u) && Plain(rest)
    ensures Rewrite(t + rest, t, u, dir) == dir + rest
  {
    PlainIsKept(rest, t, u, dir);
    assert (t + rest)[|t|..] == rest;
  }

  lemma PassesDiffer(t: string, u: string, dir: string) returns (s: string)
    requires Absolute(dir) && IsToken(t) && IsToken(u) && !Clear(dir, u)
    ensures TwoPasses(s, t, u, dir) != Rewrite(s, t, u, dir)
  {
    var k :| 0 <= k < |dir| && (u <= dir[k..] || dir[k..] <= u);
    var rest := Missing(dir, u, k);
    s := t + rest;
    Completes(dir, u, k, []);
    assert rest + [] == rest;
    AfterToken(rest, t, t, dir);
    AfterToken(rest, t, u, dir);
    PassChanges(dir + rest, u, dir, k);
  }

  /** The two passes are one simultaneous substitution, on every text, exactly when nowhere in the directory
      the bare token starts or could start. */
  lemma PassesAgreeIff(dir: string)
    requires Absolute(dir)
    ensures (forall s: string :: TwoPasses(s, BRACED, BARE, dir) == Rewrite(s, BRACED, BARE, dir)) <==>
            Clear(dir, BARE)
  {
    TheTokens();
    if Clear(dir, BARE) {
      forall s: string ensures TwoPasses(s, BRACED, BARE, dir) == Rewrite(s, BRACED, BARE, dir) {
        PassesAgree(s, BRACED, BARE, dir);
      }
    } else {
      var s := PassesDiffer(BRACED, BARE, dir);
    }
  }

  // ---- when no token is left ------------------------------------------------------------------------

  ghost predicate Occurs(t: string, s: string) {
    exists p :: OccursAt(t, s, p)
  }

  ghost predicate Finished(s: string) {
    !Occurs(BRACED, s) && !Occurs(BARE, s)
  }

  lemma OccursShifted(t: string, a: string, b: string, p: nat)
    requires OccursAt(t, b, p)
    ensures OccursAt(t, a + b, |a| + p) && Occurs(t, a + b)
  {
    assert (a + b)[|a| + p..] == b[p..];
    assert OccursAt(t, a + b, |a| + p);
  }

  /** An inserted directory holds no start of a token it is clear of, whatever follows. */
  lemma NoneStartsInside(dir: string, t: string, y: string, p: nat)
    requires Clear(dir, t)
    ensures OccursAt(t, dir + y, p) ==> p >= |dir| && OccursAt(t, y, p - |dir|)
  {
    if p < |dir| {
      Comparable(t, dir[p..], y);
      DropOfConcat(dir, y, p);
    } else if p <= |dir + y| {
      assert (dir + y)[p..] == y[p - |dir|..];
    }
  }

  lemma {:induction false} AtOnceLeavesNone(s: string, t: string, u: string, dir: string, v: string, p: nat)
    requires Absolute(dir) && IsToken(t) && IsToken(u) && (v == t || v == u) && Clear(dir, v)
    ensures !OccursAt(v, Rewrite(s, t, u, dir), p)
  {
    var r := Rewrite(s, t, u, dir);
    if s == [] {
    } else if Hit(s, t, u) > 0 {
      var rest := s[Hit(s, t, u)..];
      NoneStartsInside(dir, v, Rewrite(rest, t, u, dir), p);
      if p >= |dir| {
        AtOnceLeavesNone(rest, t, u, dir, v, p - |dir|);
      }
    } else if p > 0 {
      AtOnceLeavesNone(s[1..], t, u, dir, v, p - 1);
      assert r[1..] == Rewrite(s[1..], t, u, dir);
      OccursBehind(v, r, 1, p - 1);
    } else {
      assert r[0..] == r && r[1..] == Rewrite(s[1..], t, u, dir);
      PlainStays(v[1..], s[1..], t, u, dir);
      HeadAndTail(v, s);
      HeadAndTail(v, r);
    }
  }

  /** No other token starts inside a token. */
  lemma TokensApart(s: string, t: string, u: string, p: nat)
    requires IsToken(t) && IsToken(u) && !(t <= u) && !(u <= t) && u <= s
    ensures OccursAt(t, s, p) ==> p >= |u|
  {
    assert u + s[|u|..] == s;
    if p == 0 {
      assert s[0..] == s;
      Comparable(t, u, s[|u|..]);
    } else if p < |u| {
      assert s[p..][0] == s[p] == u[p] == u[1..][p - 1];
    }
  }

  /** A pass for `u` leaves every occurrence of another token in place. */
  lemma {:induction false} OtherTokenSurvives(s: string, t: string, u: string, dir: string, p: nat)
    requires Absolute(dir) && IsToken(t) && IsToken(u) && !(t <= u) && !(u <= t)
    requires OccursAt(t, s, p)
    ensures Occurs(t, Pass(s, u, dir))
  {
    assert s[0..] == s;
    if u <= s {
      TokensApart(s, t, u, p);
      OccursBehind(t, s, |u|, p - |u|);
      OtherTokenSurvives(s[|u|..], t, u, dir, p - |u|);
      var q :| OccursAt(t, Pass(s[|u|..], u, dir), q);
      OccursShifted(t, dir, Pass(s[|u|..], u, dir), q);
    } else if p == 0 {
      OtherTokenStays(s, u, t, dir);
      assert Pass(s, u, dir)[0..] == Pass(s, u, dir);
      assert OccursAt(t, Pass(s, u, dir), 0);
    } else {
      OccursBehind(t, s, 1, p - 1);
      OtherTokenSurvives(s[1..], t, u, dir, p - 1);
      var q :| OccursAt(t, Pass(s[1..], u, dir), q);
      OccursShifted(t, [s[0]], Pass(s[1..], u, dir), q);
    }
  }

  /** The first token in the directory, or started by its end, ends up in the text. */
  lemma LeavesFirst(t: string, u: string, dir: string) returns (s: string)
    requires Absolute(dir) && IsToken(t) && IsToken(u) && !(t <= u) && !(u <= t) && !Clear(dir, t)
    ensures Occurs(t, TwoPasses(s, t, u, dir))
  {
    var k :| 0 <= k < |dir| && (t <= dir[k..] || dir[k..] <= t);
    var rest := Missing(dir, t, k);
    s := t + rest;
    Completes(dir, t, k, []);
    assert rest + [] == rest;
    AfterToken(rest, t, t, dir);
    OtherTokenSurvives(dir + rest, t, u, dir, k);
  }

  lemma TailFromMiddle(a: string, b: string, c: string, k: nat)
    requires k <= |b|
    ensures (a + b + c)[|a| + k..] == b[k..] + c
  {
    DropOfConcat(a + b, c, |a| + k);
    assert (a + b)[|a| + k..] == b[k..];
  }

  /** So does the second token when the directory holds it: it is inserted again. */
  lemma LeavesSecondInside(t: string, u: string, dir: string, k: nat)
    requires Absolute(dir) && IsToken(t) && IsToken(u) && OccursAt(u, dir, k)
    ensures Occurs(u, TwoPasses(t, t, u, dir))
  {
    AfterToken([], t, t, dir);
    assert t + [] == t && dir + [] == dir;
    var p := Find(dir, u, 0).value;
    UpToFirst(dir, u, dir, p);
    var rest := Pass(dir[p + |u|..], u, dir);
    OccursShifted(u, dir[..p], dir, k);
    TailFromMiddle(dir[..p], dir, rest, k);
    assert OccursAt(u, dir[..p] + dir + rest, p + k);
  }

  /** The end of the directory and `rest` make the token; seen for the first time at `k`. */
  lemma FirstAtTheEnd(u: string, dir: string, k: nat, rest: string, y: string)
    requires IsToken(u) && k < |dir| && dir[k..] <= u && rest == Missing(dir, u, k)
    requires forall j: nat :: !OccursAt(u, dir, j)
    ensures OccursAt(u, dir + (rest + y), k) && |dir| + |rest| == k + |u|
    ensures forall j: nat :: j < k ==> !OccursAt(u, dir + (rest + y), j)
  {
    assert !OccursAt(u, dir, k);
    Completes(dir, u, k, y);
    assert forall i :: 1 <= i < |u| ==> u[i] == u[1..][i - 1];
    forall j: nat | j < k ensures !OccursAt(u, dir + (rest + y), j) {
      assert !OccursAt(u, dir, j);
      Comparable(u, dir[j..], rest + y);
      DropOfConcat(dir, rest + y, j);
      assert dir[k] == dir[j..][k - j] && dir[k] == dir[k..][0] == '$';
    }
  }

  /** And when the directory's end starts it: the text inserted for one occurrence completes the next. */
  lemma LeavesSecondAtEnd(t: string, u: string, dir: string, k: nat) returns (s: string)
    requires Absolute(dir) && IsToken(t) && IsToken(u) && k < |dir| && dir[k..] <= u
    requires forall j: nat :: !OccursAt(u, dir, j)
    ensures Occurs(u, TwoPasses(s, t, u, dir))
  {
    var rest := Missing(dir, u, k);
    s := t + (rest + rest);
    Completes(dir, u, k, []);
    AfterToken(rest + rest, t, t, dir);
    FirstAtTheEnd(u, dir, k, rest, rest);
    var x := dir + (rest + rest);
    UpToFirst(x, u, dir, k);
    assert x[k + |u|..] == rest;
    PlainIsKept(rest, u, u, dir);
    assert rest + [] == rest;
    OccursShifted(u, x[..k], dir + rest, k);
    ConcatAssoc(x[..k], dir, rest);
  }

  /** No token is left in any text exactly when nowhere in the directory either token starts or could start. */
  lemma NothingLeftIff(dir: string)
    requires Absolute(dir)
    ensures (forall s: string :: Finished(TwoPasses(s, BRACED, BARE, dir))) <==>
            Clear(dir, BRACED) && Clear(dir, BARE)
  {
    TheTokens();
    if !Clear(dir, BRACED) {
      var s := LeavesFirst(BRACED, BARE, dir);
      assert !Finished(TwoPasses(s, BRACED, BARE, dir));
    } else if !Clear(dir, BARE) {
      var k :| 0 <= k < |dir| && (BARE <= dir[k..] || dir[k..] <= BARE);
      if j: nat :| OccursAt(BARE, dir, j) {
        LeavesSecondInside(BRACED, BARE, dir, j);
        assert !Finished(TwoPasses(BRACED, BRACED, BARE, dir));
      } else {
        assert !OccursAt(BARE, dir, k);
        var s := LeavesSecondAtEnd(BRACED, BARE, dir, k);
        assert !Finished(TwoPasses(s, BRACED, BARE, dir));
      }
    } else {
      forall s: string ensures Finished(TwoPasses(s, BRACED, BARE, dir)) {
        PassesAgree(s, BRACED, BARE, dir);
        forall p: nat
          ensures !OccursAt(BRACED, TwoPasses(s, BRACED, BARE, dir), p)
          ensures !OccursAt(BARE, TwoPasses(s, BRACED, BARE, dir), p)
        {
          AtOnceLeavesNone(s, BRACED, BARE, dir, BRACED, p);
          AtOnceLeavesNone(s, BRACED, BARE, dir, BARE, p);
        }
      }
    }
  }

  /** A directory without a dollar sign is clear of both tokens. */
  lemma NoDollarIsClear(dir: string)
    requires forall i :: 0 <= i < |dir| ==> dir[i] != '$'
    ensures Clear(dir, BRACED) && Clear(dir, BARE)
  {
    forall k | 0 <= k < |dir| ensures dir[k..][0] != BRACED[0] && dir[k..][0] != BARE[0] {
    }
  }

  /** Both failures, on an input: a configuration directory whose name is a token. */
  lemma TokenInDirectory()
    ensures Absolute("/$PWD") && !Clear("/$PWD", BARE)
    ensures Rewrite(BRACED, BRACED, BARE, "/$PWD") == "/$PWD"
    ensures TwoPasses(BRACED, BRACED, BARE, "/$PWD") == "//$PWD"
    ensures !Finished("//$PWD")
  {
    var dir := "/$PWD";
    TheTokens();
    assert dir[1..] == BARE && OccursAt(BARE, dir, 1);
    assert BRACED + [] == BRACED && dir + [] == dir;
    AfterToken([], BRACED, BARE, dir);
    AfterToken([], BRACED, BRACED, dir);
    assert !OccursAt(BARE, dir, 0);
    UpToFirst(dir, BARE, dir, 1);
    assert dir[1 + |BARE|..] == [] && dir[..1] + dir + [] == "//$PWD";
    assert "//$PWD"[2..] == BARE;
    assert OccursAt(BARE, "//$PWD", 2);
  }
}
