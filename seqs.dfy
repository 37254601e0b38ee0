/** Small sequence helpers shared by both halves of the model. */
module Seqs {
  import opened Wrappers

  /** The index of the first element satisfying `p`, as `Array.prototype.find` locates it. */
  function FindFirst<T>(s: seq<T>, p: T -> bool): (r: Option<nat>)
    ensures r.Some? ==> r.value < |s| && p(s[r.value])
  {
    if s == [] then None
    else if p(s[0]) then Some(0)
    else match FindFirst(s[1..], p)
      case None => None
      case Some(k) => Some(k + 1)
  }

  /** `FindFirst` finds the first match, and finds none exactly when nothing matches. */
  lemma {:induction false} FindFirstSpec<T>(s: seq<T>, p: T -> bool)
    ensures FindFirst(s, p).Some? ==> forall j :: 0 <= j < FindFirst(s, p).value ==> !p(s[j])
    ensures FindFirst(s, p).None? <==> forall j :: 0 <= j < |s| ==> !p(s[j])
  {
    if s != [] && !p(s[0]) {
      FindFirstSpec(s[1..], p);
      assert forall j :: 1 <= j < |s| ==> s[j] == s[1..][j - 1];
    }
  }

  /** `s` with `sep` between consecutive elements, as `Array.prototype.join(sep)`. */
  function Join(pieces: seq<string>, sep: string): (r: string)
    ensures |pieces| == 1 ==> r == pieces[0]
  {
    if pieces == [] then ""
    else if |pieces| == 1 then pieces[0]
    else pieces[0] + sep + Join(pieces[1..], sep)
  }

  /** True iff `needle` occurs in `hay` at some position, as `String.prototype.includes`. */
  predicate Contains(hay: string, needle: string)
  {
    exists k :: 0 <= k <= |hay| - |needle| && OccursAt(hay, needle, k)
  }

  /** `needle` occurs in `hay` starting at index `k`. */
  predicate OccursAt(hay: string, needle: string, k: int)
  {
    0 <= k <= |hay| - |needle| && hay[k..k + |needle|] == needle
  }

  /** Every string contains the empty string. */
  lemma ContainsEmpty(hay: string)
    ensures Contains(hay, "")
  {
    assert OccursAt(hay, "", 0);
  }

  /**
   * The values `f` yields along `xs`, in order, skipping the elements it yields none for:
   * a loop that pushes `f(x)` whenever there is one.
   */
  function Collect<A, T>(xs: seq<A>, f: A -> Option<T>): (r: seq<T>)
    ensures |r| <= |xs|
  {
    if xs == [] then []
    else
      var last := f(xs[|xs| - 1]);
      Collect(xs[..|xs| - 1], f) + (if last.Some? then [last.value] else [])
  }

  /** One more element collects what `f` yields for it, if anything. */
  lemma CollectStep<A, T>(xs: seq<A>, k: nat, f: A -> Option<T>)
    requires k < |xs|
    ensures Collect(xs[..k + 1], f) == Collect(xs[..k], f) + (if f(xs[k]).Some? then [f(xs[k]).value] else [])
  {
    assert xs[..k + 1][..k] == xs[..k];
  }

  /** Collecting distributes over concatenation. */
  lemma {:induction false} CollectAppend<A, T>(a: seq<A>, b: seq<A>, f: A -> Option<T>)
    decreases |b|
    ensures Collect(a + b, f) == Collect(a, f) + Collect(b, f)
  {
    if b == [] {
      assert a + b == a;
    } else {
      var b' := b[..|b| - 1];
      assert (a + b)[..|a + b| - 1] == a + b';
      assert (a + b)[|a + b| - 1] == b[|b| - 1];
      CollectAppend(a, b', f);
    }
  }

  /** A value is collected exactly when `f` yields it for some element. */
  lemma {:induction false} CollectMembers<A, T>(xs: seq<A>, f: A -> Option<T>, y: T)
    ensures y in Collect(xs, f) <==> exists i :: 0 <= i < |xs| && f(xs[i]) == Some(y)
  {
    if xs != [] {
      var init := xs[..|xs| - 1];
      CollectMembers(init, f, y);
      if exists i :: 0 <= i < |xs| && f(xs[i]) == Some(y) {
        var i :| 0 <= i < |xs| && f(xs[i]) == Some(y);
        if i < |init| {
          assert f(init[i]) == Some(y);
        }
      }
      if exists i :: 0 <= i < |init| && f(init[i]) == Some(y) {
        var i :| 0 <= i < |init| && f(init[i]) == Some(y);
        assert f(xs[i]) == Some(y);
      }
    }
  }

  /** The test that `f` yields a value for an element. */
  function Yields<A, T>(f: A -> Option<T>): A -> bool
  {
    (x: A) => f(x).Some?
  }

  /** The first collected value comes from the first element `f` yields a value for. */
  lemma {:induction false} CollectFirst<A, T>(xs: seq<A>, f: A -> Option<T>)
    ensures var k := FindFirst(xs, Yields(f));
      && (Collect(xs, f) == [] <==> k.None?)
      && (k.Some? ==> Collect(xs, f)[0] == f(xs[k.value]).value)
  {
    if xs != [] {
      assert xs == [xs[0]] + xs[1..];
      CollectAppend([xs[0]], xs[1..], f);
      assert Collect([xs[0]], f) == (if f(xs[0]).Some? then [f(xs[0]).value] else []) by {
        assert [xs[0]][..0] == [];
      }
      CollectFirst(xs[1..], f);
    }
  }
}
