/** Flattening: the lists `f` yields for each element of a sequence, one after another. This
    is the shape of a loop that pushes every item it produces for each input into one array. */
module Lists {
  function ConcatMap<T, U>(xs: seq<T>, f: T -> seq<U>): seq<U>
    decreases |xs|
  {
    if xs == [] then [] else ConcatMap(xs[..|xs| - 1], f) + f(xs[|xs| - 1])
  }

  /** Flattening distributes over concatenation of the inputs. */
  lemma {:induction false} ConcatMapSplit<T, U>(a: seq<T>, b: seq<T>, f: T -> seq<U>)
    ensures ConcatMap(a + b, f) == ConcatMap(a, f) + ConcatMap(b, f)
    decreases |b|
  {
    if b == [] {
      assert a + b == a;
    } else {
      var init := b[..|b| - 1];
      assert (a + b)[..|a + b| - 1] == a + init;
      assert (a + b)[|a + b| - 1] == b[|b| - 1];
      ConcatMapSplit(a, init, f);
    }
  }

  /** Flattening a sequence that starts with `x`. */
  lemma ConcatMapCons<T, U>(x: T, rest: seq<T>, f: T -> seq<U>)
    ensures ConcatMap([x] + rest, f) == f(x) + ConcatMap(rest, f)
  {
    assert ConcatMap([x], f) == f(x) by {
      assert [x][..0] == [];
    }
    ConcatMapSplit([x], rest, f);
  }

  /** An item is in the flattened list exactly when one input produced it. */
  lemma {:induction false} ConcatMapMember<T, U>(xs: seq<T>, f: T -> seq<U>, y: U)
    ensures y in ConcatMap(xs, f) <==> exists k :: 0 <= k < |xs| && y in f(xs[k])
    decreases |xs|
  {
    if xs != [] {
      var init := xs[..|xs| - 1];
      ConcatMapMember(init, f, y);
      if y in ConcatMap(xs, f) && y !in f(xs[|xs| - 1]) {
        var k :| 0 <= k < |init| && y in f(init[k]);
        assert xs[k] == init[k];
      }
      if exists k :: 0 <= k < |xs| && y in f(xs[k]) {
        var k :| 0 <= k < |xs| && y in f(xs[k]);
        if k < |init| {
          assert init[k] == xs[k];
        }
      }
    }
  }

  /** One more input appends its list. */
  lemma ConcatMapStep<T, U>(xs: seq<T>, f: T -> seq<U>, k: nat)
    requires k < |xs|
    ensures ConcatMap(xs[..k + 1], f) == ConcatMap(xs[..k], f) + f(xs[k])
  {
    assert xs[..k + 1][..k] == xs[..k];
  }
}
