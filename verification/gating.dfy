/** The conditional-list idiom of the configuration files: entries written
    as `cond && value` and the list then passed through `filter(Boolean)`. */
module Gating {
  import opened Wrappers

  /** `cond && value`: the value when the condition holds, a falsy one otherwise. */
  function Gate<T>(cond: bool, value: T): Option<T> {
    if cond then Some(value) else None
  }

  /** `xs.filter(Boolean)`: keeps the present entries and drops the falsy ones. */
  function Compact<T>(xs: seq<Option<T>>): (r: seq<T>)
    ensures |r| <= |xs|
    ensures (forall i :: 0 <= i < |xs| ==> xs[i].Some?) ==> |r| == |xs|
  {
    if |xs| == 0 then []
    else if xs[0].Some? then [xs[0].value] + Compact(xs[1..])
    else Compact(xs[1..])
  }

  /** Exactly the present entries survive filtering. */
  lemma {:induction false} CompactMembership<T>(xs: seq<Option<T>>)
    ensures forall k :: 0 <= k < |Compact(xs)| ==> Some(Compact(xs)[k]) in xs
    ensures forall i :: 0 <= i < |xs| && xs[i].Some? ==> xs[i].value in Compact(xs)
  {
    if |xs| > 0 {
      CompactMembership(xs[1..]);
      forall i | 0 <= i < |xs| && xs[i].Some? ensures xs[i].value in Compact(xs) {
        if i > 0 { assert xs[i] == xs[1..][i - 1]; }
      }
      forall k | 0 <= k < |Compact(xs)| ensures Some(Compact(xs)[k]) in xs {
        if xs[0].Some? && k == 0 {
        } else if xs[0].Some? {
          assert Compact(xs)[k] == Compact(xs[1..])[k - 1];
        } else {
          assert Compact(xs)[k] == Compact(xs[1..])[k];
        }
      }
    }
  }

  /** Filtering distributes over concatenation: whatever stands in the first
      part of the list stays in front of whatever stands in the second. */
  lemma {:induction false} CompactAppend<T>(a: seq<Option<T>>, b: seq<Option<T>>)
    ensures Compact(a + b) == Compact(a) + Compact(b)
  {
    if |a| == 0 {
      assert a + b == b;
    } else {
      assert (a + b)[1..] == a[1..] + b;
      CompactAppend(a[1..], b);
    }
  }

  /** Filtering keeps the relative order of any two present entries. */
  lemma CompactKeepsOrder<T>(xs: seq<Option<T>>, i: nat, j: nat)
    requires i < j < |xs| && xs[i].Some? && xs[j].Some?
    ensures exists p, q :: 0 <= p < q < |Compact(xs)|
                           && Compact(xs)[p] == xs[i].value && Compact(xs)[q] == xs[j].value
  {
    var front, back := xs[..j], xs[j..];
    assert xs == front + back;
    CompactAppend(front, back);
    CompactMembership(front);
    assert front[i] == xs[i];
    var cf := Compact(front);
    var p :| 0 <= p < |cf| && cf[p] == xs[i].value;
    assert back[0] == xs[j];
    assert Compact(back)[0] == xs[j].value;
    assert Compact(xs)[p] == xs[i].value;
    assert Compact(xs)[|cf|] == xs[j].value;
  }

  /** An entry whose gate is closed contributes nothing, one whose gate is
      open contributes exactly its value. */
  lemma GateContributes<T>(cond: bool, value: T)
    ensures Compact([Gate(cond, value)]) == if cond then [value] else []
  {
  }

  /** What one entry contributes to the filtered list. */
  function Present<T>(x: Option<T>): seq<T> {
    if x.Some? then [x.value] else []
  }

  /** Filtering a list one entry at a time, from the front. */
  lemma CompactCons<T>(x: Option<T>, rest: seq<Option<T>>)
    ensures Compact([x] + rest) == Present(x) + Compact(rest)
  {
    assert ([x] + rest)[1..] == rest;
  }

  /** A five-entry gated list, filtered. */
  lemma CompactFive<T>(a: Option<T>, b: Option<T>, c: Option<T>, d: Option<T>, e: Option<T>)
    ensures Compact([a, b, c, d, e]) == Present(a) + (Present(b) + (Present(c) + (Present(d) + Present(e))))
  {
    var r1 := Compact([e]);
    assert r1 == Present(e) by { CompactCons(e, []); assert [e] == [e] + []; }
    var r2 := Compact([d, e]);
    assert r2 == Present(d) + r1 by { CompactCons(d, [e]); assert [d, e] == [d] + [e]; }
    var r3 := Compact([c, d, e]);
    assert r3 == Present(c) + r2 by { CompactCons(c, [d, e]); assert [c, d, e] == [c] + [d, e]; }
    var r4 := Compact([b, c, d, e]);
    assert r4 == Present(b) + r3 by { CompactCons(b, [c, d, e]); assert [b, c, d, e] == [b] + [c, d, e]; }
    CompactCons(a, [b, c, d, e]);
    assert [a, b, c, d, e] == [a] + [b, c, d, e];
  }

  /** A six-entry gated list, filtered. */
  lemma CompactSix<T>(a: Option<T>, b: Option<T>, c: Option<T>, d: Option<T>, e: Option<T>, f: Option<T>)
    ensures Compact([a, b, c, d, e, f])
            == Present(a) + (Present(b) + (Present(c) + (Present(d) + (Present(e) + Present(f)))))
  {
    var r5 := Compact([b, c, d, e, f]);
    assert r5 == Present(b) + (Present(c) + (Present(d) + (Present(e) + Present(f)))) by {
      CompactFive(b, c, d, e, f);
    }
    CompactCons(a, [b, c, d, e, f]);
    assert [a, b, c, d, e, f] == [a] + [b, c, d, e, f];
  }
}
