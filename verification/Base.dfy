/** Shared vocabulary: resources, the (mal_id, resource) key and its order, optional values. */
module Base {

  datatype Option<+T> = None | Some(value: T)

  /** The resources of one anime, in the order the index table sorts them: alphabetically. */
  datatype Resource = Characters | Details | Episodes | Reviews | Statistics

  function Rank(r: Resource): nat {
    match r
    case Characters => 0
    case Details => 1
    case Episodes => 2
    case Reviews => 3
    case Statistics => 4
  }

  /** Primary key of the task ledger, of the raw index and of the object store. */
  datatype Key = Key(malId: int, resource: Resource)

  /** The order of `ORDER BY mal_id, resource`. */
  predicate Less(a: Key, b: Key) {
    a.malId < b.malId || (a.malId == b.malId && Rank(a.resource) < Rank(b.resource))
  }

  predicate SortedKeys(s: seq<Key>) {
    forall i, j | 0 <= i < j < |s| :: Less(s[i], s[j])
  }

  function SetOf<T>(s: seq<T>): set<T> {
    set x | x in s
  }

  lemma HasElement(b: seq<Key>)
    requires b != []
    ensures exists k :: k in b
  {
    assert b[0] in b;
  }

  /** A strictly sorted sequence is determined by its elements. */
  lemma {:induction false} SortedUnique(a: seq<Key>, b: seq<Key>)
    requires SortedKeys(a) && SortedKeys(b)
    requires forall k :: k in a <==> k in b
    ensures a == b
  {
    if a == [] {
      if b != [] { HasElement(b); }
    } else {
      assert a[0] in b;
      assert b[0] in a;
      assert a[0] == b[0];
      var ta, tb := a[1..], b[1..];
      forall k ensures k in ta <==> k in tb {
        if k in ta { assert k in a && k != a[0]; assert k in b; }
        if k in tb { assert k in b && k != b[0]; assert k in a; }
      }
      SortedUnique(ta, tb);
      assert a == [a[0]] + ta && b == [b[0]] + tb;
    }
  }

  predicate IsFirst(m: Key, s: set<Key>) {
    m in s && forall k | k in s :: k == m || Less(m, k)
  }

  lemma {:induction false} FirstExists(s: set<Key>)
    requires s != {}
    ensures exists m :: IsFirst(m, s)
    decreases |s|
  {
    var x :| x in s;
    if s == {x} {
      assert IsFirst(x, s);
    } else {
      var rest := s - {x};
      assert x !in rest && s == rest + {x};
      FirstExists(rest);
      var m :| IsFirst(m, rest);
      assert IsFirst(if Less(m, x) then m else x, s);
    }
  }

  /** `ORDER BY mal_id, resource` over a set of rows. */
  function Ordered(s: set<Key>): (r: seq<Key>)
    ensures SortedKeys(r)
    ensures forall k :: k in r <==> k in s
    ensures |r| == |s|
    decreases |s|
  {
    if s == {} then [] else
      FirstExists(s);
      var m :| IsFirst(m, s);
      [m] + Ordered(s - {m})
  }

  /** `step` over a list of inputs, first to last. */
  function FoldLeft<S, D>(step: (S, D) -> S, s: S, inputs: seq<D>): S {
    if inputs == [] then s
    else step(FoldLeft(step, s, inputs[..|inputs| - 1]), inputs[|inputs| - 1])
  }

  lemma {:induction false} FoldLeftConcat<S, D>(step: (S, D) -> S, s: S, a: seq<D>, b: seq<D>)
    ensures FoldLeft(step, s, a + b) == FoldLeft(step, FoldLeft(step, s, a), b)
  {
    if b == [] {
      assert a + b == a;
    } else {
      FoldLeftConcat(step, s, a, b[..|b| - 1]);
      assert (a + b)[..|a + b| - 1] == a + b[..|b| - 1];
    }
  }

  // --- steps that may be repeated -----------------------------------------------------------------

  /** No input would change the state. */
  predicate Fixed<S(==), D>(step: (S, D) -> S, s: S, inputs: seq<D>) {
    forall i | 0 <= i < |inputs| :: step(s, inputs[i]) == s
  }

  ghost predicate StaysFixed<S(!new), D>(step: (S, D) -> S, earlier: D, later: D) {
    forall s :: step(s, earlier) == s ==> step(step(s, later), earlier) == step(s, later)
  }

  ghost predicate Idempotent<S(!new), D>(step: (S, D) -> S, input: D) {
    forall s :: step(step(s, input), input) == step(s, input)
  }

  /** Repeating an input changes nothing, not even after the inputs that follow it in the list. */
  ghost predicate Repeatable<S(!new), D>(step: (S, D) -> S, inputs: seq<D>) {
    (forall i | 0 <= i < |inputs| :: Idempotent(step, inputs[i])) &&
    (forall i, j | 0 <= i < j < |inputs| :: StaysFixed(step, inputs[i], inputs[j]))
  }

  lemma {:induction false} FoldLeftFixes<S(!new), D>(step: (S, D) -> S, s: S, inputs: seq<D>)
    requires Repeatable(step, inputs)
    ensures Fixed(step, FoldLeft(step, s, inputs), inputs)
  {
    if inputs != [] {
      var n := |inputs| - 1;
      var before := FoldLeft(step, s, inputs[..n]);
      FoldLeftFixes(step, s, inputs[..n]);
      assert Idempotent(step, inputs[n]);
      forall i | 0 <= i < n ensures step(step(before, inputs[n]), inputs[i]) == step(before, inputs[n]) {
        assert step(before, inputs[..n][i]) == before;
        assert StaysFixed(step, inputs[i], inputs[n]);
      }
    }
  }

  lemma {:induction false} FoldLeftOfFixed<S, D>(step: (S, D) -> S, s: S, inputs: seq<D>)
    requires Fixed(step, s, inputs)
    ensures FoldLeft(step, s, inputs) == s
  {
    if inputs != [] {
      FoldLeftOfFixed(step, s, inputs[..|inputs| - 1]);
    }
  }

  function TwoTo(n: nat): nat {
    if n == 0 then 1 else 2 * TwoTo(n - 1)
  }

  function Max(a: nat, b: nat): nat { if a < b then b else a }

  function Min(a: nat, b: nat): nat { if a < b then a else b }

  /** Going on from an earlier input than the last one processed replays, which is harmless. */
  lemma FoldLeftReplay<S(!new), D>(step: (S, D) -> S, s: S, inputs: seq<D>, start: nat, done: nat, end: nat)
    requires Repeatable(step, inputs) && start <= done <= |inputs| && start <= end <= |inputs|
    ensures FoldLeft(step, FoldLeft(step, s, inputs[..done]), inputs[start..end])
         == FoldLeft(step, s, inputs[..Max(done, end)])
  {
    var after := FoldLeft(step, s, inputs[..done]);
    FoldLeftFixes(step, s, inputs[..done]);
    var again := if end < done then end else done;
    forall i | 0 <= i < again - start ensures step(after, inputs[start..again][i]) == after {
      assert inputs[start..again][i] == inputs[..done][start + i];
    }
    FoldLeftOfFixed(step, after, inputs[start..again]);
    assert inputs[start..end] == inputs[start..again] + inputs[again..end];
    FoldLeftConcat(step, after, inputs[start..again], inputs[again..end]);
    if done < end {
      assert inputs[..end] == inputs[..done] + inputs[done..end];
      FoldLeftConcat(step, s, inputs[..done], inputs[done..end]);
    }
  }
}
