/** Small facts about sequences that several components rely on. */
module Sequences {

  datatype Option<+T> = None | Some(value: T)

  type byte = x: int | 0 <= x < 256

  function Sum(xs: seq<nat>): nat {
    if xs == [] then 0 else xs[0] + Sum(xs[1..])
  }

  lemma {:induction false} SumAppend(xs: seq<nat>, ys: seq<nat>)
    ensures Sum(xs + ys) == Sum(xs) + Sum(ys)
  {
    if xs == [] {
      assert xs + ys == ys;
    } else {
      SumAppend(xs[1..], ys);
      assert (xs + ys)[1..] == xs[1..] + ys;
    }
  }

  lemma {:induction false} SumUpdate(xs: seq<nat>, i: nat, x: nat)
    requires i < |xs|
    ensures Sum(xs[i := x]) + xs[i] == Sum(xs) + x
  {
    if i == 0 {
      assert xs[0 := x][1..] == xs[1..];
    } else {
      SumUpdate(xs[1..], i - 1, x);
      assert xs[i := x][1..] == xs[1..][i - 1 := x];
    }
  }

  ghost predicate Distinct<T>(xs: seq<T>) {
    forall i, j :: 0 <= i < j < |xs| ==> xs[i] != xs[j]
  }

  lemma Assoc<T>(a: seq<T>, b: seq<T>, c: seq<T>)
    ensures a + (b + c) == (a + b) + c
  {}

  function FlatMap<T, U>(f: T -> seq<U>, xs: seq<T>): seq<U> {
    if xs == [] then [] else f(xs[0]) + FlatMap(f, xs[1..])
  }

  lemma {:induction false} FlatMapJoin<T, U>(f: T -> seq<U>, xs: seq<T>, ys: seq<T>)
    ensures FlatMap(f, xs + ys) == FlatMap(f, xs) + FlatMap(f, ys)
  {
    if xs == [] {
      assert xs + ys == ys;
    } else {
      FlatMapJoin(f, xs[1..], ys);
      assert (xs + ys)[1..] == xs[1..] + ys;
      assert FlatMap(f, xs) == f(xs[0]) + FlatMap(f, xs[1..]);
      assert FlatMap(f, xs + ys) == f(xs[0]) + (FlatMap(f, xs[1..]) + FlatMap(f, ys));
      Assoc(f(xs[0]), FlatMap(f, xs[1..]), FlatMap(f, ys));
    }
  }

  lemma {:induction false} FlatMapIn<T, U>(f: T -> seq<U>, xs: seq<T>, u: U)
    ensures u in FlatMap(f, xs) <==> exists i :: 0 <= i < |xs| && u in f(xs[i])
  {
    if xs != [] {
      FlatMapIn(f, xs[1..], u);
      if i :| 0 <= i < |xs| && u in f(xs[i]) {
        assert i > 0 ==> u in f(xs[1..][i - 1]);
      }
      if i :| 0 <= i < |xs[1..]| && u in f(xs[1..][i]) {
        assert u in f(xs[i + 1]);
      }
    }
  }

  function Filter<T>(keep: T -> bool, xs: seq<T>): seq<T> {
    if xs == [] then [] else (if keep(xs[0]) then [xs[0]] else []) + Filter(keep, xs[1..])
  }

  lemma {:induction false} FilterJoin<T>(keep: T -> bool, xs: seq<T>, ys: seq<T>)
    ensures Filter(keep, xs + ys) == Filter(keep, xs) + Filter(keep, ys)
  {
    if xs == [] {
      assert xs + ys == ys;
    } else {
      FilterJoin(keep, xs[1..], ys);
      assert (xs + ys)[1..] == xs[1..] + ys;
      var head, more, rest := if keep(xs[0]) then [xs[0]] else [], Filter(keep, xs[1..]), Filter(keep, ys);
      assert Filter(keep, xs) == head + more;
      assert Filter(keep, xs + ys) == head + (more + rest);
      Assoc(head, more, rest);
    }
  }

  lemma {:induction false} FilterIn<T>(keep: T -> bool, xs: seq<T>, x: T)
    ensures x in Filter(keep, xs) <==> x in xs && keep(x)
  {
    if xs != [] {
      FilterIn(keep, xs[1..], x);
      assert x in xs <==> x == xs[0] || x in xs[1..];
    }
  }

  /** Two places that are kept are two places of the result, in the same order. */
  lemma FilterPair<T>(keep: T -> bool, xs: seq<T>, i: nat, j: nat)
    requires i < j < |xs| && keep(xs[i]) && keep(xs[j])
    ensures exists a, b :: 0 <= a < b < |Filter(keep, xs)| && Filter(keep, xs)[a] == xs[i] && Filter(keep, xs)[b] == xs[j]
  {
    assert xs == xs[..j] + xs[j..];
    FilterJoin(keep, xs[..j], xs[j..]);
    assert xs[i] in xs[..j];
    FilterIn(keep, xs[..j], xs[i]);
    var front := Filter(keep, xs[..j]);
    var a :| 0 <= a < |front| && front[a] == xs[i];
    assert Filter(keep, xs)[a] == xs[i];
    assert Filter(keep, xs)[|front|] == Filter(keep, xs[j..])[0] == xs[j];
  }

  lemma {:induction false} FilterUniform<T>(keep: T -> bool, xs: seq<T>, kept: bool)
    requires forall i :: 0 <= i < |xs| ==> keep(xs[i]) == kept
    ensures Filter(keep, xs) == if kept then xs else []
  {
    if xs != [] { FilterUniform(keep, xs[1..], kept); }
  }

  /** All results in order, or nothing if one of them is missing. */
  function AllSome<T, U>(f: T -> Option<U>, xs: seq<T>): Option<seq<U>> {
    if xs == [] then Some([]) else
      var y, ys := f(xs[0]), AllSome(f, xs[1..]);
      if y.Some? && ys.Some? then Some([y.value] + ys.value) else None
  }

  lemma {:induction false} AllSomeJoin<T, U>(f: T -> Option<U>, xs: seq<T>, ys: seq<T>)
    ensures AllSome(f, xs + ys) ==
      if AllSome(f, xs).Some? && AllSome(f, ys).Some?
      then Some(AllSome(f, xs).value + AllSome(f, ys).value) else None
  {
    if xs == [] {
      assert xs + ys == ys;
      if AllSome(f, ys).Some? {
        assert [] + AllSome(f, ys).value == AllSome(f, ys).value;
      }
    } else {
      AllSomeJoin(f, xs[1..], ys);
      assert (xs + ys)[1..] == xs[1..] + ys;
      if AllSome(f, xs).Some? && AllSome(f, ys).Some? {
        var u, us, vs := f(xs[0]).value, AllSome(f, xs[1..]).value, AllSome(f, ys).value;
        assert [u] + (us + vs) == ([u] + us) + vs;
      }
    }
  }

  lemma {:induction false} AllSomeIs<T, U>(f: T -> Option<U>, xs: seq<T>)
    ensures AllSome(f, xs).Some? <==> forall i :: 0 <= i < |xs| ==> f(xs[i]).Some?
    ensures AllSome(f, xs).Some? ==>
      && |AllSome(f, xs).value| == |xs|
      && forall i :: 0 <= i < |xs| ==> f(xs[i]) == Some(AllSome(f, xs).value[i])
  {
    if xs != [] {
      var rest := xs[1..];
      AllSomeIs(f, rest);
      assert forall i :: 0 <= i < |rest| ==> xs[i + 1] == rest[i];
      if AllSome(f, xs).Some? {
        forall i | 0 <= i < |xs| ensures f(xs[i]) == Some(AllSome(f, xs).value[i]) {
          assert i > 0 ==> xs[i] == rest[i - 1];
        }
      } else if AllSome(f, rest) == None {
        var i :| 0 <= i < |rest| && !f(rest[i]).Some?;
        assert !f(xs[i + 1]).Some?;
      }
    }
  }

  /** One element more; and a missing one spoils the whole. */
  lemma AllSomeNext<T, U>(f: T -> Option<U>, xs: seq<T>, j: nat)
    requires j < |xs| && AllSome(f, xs[..j]).Some?
    ensures f(xs[j]).Some? ==> AllSome(f, xs[..j + 1]) == Some(AllSome(f, xs[..j]).value + [f(xs[j]).value])
    ensures f(xs[j]) == None ==> AllSome(f, xs) == None
  {
    AllSomeIs(f, xs);
    var front := xs[..j + 1];
    AllSomeJoin(f, xs[..j], [xs[j]]);
    assert front == xs[..j] + [xs[j]];
    AllSomeIs(f, [xs[j]]);
    if f(xs[j]).Some? {
      assert AllSome(f, [xs[j]]).value == [f(xs[j]).value];
    }
  }
}
