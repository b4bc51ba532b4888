/** The cosigner key list of a multisig derivation: one derivation result per
    extended key, in input order.  Both scripts stop at the first cosigner
    that fails and return only that error; otherwise they use every derived
    key. */
module Cosigners {
  import opened Wrappers
  import opened Crypto

  function MapSeq<A, B>(f: A -> B, xs: seq<A>): (r: seq<B>)
    ensures |r| == |xs|
    ensures forall i :: 0 <= i < |xs| ==> r[i] == f(xs[i])
  {
    if xs == [] then [] else [f(xs[0])] + MapSeq(f, xs[1..])
  }

  lemma MapSeqSnoc<A, B>(f: A -> B, xs: seq<A>, i: nat)
    requires i < |xs|
    ensures MapSeq(f, xs[..i + 1]) == MapSeq(f, xs[..i]) + [f(xs[i])]
  {
  }

  lemma MapSeqAppend<A, B>(f: A -> B, a: seq<A>, b: seq<A>)
    ensures MapSeq(f, a + b) == MapSeq(f, a) + MapSeq(f, b)
  {
    assert forall i :: 0 <= i < |a + b| ==> MapSeq(f, a + b)[i] == (MapSeq(f, a) + MapSeq(f, b))[i];
  }

  /** Taking the same element out of two permutations leaves permutations. */
  lemma RemoveMatching<A>(xs: seq<A>, ys: seq<A>, j: nat)
    requires multiset(xs) == multiset(ys) && xs != [] && j < |ys| && ys[j] == xs[0]
    ensures multiset(xs[1..]) == multiset(ys[..j] + ys[j + 1..])
  {
    var x := xs[0];
    assert ys == ys[..j] + [x] + ys[j + 1..];
    assert xs == [x] + xs[1..];
    var m := multiset(ys[..j] + ys[j + 1..]);
    assert multiset(ys) == m + multiset{x};
    assert multiset(xs) == multiset(xs[1..]) + multiset{x};
    assert multiset(xs[1..]) == multiset(xs) - multiset{x};
    assert m == multiset(ys) - multiset{x};
  }

  lemma SplitAt<A>(ys: seq<A>, j: nat)
    requires j < |ys|
    ensures ys == ys[..j] + ([ys[j]] + ys[j + 1..])
  {
  }

  /** Mapping a permutation gives a permutation of the images. */
  lemma {:induction false} MapSeqMultiset<A, B>(f: A -> B, xs: seq<A>, ys: seq<A>)
    requires multiset(xs) == multiset(ys)
    ensures multiset(MapSeq(f, xs)) == multiset(MapSeq(f, ys))
  {
    if xs == [] {
      assert |ys| == |multiset(ys)| == 0;
    } else {
      var x := xs[0];
      assert x in multiset(xs);
      var j :| 0 <= j < |ys| && ys[j] == x;
      var ys' := ys[..j] + ys[j + 1..];
      var rest := xs[1..];
      RemoveMatching(xs, ys, j);
      MapSeqMultiset(f, rest, ys');
      MapSeqRemoveAt(f, ys, j);
      assert MapSeq(f, xs) == [f(x)] + MapSeq(f, rest);
      assert multiset(MapSeq(f, xs)) == multiset{f(x)} + multiset(MapSeq(f, rest));
    }
  }

  /** Taking element j out of a sequence takes its image out of the mapped
      multiset. */
  lemma MapSeqRemoveAt<A, B>(f: A -> B, ys: seq<A>, j: nat)
    requires j < |ys|
    ensures multiset(MapSeq(f, ys)) == multiset(MapSeq(f, ys[..j] + ys[j + 1..])) + multiset{f(ys[j])}
  {
    var a, b := MapSeq(f, ys[..j]), MapSeq(f, ys[j + 1..]);
    var tail := [ys[j]] + ys[j + 1..];
    assert MapSeq(f, ys) == a + MapSeq(f, tail) by {
      SplitAt(ys, j);
      MapSeqAppend(f, ys[..j], tail);
    }
    assert MapSeq(f, tail) == [f(ys[j])] + b by {
      MapSeqAppend(f, [ys[j]], ys[j + 1..]);
    }
    assert MapSeq(f, ys[..j] + ys[j + 1..]) == a + b by {
      MapSeqAppend(f, ys[..j], ys[j + 1..]);
    }
    calc {
      multiset(MapSeq(f, ys));
      multiset(a) + multiset(MapSeq(f, tail));
      multiset(a) + multiset{f(ys[j])} + multiset(b);
    }
  }

  /** i is the position of the first failed result. */
  predicate FirstFailure(rs: seq<Result<PubKey>>, i: nat) {
    i < |rs| && rs[i].Err? && forall j :: 0 <= j < i ==> rs[j].Ok?
  }

  /** The keys of all results, or the error of the first failure. */
  function Collect(rs: seq<Result<PubKey>>): (r: Result<seq<PubKey>>)
    ensures r.Ok? <==> forall i :: 0 <= i < |rs| ==> rs[i].Ok?
    ensures r.Ok? ==> |r.value| == |rs| && forall i :: 0 <= i < |rs| ==> rs[i] == Ok(r.value[i])
  {
    if |rs| == 0 then Ok([])
    else
      var init := rs[..|rs| - 1];
      assert forall j :: 0 <= j < |rs| - 1 ==> init[j] == rs[j];
      match Collect(init)
      case Err(e) => Err(e)
      case Ok(ks) =>
        match rs[|rs| - 1]
        case Err(e) => Err(e)
        case Ok(k) => Ok(ks + [k])
  }

  /** The first failure, when there is one, decides the error. */
  lemma {:induction false} CollectFirstFailure(rs: seq<Result<PubKey>>, i: nat)
    requires FirstFailure(rs, i)
    ensures Collect(rs) == Err(rs[i].error)
  {
    var init := rs[..|rs| - 1];
    assert forall j :: 0 <= j < |rs| - 1 ==> init[j] == rs[j];
    if i < |rs| - 1 {
      assert FirstFailure(init, i);
      CollectFirstFailure(init, i);
    } else {
      assert Collect(init).Ok?;
    }
  }

  /** One more successful element extends the collected keys by its key. */
  lemma CollectStepOk<A>(f: A -> Result<PubKey>, xs: seq<A>, i: nat, keys: seq<PubKey>)
    requires i < |xs| && f(xs[i]).Ok?
    requires Collect(MapSeq(f, xs[..i])) == Ok(keys)
    ensures Collect(MapSeq(f, xs[..i + 1])) == Ok(keys + [f(xs[i]).value])
  {
    MapSeqSnoc(f, xs, i);
    var rs := MapSeq(f, xs[..i + 1]);
    assert rs[..|rs| - 1] == MapSeq(f, xs[..i]);
  }

  /** The first failing element of a mapped sequence whose prefix collected
      without error decides the error. */
  lemma CollectStopsAt<A>(f: A -> Result<PubKey>, xs: seq<A>, i: nat)
    requires i < |xs| && f(xs[i]).Err?
    requires Collect(MapSeq(f, xs[..i])).Ok?
    ensures Collect(MapSeq(f, xs)) == Err(f(xs[i]).error)
  {
    var rs := MapSeq(f, xs);
    forall j | 0 <= j < i ensures rs[j].Ok? {
      assert MapSeq(f, xs[..i])[j] == f(xs[..i][j]) && xs[..i][j] == xs[j];
    }
    CollectFirstFailure(rs, i);
  }

  /** Success depends only on which results occur, not on their order. */
  lemma CollectOkPermutation(rs: seq<Result<PubKey>>, ss: seq<Result<PubKey>>)
    requires multiset(rs) == multiset(ss)
    ensures Collect(rs).Ok? == Collect(ss).Ok?
  {
    if Collect(rs).Err? {
      var i :| 0 <= i < |rs| && rs[i].Err?;
      assert rs[i] in multiset(ss);
    }
    if Collect(ss).Err? {
      var i :| 0 <= i < |ss| && ss[i].Err?;
      assert ss[i] in multiset(rs);
    }
  }

  /** The value inside a successful result (a fixed key otherwise). */
  function KeyOf(r: Result<PubKey>): PubKey {
    if r.Ok? then r.value else seq(33, _ => 2)
  }

  lemma CollectIsKeyOf(rs: seq<Result<PubKey>>)
    requires Collect(rs).Ok?
    ensures Collect(rs).value == MapSeq(KeyOf, rs)
  {
  }

  /** A permutation of the results collects to a permutation of the keys. */
  lemma CollectPermutation(rs: seq<Result<PubKey>>, ss: seq<Result<PubKey>>)
    requires multiset(rs) == multiset(ss)
    ensures Collect(rs).Ok? == Collect(ss).Ok?
    ensures Collect(rs).Ok? ==> multiset(Collect(rs).value) == multiset(Collect(ss).value)
  {
    CollectOkPermutation(rs, ss);
    if Collect(rs).Ok? {
      CollectIsKeyOf(rs);
      CollectIsKeyOf(ss);
      MapSeqMultiset(KeyOf, rs, ss);
    }
  }

  /** Results that agree position by position collect to agreeing key lists. */
  lemma CollectAgree(rs: seq<Result<PubKey>>, ss: seq<Result<PubKey>>)
    requires |rs| == |ss|
    requires forall i :: 0 <= i < |rs| ==> Agree(rs[i], ss[i])
    ensures Agree(Collect(rs), Collect(ss))
  {
    if Collect(rs).Ok? && Collect(ss).Ok? {
      assert Collect(rs).value == Collect(ss).value;
    }
  }
}
