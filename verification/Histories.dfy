/** What a store and its records go through over any number of steps. */
module Histories {
  import opened Exchange

  /** Every record of `s` is still there in `s'`, and `follows` what it was. */
  ghost predicate Advances<S(!new), D(!new)>(s: Store<S, D>, s': Store<S, D>, follows: (Record<S, D>, Record<S, D>) -> bool) {
    forall id :: id in s.records ==> id in s'.records && follows(s.records[id], s'.records[id])
  }

  /** Where step `n` starts from a sound store, it ends in one, and advances. */
  ghost predicate LawfulStep<S(!new), D(!new)>(
    ss: seq<Store<S, D>>, n: nat, sound: Store<S, D> -> bool, follows: (Record<S, D>, Record<S, D>) -> bool)
    requires n + 1 < |ss|
  {
    sound(ss[n]) ==> sound(ss[n + 1]) && Advances(ss[n], ss[n + 1], follows)
  }

  ghost predicate Lawful<S(!new), D(!new)>(
    ss: seq<Store<S, D>>, sound: Store<S, D> -> bool, follows: (Record<S, D>, Record<S, D>) -> bool)
  {
    |ss| > 0 && sound(ss[0]) && forall n: nat :: n + 1 < |ss| ==> LawfulStep(ss, n, sound, follows)
  }

  lemma {:induction false} AllSound<S(!new), D(!new)>(
    ss: seq<Store<S, D>>, sound: Store<S, D> -> bool, follows: (Record<S, D>, Record<S, D>) -> bool, n: nat)
    requires Lawful(ss, sound, follows) && n < |ss|
    ensures sound(ss[n])
  {
    if n > 0 {
      AllSound(ss, sound, follows, n - 1);
      assert LawfulStep(ss, n - 1, sound, follows);
    }
  }

  /** What no step breaks holds between a record at one time and the same record at any later time. */
  lemma {:induction false} Persists<S(!new), D(!new)>(
    ss: seq<Store<S, D>>, sound: Store<S, D> -> bool, follows: (Record<S, D>, Record<S, D>) -> bool,
    kept: (Record<S, D>, Record<S, D>) -> bool, i: nat, j: nat, id: nat)
    requires Lawful(ss, sound, follows) && i <= j < |ss| && id in ss[i].records
    requires forall r :: kept(r, r)
    requires forall r, r', r'' :: kept(r, r') && follows(r', r'') ==> kept(r, r'')
    ensures id in ss[j].records && kept(ss[i].records[id], ss[j].records[id])
  {
    if i < j {
      Persists(ss, sound, follows, kept, i, j - 1, id);
      AllSound(ss, sound, follows, j - 1);
      assert LawfulStep(ss, j - 1, sound, follows);
    }
  }

  /** What a record has of its own was not there at first; so a step put it there. */
  lemma {:induction false} Traced<S(!new), D(!new), B(!new)>(
    ss: seq<Store<S, D>>, own: (Record<S, D>, Message<B>) -> bool, said: (nat, nat, Message<B>) -> bool,
    i: nat, id: nat, m: Message<B>) returns (k: nat)
    requires i < |ss| && ss[0].records == map[] && id in ss[i].records && own(ss[i].records[id], m)
    requires forall n: nat, x: nat, w: Message<B> :: n + 1 < |ss| && Newly(ss, own, n, x, w) ==> said(n, x, w)
    ensures k < i && said(k, id, m)
  {
    assert i > 0;
    if id in ss[i - 1].records && own(ss[i - 1].records[id], m) {
      k := Traced(ss, own, said, i - 1, id, m);
    } else {
      k := i - 1;
      assert Newly(ss, own, k, id, m);
    }
  }

  /** Record `id` has this message of its own only after step `n`. */
  ghost predicate Newly<S(!new), D(!new), B(!new)>(
    ss: seq<Store<S, D>>, own: (Record<S, D>, Message<B>) -> bool, n: nat, id: nat, m: Message<B>)
    requires n + 1 < |ss|
  {
    && id in ss[n + 1].records && own(ss[n + 1].records[id], m)
    && !(id in ss[n].records && own(ss[n].records[id], m))
  }
}
