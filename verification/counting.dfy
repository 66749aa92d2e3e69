/**
 * Counting dictionaries: a map from a string to the number of times it was
 * seen, grown one occurrence at a time. Deck.increment updates one in place;
 * countStrings folds a list into one.
 */
module Counting {
  /** The counts with one more occurrence of `key`: a key not yet present starts at 1. */
  function Bumped(m: map<string, nat>, key: string): (r: map<string, nat>)
    ensures r.Keys == m.Keys + {key}
    ensures key in m ==> r[key] == m[key] + 1
    ensures key !in m ==> r[key] == 1
    ensures forall k :: k in m && k != key ==> r[k] == m[k]
  {
    m[key := if key in m then m[key] + 1 else 1]
  }

  /** The counts after one occurrence of each key in turn, starting from m. */
  function TallyFrom(m: map<string, nat>, keys: seq<string>): map<string, nat>
    decreases |keys|
  {
    if keys == [] then m else Bumped(TallyFrom(m, keys[..|keys| - 1]), keys[|keys| - 1])
  }

  /** How many times k was seen: its count in m plus its occurrences in the keys. */
  function CountOf(m: map<string, nat>, keys: seq<string>, k: string): nat {
    (if k in m then m[k] else 0) + multiset(keys)[k]
  }

  /**
   * A key ends up counted exactly when it was counted before or occurs in the
   * keys, and its count is its old count plus its number of occurrences.
   */
  lemma {:induction false} TallyFromCounts(m: map<string, nat>, keys: seq<string>, k: string)
    ensures k in TallyFrom(m, keys) <==> k in m || k in keys
    ensures k in TallyFrom(m, keys) ==> TallyFrom(m, keys)[k] == CountOf(m, keys, k)
    decreases |keys|
  {
    if keys != [] {
      var init, last := keys[..|keys| - 1], keys[|keys| - 1];
      assert keys == init + [last];
      TallyFromCounts(m, init, k);
      assert multiset(keys)[k] == multiset(init)[k] + if k == last then 1 else 0;
    }
  }

  /** Counted from nothing, the keys are exactly the elements and each count is a number of occurrences. */
  lemma TallyOfList(keys: seq<string>)
    ensures forall k :: k in TallyFrom(map[], keys) <==> k in keys
    ensures forall k :: k in TallyFrom(map[], keys) ==> TallyFrom(map[], keys)[k] == multiset(keys)[k]
  {
    forall k {
      TallyFromCounts(map[], keys, k);
    }
  }

  /** Counting two lists one after the other is counting their concatenation. */
  lemma {:induction false} TallyFromAppend(m: map<string, nat>, a: seq<string>, b: seq<string>)
    ensures TallyFrom(m, a + b) == TallyFrom(TallyFrom(m, a), b)
    decreases |b|
  {
    if b == [] {
      assert a + b == a;
    } else {
      var init := b[..|b| - 1];
      assert (a + b)[..|a + b| - 1] == a + init;
      assert (a + b)[|a + b| - 1] == b[|b| - 1];
      TallyFromAppend(m, a, init);
    }
  }

  /** Keeps the counts of a deck profile section or of its archetypes; Deck.increment updates one in place. */
  class ProfileCounts {
    var counts: map<string, nat>

    constructor (init: map<string, nat>)
      ensures counts == init
    {
      counts := init;
    }

    /** Deck.increment: one more occurrence of key. */
    method Increment(key: string)
      modifies this
      ensures counts == Bumped(old(counts), key)
    {
      if key in counts {
        counts := counts[key := counts[key] + 1];
      } else {
        counts := counts[key := 1];
      }
    }
  }

  /** One more key at the end is one more bump. */
  lemma TallyFromSnoc(m: map<string, nat>, keys: seq<string>, key: string)
    ensures TallyFrom(m, keys + [key]) == Bumped(TallyFrom(m, keys), key)
  {
    assert (keys + [key])[..|keys|] == keys;
  }

  /** No more keys, no change. */
  lemma TallyFromNothing(m: map<string, nat>, keys: seq<string>)
    ensures TallyFrom(m, keys + []) == TallyFrom(m, keys)
  {
    assert keys + [] == keys;
  }

  /** One more key is one more bump. */
  lemma TallyFromStep(m: map<string, nat>, keys: seq<string>, i: nat)
    requires i < |keys|
    ensures TallyFrom(m, keys[..i + 1]) == Bumped(TallyFrom(m, keys[..i]), keys[i])
  {
    assert keys[..i + 1][..i] == keys[..i];
  }
}
