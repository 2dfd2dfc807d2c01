/** The `KittyBabies` index: for each account, the list of kitty ids it owns,
    kept in step with the `Owner` map.  Appends go at the end; removal is a
    swap-remove, so order is not preserved. */
module OwnerIndex {
  import opened Runtime
  import opened KittyTypes

  predicate Distinct(s: seq<KittyIndex>) {
    forall i, j :: 0 <= i < j < |s| ==> s[i] != s[j]
  }

  /** `x` occurs at most once in `s`. */
  predicate AtMostOnce(s: seq<KittyIndex>, x: KittyIndex) {
    forall i, j :: 0 <= i < j < |s| && s[i] == x ==> s[j] != x
  }

  /** The first position of `x` in `s`. */
  function IndexOf(s: seq<KittyIndex>, x: KittyIndex): (k: nat)
    requires x in s
    ensures k < |s| && s[k] == x && x !in s[..k]
  {
    if s[0] == x then 0
    else
      var k := 1 + IndexOf(s[1..], x);
      assert s[..k] == [s[0]] + s[1..][..k - 1];
      k
  }

  /** `Vec::swap_remove(k)`: the last element takes slot `k` and the last slot is dropped. */
  function SwapRemove(s: seq<KittyIndex>, k: nat): (r: seq<KittyIndex>)
    requires k < |s|
    ensures |r| == |s| - 1
    ensures k < |r| ==> r[k] == s[|s| - 1]
    ensures forall i :: 0 <= i < |r| && i != k ==> r[i] == s[i]
  {
    s[k := s[|s| - 1]][..|s| - 1]
  }

  /** The list after removing `x` by swap-remove at its position; unchanged when `x` is absent. */
  function Without(s: seq<KittyIndex>, x: KittyIndex): (r: seq<KittyIndex>)
    ensures x in s ==> |r| == |s| - 1
    ensures x !in s ==> r == s
  {
    if x in s then SwapRemove(s, IndexOf(s, x)) else s
  }

  /** The loop of `remove_kittyid_from_kitty_babies_list`: it walks a copy of
      the original list and swap-removes at every position where the copy holds
      `kittyId`.  With a second occurrence the loop can index past the end of
      the shrunken list, so the id must occur at most once. */
  method RemoveKittyId(babies: seq<KittyIndex>, kittyId: KittyIndex) returns (r: seq<KittyIndex>)
    requires AtMostOnce(babies, kittyId)
    ensures r == Without(babies, kittyId)
  {
    var original := babies;
    r := babies;
    for index := 0 to |original|
      invariant kittyId !in original[..index] ==> r == original
      invariant kittyId in original[..index] ==> kittyId in original && r == SwapRemove(original, IndexOf(original, kittyId))
    {
      if original[index] == kittyId {
        assert kittyId !in original[..index];
        assert IndexOf(original, kittyId) == index;
        r := r[index := r[|r| - 1]][..|r| - 1];
      }
      assert original[..index + 1] == original[..index] + [original[index]];
    }
    assert original[..|original|] == original;
  }

  /** Swap-remove keeps every other element: the multiset loses exactly the removed one. */
  lemma SwapRemovePermutes(s: seq<KittyIndex>, k: nat)
    requires k < |s|
    ensures |SwapRemove(s, k)| == |s| - 1
    ensures multiset(SwapRemove(s, k)) == multiset(s) - multiset{s[k]}
  {
    var n := |s| - 1;
    if k == n {
      assert s == SwapRemove(s, k) + [s[k]];
    } else {
      assert s == s[..k] + [s[k]] + s[k + 1..n] + [s[n]];
      assert SwapRemove(s, k) == s[..k] + [s[n]] + s[k + 1..n];
    }
  }

  /** When `s[k]` occurs once, swap-removing position `k` deletes exactly that value. */
  lemma SwapRemoveMembership(s: seq<KittyIndex>, k: nat, y: KittyIndex)
    requires k < |s| && AtMostOnce(s, s[k])
    ensures y in SwapRemove(s, k) <==> y in s && y != s[k]
  {
    var n := |s| - 1;
    var r := SwapRemove(s, k);
    if y in r {
      var i :| 0 <= i < |r| && r[i] == y;
      if i == k { assert s[n] == y && k < n; } else { assert s[i] == y; }
    }
    if y in s && y != s[k] {
      var j :| 0 <= j < |s| && s[j] == y;
      if j == n { assert r[k] == y; } else { assert r[j] == y; }
    }
  }

  lemma SwapRemoveDistinct(s: seq<KittyIndex>, k: nat)
    requires k < |s| && Distinct(s)
    ensures Distinct(SwapRemove(s, k))
  {
  }

  /** Removing `x` drops exactly `x` and shortens the list by one when it was present,
      keeps the list as it was otherwise, and keeps the list duplicate-free. */
  lemma WithoutRemovesExactly(s: seq<KittyIndex>, x: KittyIndex)
    requires AtMostOnce(s, x)
    ensures forall y :: y in Without(s, x) <==> y in s && y != x
    ensures x in s ==> |Without(s, x)| == |s| - 1 && multiset(Without(s, x)) == multiset(s) - multiset{x}
    ensures x !in s ==> Without(s, x) == s
    ensures Distinct(s) ==> Distinct(Without(s, x))
  {
    if x in s {
      var k := IndexOf(s, x);
      SwapRemovePermutes(s, k);
      forall y ensures y in Without(s, x) <==> y in s && y != x {
        SwapRemoveMembership(s, k, y);
      }
      if Distinct(s) { SwapRemoveDistinct(s, k); }
    }
  }

  /** `KittyBabies::get`: an account with no entry owns the empty list. */
  function BabiesOf(babies: map<AccountId, seq<KittyIndex>>, who: AccountId): seq<KittyIndex> {
    if who in babies then babies[who] else []
  }

  /** The index after `push_kitty_babies_list(who, id)`. */
  function Push(babies: map<AccountId, seq<KittyIndex>>, who: AccountId, id: KittyIndex): (r: map<AccountId, seq<KittyIndex>>)
    ensures BabiesOf(r, who) == BabiesOf(babies, who) + [id]
    ensures forall a :: a != who ==> BabiesOf(r, a) == BabiesOf(babies, a)
  {
    babies[who := BabiesOf(babies, who) + [id]]
  }

  /** The index after `remove_kittyid_from_kitty_babies_list(who, id)`; the entry is written even when it was absent. */
  function Remove(babies: map<AccountId, seq<KittyIndex>>, who: AccountId, id: KittyIndex): (r: map<AccountId, seq<KittyIndex>>)
    ensures who in r && BabiesOf(r, who) == Without(BabiesOf(babies, who), id)
    ensures forall a :: a != who ==> BabiesOf(r, a) == BabiesOf(babies, a)
  {
    babies[who := Without(BabiesOf(babies, who), id)]
  }

  /** The index lists `id` under `a`. */
  predicate Listed(babies: map<AccountId, seq<KittyIndex>>, a: AccountId, id: KittyIndex) {
    id in BabiesOf(babies, a)
  }

  /** The owner map gives `id` to `a`. */
  predicate Owns(owner: map<KittyIndex, AccountId>, a: AccountId, id: KittyIndex) {
    id in owner && owner[id] == a
  }

  /** The index agrees with the owner map: every list is duplicate-free, and `id`
      is in the list of `a` exactly when `a` owns `id`. */
  ghost predicate Consistent(owner: map<KittyIndex, AccountId>, babies: map<AccountId, seq<KittyIndex>>)
    ensures owner == map[] && babies == map[] ==> Consistent(owner, babies)
  {
    && (forall a {:trigger Distinct(BabiesOf(babies, a))} :: Distinct(BabiesOf(babies, a)))
    && (forall a, id {:trigger Listed(babies, a, id)} {:trigger Owns(owner, a, id)} ::
          Listed(babies, a, id) <==> Owns(owner, a, id))
  }

  lemma {:induction false} DistinctOccurrences(s: seq<KittyIndex>, x: KittyIndex)
    requires Distinct(s)
    ensures multiset(s)[x] == if x in s then 1 else 0
  {
    if s != [] {
      assert s == [s[0]] + s[1..];
      DistinctOccurrences(s[1..], x);
    }
  }

  /** Under the invariant, `id` occurs in the list of `a` once if `a` owns it and
      never otherwise, so it can be swap-removed from that list. */
  lemma {:induction false} ConsistentExactlyOnce(owner: map<KittyIndex, AccountId>, babies: map<AccountId, seq<KittyIndex>>,
                                                   a: AccountId, id: KittyIndex)
    requires Consistent(owner, babies)
    ensures multiset(BabiesOf(babies, a))[id] == if id in owner && owner[id] == a then 1 else 0
    ensures AtMostOnce(BabiesOf(babies, a), id)
  {
    assert Distinct(BabiesOf(babies, a));
    assert Listed(babies, a, id) <==> Owns(owner, a, id);
    DistinctOccurrences(BabiesOf(babies, a), id);
  }

  /** Giving a fresh id to `who` and appending it to `who`'s list keeps the index consistent. */
  lemma MintKeepsConsistent(owner: map<KittyIndex, AccountId>, babies: map<AccountId, seq<KittyIndex>>,
                            id: KittyIndex, who: AccountId,
                            owner': map<KittyIndex, AccountId>, babies': map<AccountId, seq<KittyIndex>>)
    requires Consistent(owner, babies) && id !in owner
    requires owner' == owner[id := who] && babies' == Push(babies, who, id)
    ensures Consistent(owner', babies')
  {
    forall a ensures Distinct(BabiesOf(babies', a)) {
      assert Distinct(BabiesOf(babies, a));
      if a == who {
        assert Listed(babies, who, id) <==> Owns(owner, who, id);
        assert BabiesOf(babies', a) == BabiesOf(babies, a) + [id];
      }
    }
    forall a, x ensures Listed(babies', a, x) <==> Owns(owner', a, x) {
      assert Listed(babies, a, x) <==> Owns(owner, a, x);
    }
  }

  /** Re-owning `id` from `from` to `to`, removing it from the one list and
      appending it to the other, keeps the index consistent (also when `from == to`). */
  lemma MoveKeepsConsistent(owner: map<KittyIndex, AccountId>, babies: map<AccountId, seq<KittyIndex>>,
                            id: KittyIndex, from: AccountId, to: AccountId,
                            owner': map<KittyIndex, AccountId>, babies': map<AccountId, seq<KittyIndex>>)
    requires Consistent(owner, babies) && id in owner && owner[id] == from
    requires owner' == owner[id := to] && babies' == Push(Remove(babies, from, id), to, id)
    ensures Consistent(owner', babies')
  {
    var removed := Remove(babies, from, id);
    assert Distinct(BabiesOf(babies, from));
    WithoutRemovesExactly(BabiesOf(babies, from), id);
    forall a ensures Distinct(BabiesOf(removed, a)) && id !in BabiesOf(removed, a) {
      assert Distinct(BabiesOf(babies, a));
      assert Listed(babies, a, id) <==> Owns(owner, a, id);
    }
    forall a ensures Distinct(BabiesOf(babies', a)) {
      assert Distinct(BabiesOf(removed, a)) && id !in BabiesOf(removed, a);
      if a == to {
        assert BabiesOf(babies', a) == BabiesOf(removed, a) + [id];
      }
    }
    forall a, x ensures Listed(babies', a, x) <==> Owns(owner', a, x) {
      assert Listed(babies, a, x) <==> Owns(owner, a, x);
    }
  }
}
