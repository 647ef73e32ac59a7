/**
 * The gateway's `userClientMap`: for each user, the list of socket ids
 * registered for it, in registration order. Duplicates are possible, since
 * adding does not check whether the id is already there.
 */
module ClientRegistry {
  import opened Common
  import opened Seqs

  type Registry = map<UserKey, seq<ClientId>>

  /** `getUserClientIds`: the stored list, or `[]` for a user never seen. */
  function ClientIds(m: Registry, u: UserKey): (r: seq<ClientId>)
    ensures u in m ==> r == m[u]
    ensures u !in m ==> r == []
  {
    if u in m then m[u] else []
  }

  /** `ids.filter(id => id !== c)`. */
  function Without(ids: seq<ClientId>, c: ClientId): (r: seq<ClientId>)
    ensures c !in r
    ensures forall x :: x != c ==> (x in r <==> x in ids)
  {
    Filter(ids, x => x != c)
  }

  /** The map after `addClientToUser(u, c)`. */
  function WithClient(m: Registry, u: UserKey, c: ClientId): (r: Registry)
    ensures r.Keys == m.Keys + {u}
    ensures ClientIds(r, u) == ClientIds(m, u) + [c]
    ensures forall v :: v != u ==> ClientIds(r, v) == ClientIds(m, v)
  {
    m[u := ClientIds(m, u) + [c]]
  }

  /** The map after `removeClientFromUser(u, c)`: the key is written even when it was absent. */
  function WithoutClient(m: Registry, u: UserKey, c: ClientId): (r: Registry)
    ensures r.Keys == m.Keys + {u}
    ensures c !in ClientIds(r, u)
    ensures forall x :: x != c ==> (x in ClientIds(r, u) <==> x in ClientIds(m, u))
    ensures forall v :: v != u ==> ClientIds(r, v) == ClientIds(m, v)
  {
    m[u := Without(ClientIds(m, u), c)]
  }

  /** Removal drops every occurrence of the id and keeps every other occurrence. */
  lemma RemoveDropsEveryOccurrence(m: Registry, u: UserKey, c: ClientId, x: ClientId)
    ensures multiset(ClientIds(WithoutClient(m, u, c), u))[x] == if x == c then 0 else multiset(ClientIds(m, u))[x]
  {
    FilterCount(ClientIds(m, u), y => y != c, x);
  }

  /** Removal keeps the remaining ids in their order: it works piecewise on any split of the list. */
  lemma RemoveKeepsOrder(a: seq<ClientId>, b: seq<ClientId>, c: ClientId)
    ensures Without(a + b, c) == Without(a, c) + Without(b, c)
  {
    FilterAppend(a, b, x => x != c);
  }

  /** Removing an id that is not registered leaves the list as it was. */
  lemma RemoveAbsentIsIdentity(ids: seq<ClientId>, c: ClientId)
    requires c !in ids
    ensures Without(ids, c) == ids
  {
    FilterKeepsAll(ids, x => x != c);
  }

  /**
   * Adding an id the user did not have and then removing it restores the
   * user's list; for a user already in the map the whole map is restored,
   * while an unseen user is left behind with an empty list.
   */
  lemma AddThenRemoveRestores(m: Registry, u: UserKey, c: ClientId)
    requires c !in ClientIds(m, u)
    ensures ClientIds(WithoutClient(WithClient(m, u, c), u, c), u) == ClientIds(m, u)
    ensures u in m ==> WithoutClient(WithClient(m, u, c), u, c) == m
    ensures u !in m ==> WithoutClient(WithClient(m, u, c), u, c) == m[u := []]
  {
    var ids := ClientIds(m, u);
    RemoveKeepsOrder(ids, [c], c);
    RemoveAbsentIsIdentity(ids, c);
    assert Without([c], c) == [];
  }

  /**
   * After one of a user's ids is removed the user still has a registered id
   * exactly when it had some other id before.
   */
  lemma StillRegisteredAfterRemove(m: Registry, u: UserKey, c: ClientId)
    ensures ClientIds(WithoutClient(m, u, c), u) != [] <==> exists x :: x in ClientIds(m, u) && x != c
  {
    var r := ClientIds(WithoutClient(m, u, c), u);
    if r != [] {
      assert r[0] in r;
    }
  }
}
