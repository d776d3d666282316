/** The keyed store of donations (`coffeeStorage`, a `StableBTreeMap<string, Coffee>`)
    and the query and delete endpoints both canisters expose over it. The
    store is a map from id to record; the order in which `values()` lists
    the records is not modelled. */
module RecordStore {
  import opened Outcomes
  import opened CoffeeTypes

  type Store = map<string, Coffee>

  /** Every record is filed under its own id. */
  ghost predicate KeyedById(m: Store) {
    forall k :: k in m ==> m[k].id == k
  }

  /** No two records of `cs` share an id. */
  ghost predicate DistinctIds(cs: seq<Coffee>) {
    forall i, j :: 0 <= i < j < |cs| ==> cs[i].id != cs[j].id
  }

  function NotFoundMessage(id: string): string {
    "coffee information with id=" + id + " not found"
  }

  function NotDeletedMessage(id: string): string {
    "couldn't delete coffee with id=" + id + ". message not found."
  }

  /** The record `sendCoffee` builds: `{ id, timestamp, ...payload }`.
      The payload's `amount` is spread into the object as well, but the
      declared record shape has no such field, so it is not kept here. */
  function NewRecord(id: string, time: Nat64, payload: CoffeePayload): (c: Coffee)
    ensures c.id == id && c.timestamp == time
    ensures c.name == payload.name && c.message == payload.message
  {
    Coffee(id, payload.name, time, payload.message)
  }

  /** `coffeeStorage.insert(coffee.id, coffee)`: files `c` under its id,
      replacing whatever was there. */
  function Insert(m: Store, c: Coffee): (m': Store)
    ensures c.id in m' && m'[c.id] == c
    ensures m'.Keys == m.Keys + {c.id}
    ensures forall k :: k in m && k != c.id ==> m'[k] == m[k]
  {
    m[c.id := c]
  }

  /** `getCoffee(id)`. */
  function GetCoffee(m: Store, id: string): (r: Outcome<Coffee>)
    ensures !r.Trap?
    ensures r.Ok? <==> id in m
    ensures r.Ok? ==> r.value == m[id]
    ensures r.Err? ==> r.error == NotFoundMessage(id)
  {
    if id in m then Ok(m[id]) else Err(NotFoundMessage(id))
  }

  /** `deleteCoffee(id)`: removes the record and returns it. */
  function DeleteCoffee(m: Store, id: string): (r: Step<Store, Coffee>)
    ensures !r.outcome.Trap? && r.calls == []
    ensures r.outcome.Ok? <==> id in m
    ensures r.outcome.Ok? ==> r.outcome.value == m[id]
    ensures r.outcome.Err? ==> r.outcome.error == NotDeletedMessage(id) && r.state == m
    ensures r.state.Keys == m.Keys - {id}
    ensures forall k :: k in r.state ==> r.state[k] == m[k]
  {
    if id in m then Step(Ok(m[id]), m - {id}, []) else Step(Err(NotDeletedMessage(id)), m, [])
  }

  /** The records of the store, in an order left unspecified: one entry per
      key, exactly the stored records, and no id twice when the store is
      keyed by id. */
  ghost function ValuesOf(m: Store): (r: seq<Coffee>)
    ensures |r| == |m|
    ensures forall c :: c in r <==> c in m.Values
    ensures KeyedById(m) ==> DistinctIds(r) && forall c :: c in r ==> c.id in m
    decreases |m|
  {
    if m == map[] then []
    else
      var k :| k in m;
      RemoveOne(m, k);
      var tail := ValuesOf(m - {k});
      assert KeyedById(m) ==> DistinctIds([m[k]] + tail) by {
        if KeyedById(m) { DistinctCons(m[k], tail); }
      }
      [m[k]] + tail
  }

  /** Taking one key out of a store: one entry fewer, and every value of the
      store is either that key's record or a value of what is left. */
  lemma RemoveOne(m: Store, k: string)
    requires k in m
    ensures |m - {k}| == |m| - 1 && k !in m - {k}
    ensures forall c :: c in m.Values ==> c == m[k] || c in (m - {k}).Values
    ensures forall c :: c in (m - {k}).Values ==> c in m.Values
    ensures KeyedById(m) ==> KeyedById(m - {k})
  {
    var rest := m - {k};
    assert rest.Keys == m.Keys - {k};
    assert |rest.Keys| == |m.Keys| - 1;
    forall c | c in m.Values ensures c == m[k] || c in rest.Values {
      var j :| j in m && m[j] == c;
      if j != k { assert j in rest; }
    }
  }

  /** A record whose id no record of `tail` carries can go in front of a
      list with distinct ids. */
  lemma DistinctCons(c: Coffee, tail: seq<Coffee>)
    requires DistinctIds(tail)
    requires forall d :: d in tail ==> d.id != c.id
    ensures DistinctIds([c] + tail)
  {
    var r := [c] + tail;
    forall i, j | 0 <= i < j < |r| ensures r[i].id != r[j].id {
      if i > 0 {
        assert r[i] == tail[i - 1] && r[j] == tail[j - 1];
      } else {
        assert r[j] == tail[j - 1] && r[j] in tail;
      }
    }
  }

  /** A deleted record can no longer be read. */
  lemma GetAfterDelete(m: Store, id: string)
    ensures GetCoffee(DeleteCoffee(m, id).state, id) == Err(NotFoundMessage(id))
  {
  }

  /** A record just inserted is read back as it was inserted, and reads of
      every other id are unaffected. */
  lemma GetAfterInsert(m: Store, c: Coffee, id: string)
    ensures GetCoffee(Insert(m, c), c.id) == Ok(c)
    ensures id != c.id ==> GetCoffee(Insert(m, c), id) == GetCoffee(m, id)
  {
  }

  /** Deleting the record that was just inserted under a fresh id gives
      that record back and restores the store exactly. */
  lemma DeleteUndoesInsert(m: Store, c: Coffee)
    requires c.id !in m
    ensures DeleteCoffee(Insert(m, c), c.id) == Step(Ok(c), m, [])
  {
    assert Insert(m, c) - {c.id} == m;
  }

  /** Inserting under a fresh id adds exactly one record. */
  lemma InsertFreshGrowsByOne(m: Store, c: Coffee)
    requires c.id !in m
    ensures |Insert(m, c)| == |m| + 1
  {
    assert Insert(m, c).Keys == m.Keys + {c.id};
  }

  /** Inserting and deleting keep every record filed under its own id. */
  lemma UpdatesKeepKeyedById(m: Store, c: Coffee, id: string)
    requires KeyedById(m)
    ensures KeyedById(Insert(m, c))
    ensures KeyedById(DeleteCoffee(m, id).state)
  {
  }
}
