/** The claims on events that are kept in Redis. */
module ClaimStore {

  type EventId = string

  const CLAIM_TTL_MS: nat := 900_000

  /** A claim key. Redis only stores the words "processing" and "done"; the owner says which
      consumer made the claim and is there for reasoning. */
  datatype Key = Processing(owner: nat, expiry: nat) | Done

  /** The claim keys and the clock their expiry is measured with. */
  datatype Store = Store(keys: map<EventId, Key>, now: nat)

  predicate Present(store: Store, e: EventId) {
    e in store.keys && (store.keys[e].Processing? ==> store.now < store.keys[e].expiry)
  }

  function SetIfAbsent(store: Store, e: EventId, owner: nat): Store {
    if Present(store, e) then store
    else store.(keys := store.keys[e := Processing(owner, store.now + CLAIM_TTL_MS)])
  }

  function SetDone(store: Store, e: EventId): Store {
    store.(keys := store.keys[e := Done])
  }

  function Delete(store: Store, e: EventId): Store {
    store.(keys := store.keys - {e})
  }

  datatype Entry = Entry(text: string, expiry: int)

  const KEY_PREFIX := "mail:processed_events:"
  const NEVER := -1

  /** The Redis-backed store. `keys` is the Redis database of this service, `now` the server clock. */
  class RedisEventStore {
    var keys: map<string, Entry>
    var now: nat
    ghost var view: Store

    ghost predicate Matches(entry: Entry, key: Key) {
      match key
      case Done => entry == Entry("done", NEVER)
      case Processing(_, expiry) => entry == Entry("processing", expiry)
    }

    /** The database holds exactly the keys of `view`, under their prefixed names. */
    ghost predicate Valid()
      reads this
    {
      && view.now == now
      && (forall e :: e in view.keys <==> KEY_PREFIX + e in keys)
      && (forall e :: e in view.keys ==> Matches(keys[KEY_PREFIX + e], view.keys[e]))
    }

    constructor ()
      ensures Valid() && view == Store(map[], 0)
    {
      keys := map[];
      now := 0;
      view := Store(map[], 0);
    }

    /** Keys whose time is over are gone for every command. */
    predicate Live(name: string)
      reads this
    {
      name in keys && (keys[name].expiry == NEVER || now < keys[name].expiry)
    }

    /** Time passes. */
    method Elapse(ms: nat)
      requires Valid()
      modifies this
      ensures Valid() && view == old(view).(now := old(view).now + ms)
    {
      now := now + ms;
      view := view.(now := view.now + ms);
    }

    method Claim(eventId: EventId, ghost owner: nat) returns (claimed: bool)
      requires Valid()
      modifies this
      ensures Valid()
      ensures claimed == !old(Present(view, eventId))
      ensures view == SetIfAbsent(old(view), eventId, owner)
      ensures claimed ==>
        var name := "mail:processed_events:" + eventId;
        name in keys && keys[name] == Entry("processing", old(now) + 900_000)
    {
      var name := KEY_PREFIX + eventId;
      claimed := !Live(name);
      if claimed {
        keys := keys[name := Entry("processing", now + CLAIM_TTL_MS)];
        view := SetIfAbsent(view, eventId, owner);
        NamesAreDistinct();
      }
    }

    method Complete(eventId: EventId)
      requires Valid()
      modifies this
      ensures Valid()
      ensures view == SetDone(old(view), eventId)
      ensures keys == old(keys)["mail:processed_events:" + eventId := Entry("done", -1)]
    {
      keys := keys[KEY_PREFIX + eventId := Entry("done", NEVER)];
      view := SetDone(view, eventId);
      NamesAreDistinct();
    }

    method Release(eventId: EventId)
      requires Valid()
      modifies this
      ensures Valid()
      ensures view == Delete(old(view), eventId)
      ensures keys == old(keys) - {"mail:processed_events:" + eventId}
    {
      keys := keys - {KEY_PREFIX + eventId};
      view := Delete(view, eventId);
      NamesAreDistinct();
    }
  }

  lemma NamesAreDistinct()
    ensures forall a: EventId, b: EventId :: KEY_PREFIX + a == KEY_PREFIX + b ==> a == b
  {
    forall a: EventId, b: EventId | KEY_PREFIX + a == KEY_PREFIX + b
      ensures a == b
    {
      var n := |KEY_PREFIX|;
      assert (KEY_PREFIX + a)[n..] == a && (KEY_PREFIX + b)[n..] == b;
    }
  }

  /** Of any number of claims made on an event before its key expires, only the first can succeed;
      a key that is done refuses for ever. */
  lemma ClaimsAreRefusedWhilePresent(store: Store, e: EventId, owner: nat, later: nat)
    requires store.now <= later
    ensures
      var claimed := SetIfAbsent(store, e, owner);
      && Present(claimed, e)
      && (!Present(store, e) ==> (Present(claimed.(now := later), e) <==> later < store.now + 900_000))
      && (forall o :: SetIfAbsent(SetDone(store, e).(now := later), e, o) == SetDone(store, e).(now := later))
      && !Present(Delete(claimed, e), e)
  {
  }
}
