/** The last messages of each conversation, on either backend (memory/store.py). */
module MemoryStores {
  import opened Commercial
  import opened Runs

  const KEPT := 12

  function Last<M>(messages: seq<M>): seq<M> {
    if |messages| <= KEPT then messages else messages[|messages| - KEPT..]
  }

  function Reversed<M>(s: seq<M>): (r: seq<M>)
    ensures |r| == |s|
    ensures forall i :: 0 <= i < |s| ==> r[i] == s[|s| - 1 - i]
  {
    seq(|s|, i requires 0 <= i < |s| => s[|s| - 1 - i])
  }

  /** `lpush` and `ltrim`: new messages at the front, the oldest cut off. */
  function ListPush<M>(list: seq<M>, message: M): seq<M> {
    var pushed := [message] + list;
    if |pushed| <= KEPT then pushed else pushed[..KEPT]
  }

  /** `append` on a bounded deque. */
  function DequePush<M>(buffer: seq<M>, message: M): seq<M> {
    Last(buffer + [message])
  }

  /** The list read backwards is the deque. */
  lemma ListSimulatesDeque<M>(list: seq<M>, message: M)
    ensures Reversed(ListPush(list, message)) == DequePush(Reversed(list), message)
  {
    var a, b := Reversed(ListPush(list, message)), DequePush(Reversed(list), message);
    assert |a| == |b|;
    forall i | 0 <= i < |a| ensures a[i] == b[i] {
    }
  }

  lemma LastOfLast<M>(messages: seq<M>, message: M)
    ensures DequePush(Last(messages), message) == Last(messages + [message])
  {
  }

  /** However many messages are added, the list read backwards, the deque and the
      last twelve of all of them are the same. */
  lemma {:induction false} BackendsAgree<M>(messages: seq<M>)
    ensures var list := Run((l: seq<M>, m: M) => ListPush(l, m), [], messages);
            var deque := Run((b: seq<M>, m: M) => DequePush(b, m), [], messages);
            Reversed(list) == deque == Last(messages)
  {
    if messages != [] {
      var past, message := messages[..|messages| - 1], messages[|messages| - 1];
      BackendsAgree(past);
      ListSimulatesDeque(Run((l: seq<M>, m: M) => ListPush(l, m), [], past), message);
      LastOfLast(past, message);
      assert past + [message] == messages;
    }
  }

  function At<M>(store: map<string, seq<M>>, key: string): seq<M> {
    if key in store then store[key] else []
  }

  type Store<M> = map<string, seq<M>>

  /** What the backend in use shows under a key. */
  function Shown<M>(redis: Option<Store<M>>, buffers: Store<M>, key: string): seq<M> {
    if redis.Some? then Reversed(At(redis.value, key)) else At(buffers, key)
  }

  /** Under any key it shows the last of what was added there. */
  ghost predicate ShowsLast<M>(redis: Option<Store<M>>, buffers: Store<M>, added: Store<M>) {
    forall key :: Shown(redis, buffers, key) == Last(At(added, key))
  }

  function Added<M>(store: Store<M>, key: string, message: M): Store<M> {
    store[key := At(store, key) + [message]]
  }

  lemma AddingKeepsShowing<M>(redis: Option<Store<M>>, buffers: Store<M>, added: Store<M>, key: string, message: M)
    requires ShowsLast(redis, buffers, added)
    ensures if redis.Some?
            then ShowsLast(Some(redis.value[key := ListPush(At(redis.value, key), message)]), buffers,
                           Added(added, key, message))
            else ShowsLast(redis, buffers[key := DequePush(At(buffers, key), message)],
                           Added(added, key, message))
  {
    var redis' := if redis.Some? then Some(redis.value[key := ListPush(At(redis.value, key), message)]) else None;
    var buffers' := if redis.Some? then buffers else buffers[key := DequePush(At(buffers, key), message)];
    var added' := Added(added, key, message);
    forall k ensures Shown(redis', buffers', k) == Last(At(added', k)) {
      assert Shown(redis, buffers, k) == Last(At(added, k));
      if k == key {
        LastOfLast(At(added, k), message);
        if redis.Some? {
          ListSimulatesDeque(At(redis.value, k), message);
        }
      } else {
        assert At(added', k) == At(added, k);
      }
    }
  }

  /** The store with its two backends. A failing Redis is given up for good, and
      with it what it held; `added` is what the backend in use was given. */
  class MemoryStore<M> {
    var buffers: Store<M>
    var redis: Option<Store<M>>
    ghost var added: Store<M>

    ghost predicate Valid()
      reads this
    {
      (redis.Some? ==> buffers == map[]) && ShowsLast(redis, buffers, added)
    }

    constructor (withRedis: bool)
      ensures Valid() && added == map[] && redis.Some? == withRedis
    {
      buffers, added := map[], map[];
      redis := if withRedis then Some(map[]) else None;
    }

    method DisableRedis()
      requires Valid() && redis.Some?
      modifies this
      ensures Valid() && redis.None? && added == map[]
    {
      redis := None;
      added := map[];
    }

    /** `works` says whether Redis answers this call. */
    method AddRecent(key: string, message: M, works: bool)
      requires Valid()
      modifies this
      ensures Valid()
      ensures added == Added(if old(redis).Some? && !works then map[] else old(added), key, message)
      ensures redis.Some? == (old(redis).Some? && works)
    {
      if redis.Some? {
        if works {
          AddingKeepsShowing(redis, buffers, added, key, message);
          redis := Some(redis.value[key := ListPush(At(redis.value, key), message)]);
          added := Added(added, key, message);
          return;
        }
        DisableRedis();
      }
      AddingKeepsShowing(redis, buffers, added, key, message);
      buffers := buffers[key := DequePush(At(buffers, key), message)];
      added := Added(added, key, message);
    }

    /** On either working backend: the last twelve messages added under the key, in
        the order they were added. */
    method Recent(key: string, works: bool) returns (messages: seq<M>)
      requires Valid()
      modifies this
      ensures Valid()
      ensures if old(redis).Some? && !works
              then redis.None? && added == map[] && messages == []
              else redis == old(redis) && added == old(added) && messages == Last(At(added, key))
    {
      if redis.Some? {
        assert Shown(redis, buffers, key) == Last(At(added, key));
        if works {
          return Reversed(At(redis.value, key));
        }
        DisableRedis();
      }
      assert Shown(redis, buffers, key) == Last(At(added, key));
      return At(buffers, key);
    }
  }
}
