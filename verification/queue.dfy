/** The work queue and the worker loop (pkg/controller/controller.go:238-267): the queue of the client
    library by its contract, and the workers that take keys from it, sync them and give them back. */
module Queue {
  import opened NotebookTypes

  // ---------- Keys ----------

  /** MetaNamespaceKeyFunc. */
  function MetaNamespaceKey(ns: string, name: string): string {
    if ns == "" then name else ns + ['/'] + name
  }

  datatype KeyParts = KeyParts(ns: string, name: string) | Malformed

  /** SplitMetaNamespaceKey, with which a sync begins. */
  function SplitMetaNamespaceKey(key: string): KeyParts {
    var parts := Split(key, '/');
    if |parts| == 1 then KeyParts("", parts[0])
    else if |parts| == 2 then KeyParts(parts[0], parts[1])
    else Malformed
  }

  predicate Slashless(s: string) {
    '/' !in s
  }

  /** Names of objects hold no slash, so a key leads back to the notebook it was made from, and notebooks
      do not share keys. */
  lemma KeyRoundTrip(ns: string, name: string)
    requires Slashless(ns) && Slashless(name)
    ensures SplitMetaNamespaceKey(MetaNamespaceKey(ns, name)) == KeyParts(ns, name)
  {
    if ns == "" {
      SplitWhole(name, '/');
    } else {
      SplitPair(ns, name, '/');
    }
  }

  /** The other way round: a key that splits is the key of its parts, unless it starts with the slash. */
  lemma SplitRoundTrip(key: string)
    requires SplitMetaNamespaceKey(key).KeyParts?
    ensures var p := SplitMetaNamespaceKey(key);
            && Slashless(p.ns) && Slashless(p.name)
            && (MetaNamespaceKey(p.ns, p.name) == key <==> !(key != "" && key[0] == '/'))
  {
    SplitJoin(key, '/');
    var parts := Split(key, '/');
    if |parts| == 2 {
      assert Join(parts, '/') == parts[0] + ['/'] + Join(parts[1..], '/');
      assert key == parts[0] + ['/'] + parts[1];
      assert parts[0] != "" ==> key[0] == parts[0][0];
    } else {
      assert key == parts[0];
      assert key != "" ==> key[0] in parts[0];
    }
  }

  ghost predicate HasTwo(s: string, c: char) {
    exists i, j :: 0 <= i < j < |s| && s[i] == c && s[j] == c
  }

  lemma TwoInRest(s: string, c: char)
    requires s != ""
    ensures HasTwo(s, c) <==> HasTwo(s[1..], c) || (s[0] == c && c in s[1..])
  {
    var t := s[1..];
    if i, j :| 0 <= i < j < |t| && t[i] == c && t[j] == c {
      assert s[i + 1] == c && s[j + 1] == c;
    }
    if i, j :| 0 <= i < j < |s| && s[i] == c && s[j] == c {
      assert t[j - 1] == c;
      assert i > 0 ==> t[i - 1] == c;
    }
    if s[0] == c && c in t {
      var j :| 0 <= j < |t| && t[j] == c;
      assert s[j + 1] == c;
    }
  }

  lemma {:induction false} PartsCount(s: string, c: char)
    ensures |Split(s, c)| >= 2 <==> c in s
    ensures |Split(s, c)| >= 3 <==> HasTwo(s, c)
  {
    if s != "" {
      PartsCount(s[1..], c);
      TwoInRest(s, c);
      assert c in s <==> s[0] == c || c in s[1..];
    }
  }

  /** A key is malformed exactly if it has more than one slash. */
  lemma MalformedMeans(key: string)
    ensures SplitMetaNamespaceKey(key).Malformed? <==> HasTwo(key, '/')
  {
    PartsCount(key, '/');
  }

  // ---------- The queue ----------

  /** `dirty`: keys to be processed. `processing`: keys being processed. `ready`: dirty keys, in order,
      that nobody is processing. `delayed`: keys to be added when their back-off ends. */
  datatype Items = Items(ready: seq<string>, dirty: set<string>, processing: set<string>, delayed: set<string>)

  function Added(q: Items, key: string): Items {
    if key in q.dirty then q
    else
      var marked := q.(dirty := q.dirty + {key});
      if key in q.processing then marked else marked.(ready := q.ready + [key])
  }

  function Taken(q: Items): (string, Items)
    requires q.ready != []
  {
    var key := q.ready[0];
    (key, q.(ready := q.ready[1..], processing := q.processing + {key}, dirty := q.dirty - {key}))
  }

  function Released(q: Items, key: string): Items {
    var released := q.(processing := q.processing - {key});
    if key in q.dirty then released.(ready := q.ready + [key]) else released
  }

  function Postponed(q: Items, key: string): Items {
    q.(delayed := q.delayed + {key})
  }

  /** The back-off of `key` is over. */
  function Fired(q: Items, key: string): Items {
    if key in q.delayed then Added(q.(delayed := q.delayed - {key}), key) else q
  }

  ghost predicate NoDuplicates(s: seq<string>) {
    forall i, j :: 0 <= i < j < |s| ==> s[i] != s[j]
  }

  /** What every operation keeps: the ready keys are just the dirty ones that nobody is processing. */
  ghost predicate InOrder(q: Items) {
    && NoDuplicates(q.ready)
    && forall k :: k in q.ready <==> k in q.dirty && k !in q.processing
  }

  lemma AddKeepsOrder(q: Items, key: string)
    requires InOrder(q)
    ensures InOrder(Added(q, key))
    ensures Added(Added(q, key), key) == Added(q, key)
  {}

  lemma GetKeepsOrder(q: Items)
    requires InOrder(q) && q.ready != []
    ensures InOrder(Taken(q).1) && Taken(q).0 !in q.processing && Taken(q).0 in q.dirty
  {
    var (key, after) := Taken(q);
    assert key in q.ready;
    assert q.ready == [key] + after.ready;
    assert forall i :: 0 <= i < |after.ready| ==> after.ready[i] == q.ready[i + 1];
    forall k
      ensures k in after.ready <==> k in after.dirty && k !in after.processing
    {
      assert k in q.ready <==> k == key || k in after.ready;
    }
  }

  lemma DoneKeepsOrder(q: Items, key: string)
    requires InOrder(q) && key in q.processing
    ensures InOrder(Released(q, key))
  {
    assert key !in q.ready;
  }

  /** A back-off that is over is no longer waited for, and its key is to be processed. */
  lemma FireKeepsOrder(q: Items, key: string)
    requires InOrder(q)
    ensures InOrder(Fired(q, key)) && Fired(q, key).delayed == q.delayed - {key}
    ensures key in q.delayed ==> key in Fired(q, key).dirty
  {
    AddKeepsOrder(q.(delayed := q.delayed - {key}), key);
  }

  /** The queue as an object that handlers and workers share. */
  class WorkQueue {
    var ready: seq<string>
    var dirty: set<string>
    var processing: set<string>
    var delayed: set<string>

    constructor ()
      ensures View() == Items([], {}, {}, {})
    {
      ready, dirty, processing, delayed := [], {}, {}, {};
    }

    function View(): Items
      reads this
    {
      Items(ready, dirty, processing, delayed)
    }

    method Add(key: string)
      modifies this
      ensures View() == Added(old(View()), key)
    {
      if key in dirty {
        return;
      }
      dirty := dirty + {key};
      if key in processing {
        return;
      }
      ready := ready + [key];
    }

    method Get() returns (key: string)
      requires ready != []
      modifies this
      ensures (key, View()) == Taken(old(View()))
    {
      key := ready[0];
      ready := ready[1..];
      processing := processing + {key};
      dirty := dirty - {key};
    }

    method Done(key: string)
      modifies this
      ensures View() == Released(old(View()), key)
    {
      processing := processing - {key};
      if key in dirty {
        ready := ready + [key];
      }
    }

    method AddRateLimited(key: string)
      modifies this`delayed
      ensures View() == Postponed(old(View()), key)
    {
      delayed := delayed + {key};
    }

    method Fire(key: string)
      modifies this
      ensures View() == Fired(old(View()), key)
    {
      if key in delayed {
        delayed := delayed - {key};
        Add(key);
      }
    }
  }

  // ---------- Workers ----------

  /** A worker that syncs a key since time `since`, or one whose sync has returned. */
  datatype Turn = Busy(key: string, since: nat) | Closing(key: string)

  /** `demand`: when a key was last enqueued or its sync last failed, until a sync that began later
      succeeds. */
  datatype Shop = Shop(q: Items, turns: map<nat, Turn>, clock: nat, demand: map<string, nat>)

  /** `Deliver`: a handler enqueues a key. `Expire`: a back-off ends. `Take`: an idle worker gets the next
      key. `Return`: its sync returns, with or without an error. `Close`: the deferred Done. */
  datatype Event =
    | Deliver(key: string)
    | Expire(key: string)
    | Take(worker: nat)
    | Return(worker: nat, failed: bool)
    | Close(worker: nat)

  function Asked(demand: map<string, nat>, key: string, time: nat): map<string, nat> {
    demand[key := time]
  }

  function Served(demand: map<string, nat>, key: string, since: nat): map<string, nat> {
    if key in demand && demand[key] < since then demand - {key} else demand
  }

  /** processNextWorkItem, one event at a time; an event that is not possible changes nothing. */
  function Happen(s: Shop, e: Event): Shop {
    match e
    case Deliver(key) => Shop(Added(s.q, key), s.turns, s.clock + 1, Asked(s.demand, key, s.clock))
    case Expire(key) => s.(q := Fired(s.q, key))
    case Take(w) =>
      if w in s.turns || s.q.ready == [] then s
      else
        var (key, q) := Taken(s.q);
        Shop(q, s.turns[w := Busy(key, s.clock)], s.clock + 1, s.demand)
    case Return(w, failed) =>
      if !(w in s.turns && s.turns[w].Busy?) then s
      else
        var Busy(key, since) := s.turns[w];
        var turns := s.turns[w := Closing(key)];
        if failed then Shop(Postponed(s.q, key), turns, s.clock + 1, Asked(s.demand, key, s.clock))
        else Shop(s.q, turns, s.clock, Served(s.demand, key, since))
    case Close(w) =>
      if !(w in s.turns && s.turns[w].Closing?) then s
      else Shop(Released(s.q, s.turns[w].key), s.turns - {w}, s.clock, s.demand)
  }

  const OPENING := Shop(Items([], {}, {}, {}), map[], 0, map[])

  function RunShop(s: Shop, events: seq<Event>): Shop
    decreases |events|
  {
    if events == [] then s else Happen(RunShop(s, events[..|events| - 1]), events[|events| - 1])
  }

  // ---------- What holds in every state ----------

  ghost predicate OnePerKey(s: Shop) {
    forall v, w :: v in s.turns && w in s.turns && v != w ==> s.turns[v].key != s.turns[w].key
  }

  ghost predicate IsHeld(turns: map<nat, Turn>, key: string) {
    exists w :: w in turns && turns[w].key == key
  }

  /** Someone has begun to sync the key after `time`. */
  ghost predicate SyncedSince(s: Shop, key: string, time: nat) {
    exists w :: w in s.turns && s.turns[w].Busy? && s.turns[w].key == key && s.turns[w].since > time
  }

  ghost predicate IsPending(s: Shop, key: string, time: nat) {
    key in s.q.dirty || key in s.q.delayed || SyncedSince(s, key, time)
  }

  ghost predicate ShopOk(s: Shop) {
    && InOrder(s.q)
    && (forall k :: k in s.q.processing <==> IsHeld(s.turns, k))
    && OnePerKey(s)
    && (forall w :: w in s.turns && s.turns[w].Busy? ==> s.turns[w].since < s.clock)
    && (forall k :: k in s.demand ==> s.demand[k] < s.clock && IsPending(s, k, s.demand[k]))
  }

  /** Nothing that was pending is lost as long as the turns stay. */
  lemma PendingGrows(s: Shop, s': Shop, key: string, time: nat)
    requires IsPending(s, key, time) && s'.turns == s.turns
    requires key in s.q.dirty || key in s.q.delayed ==> key in s'.q.dirty || key in s'.q.delayed
    ensures IsPending(s', key, time)
  {
    if SyncedSince(s, key, time) {
      assert SyncedSince(s', key, time);
    }
  }

  lemma DeliverIsOk(s: Shop, key: string)
    requires ShopOk(s)
    ensures ShopOk(Happen(s, Deliver(key)))
  {
    var s' := Happen(s, Deliver(key));
    AddKeepsOrder(s.q, key);
    forall k | k in s'.demand
      ensures s'.demand[k] < s'.clock && IsPending(s', k, s'.demand[k])
    {
      if k != key {
        PendingGrows(s, s', k, s.demand[k]);
      }
    }
  }

  lemma ExpireIsOk(s: Shop, key: string)
    requires ShopOk(s)
    ensures ShopOk(Happen(s, Expire(key)))
  {
    var s' := Happen(s, Expire(key));
    FireKeepsOrder(s.q, key);
    forall k | k in s'.demand
      ensures s'.demand[k] < s'.clock && IsPending(s', k, s'.demand[k])
    {
      PendingGrows(s, s', k, s.demand[k]);
    }
  }

  lemma TakeIsOk(s: Shop, w: nat)
    requires ShopOk(s) && w !in s.turns && s.q.ready != []
    ensures ShopOk(Happen(s, Take(w)))
  {
    var s' := Happen(s, Take(w));
    GetKeepsOrder(s.q);
    var key := Taken(s.q).0;
    forall k
      ensures k in s'.q.processing <==> IsHeld(s'.turns, k)
    {
      if v :| v in s.turns && s.turns[v].key == k {
        assert v in s'.turns && s'.turns[v].key == k;
      }
      assert w in s'.turns && s'.turns[w].key == key;
    }
    forall k | k in s'.demand
      ensures s'.demand[k] < s'.clock && IsPending(s', k, s'.demand[k])
    {
      if k == key {
        assert s'.turns[w].since > s'.demand[k];
      } else if SyncedSince(s, k, s.demand[k]) {
        var v :| v in s.turns && s.turns[v].Busy? && s.turns[v].key == k && s.turns[v].since > s.demand[k];
        assert s'.turns[v] == s.turns[v];
      }
    }
  }

  lemma TurnsStay(s: Shop, s': Shop, w: nat)
    requires w in s.turns && s'.turns == s.turns[w := Closing(s.turns[w].key)]
    ensures forall k :: IsHeld(s.turns, k) <==> IsHeld(s'.turns, k)
  {
    forall k
      ensures IsHeld(s.turns, k) <==> IsHeld(s'.turns, k)
    {
      if v :| v in s.turns && s.turns[v].key == k {
        assert v in s'.turns && s'.turns[v].key == k;
      }
      if v :| v in s'.turns && s'.turns[v].key == k {
        assert v in s.turns && s.turns[v].key == k;
      }
    }
  }

  lemma ReturnIsOk(s: Shop, w: nat, failed: bool)
    requires ShopOk(s) && w in s.turns && s.turns[w].Busy?
    ensures ShopOk(Happen(s, Return(w, failed)))
  {
    var s' := Happen(s, Return(w, failed));
    TurnsStay(s, s', w);
    var key := s.turns[w].key;
    forall k | k in s'.demand
      ensures s'.demand[k] < s'.clock && IsPending(s', k, s'.demand[k])
    {
      if SyncedSince(s, k, s'.demand[k]) {
        var v :| v in s.turns && s.turns[v].Busy? && s.turns[v].key == k && s.turns[v].since > s'.demand[k];
        if v != w {
          assert s'.turns[v] == s.turns[v];
        }
      }
    }
  }

  lemma CloseIsOk(s: Shop, w: nat)
    requires ShopOk(s) && w in s.turns && s.turns[w].Closing?
    ensures ShopOk(Happen(s, Close(w)))
  {
    var s' := Happen(s, Close(w));
    var key := s.turns[w].key;
    DoneKeepsOrder(s.q, key);
    forall k
      ensures k in s'.q.processing <==> IsHeld(s'.turns, k)
    {
      if v :| v in s.turns && s.turns[v].key == k && v != w {
        assert v in s'.turns && s'.turns[v].key == k;
      }
    }
    forall k | k in s'.demand
      ensures s'.demand[k] < s'.clock && IsPending(s', k, s'.demand[k])
    {
      if SyncedSince(s, k, s.demand[k]) {
        var v :| v in s.turns && s.turns[v].Busy? && s.turns[v].key == k && s.turns[v].since > s.demand[k];
        assert s'.turns[v] == s.turns[v];
      }
    }
  }

  lemma HappenIsOk(s: Shop, e: Event)
    requires ShopOk(s)
    ensures ShopOk(Happen(s, e))
  {
    match e
    case Deliver(key) => DeliverIsOk(s, key);
    case Expire(key) => ExpireIsOk(s, key);
    case Take(w) =>
      if w !in s.turns && s.q.ready != [] {
        TakeIsOk(s, w);
      }
    case Return(w, failed) =>
      if w in s.turns && s.turns[w].Busy? {
        ReturnIsOk(s, w, failed);
      }
    case Close(w) =>
      if w in s.turns && s.turns[w].Closing? {
        CloseIsOk(s, w);
      }
  }

  lemma {:induction false} RunIsOk(s: Shop, events: seq<Event>)
    requires ShopOk(s)
    ensures ShopOk(RunShop(s, events))
    decreases |events|
  {
    if events != [] {
      RunIsOk(s, events[..|events| - 1]);
      HappenIsOk(RunShop(s, events[..|events| - 1]), events[|events| - 1]);
    }
  }

  // ---------- Guarantees ----------

  /** Per-key exclusion: whatever is delivered and however the workers interleave, no two of them hold the
      same key. */
  lemma NoKeyIsSyncedTwiceAtOnce(events: seq<Event>, v: nat, w: nat)
    requires var s := RunShop(OPENING, events); v in s.turns && w in s.turns && v != w
    ensures var s := RunShop(OPENING, events); s.turns[v].key != s.turns[w].key
  {
    RunIsOk(OPENING, events);
    assert OnePerKey(RunShop(OPENING, events));
  }

  /** The event that ends a demand of `time` for `key`: a sync begun later returns nil. */
  predicate Satisfies(s: Shop, e: Event, key: string, time: nat) {
    && e.Return? && !e.failed && e.worker in s.turns && s.turns[e.worker].Busy?
    && s.turns[e.worker].key == key && s.turns[e.worker].since > time
  }

  /** No event of `events` satisfies the demand. */
  ghost predicate Unsatisfied(s: Shop, events: seq<Event>, key: string, time: nat)
    decreases |events|
  {
    events != [] ==>
      && Unsatisfied(s, events[..|events| - 1], key, time)
      && !Satisfies(RunShop(s, events[..|events| - 1]), events[|events| - 1], key, time)
  }

  /** What raises a demand for `key`: it is enqueued, or its sync fails. */
  predicate Demands(s: Shop, e: Event, key: string) {
    || e == Deliver(key)
    || (e.Return? && e.failed && e.worker in s.turns && s.turns[e.worker].Busy? && s.turns[e.worker].key == key)
  }

  lemma DemandOutlasts(s: Shop, e: Event, key: string, time: nat)
    requires ShopOk(s) && key in s.demand && s.demand[key] >= time && !Satisfies(s, e, key, time)
    ensures key in Happen(s, e).demand && Happen(s, e).demand[key] >= time
  {}

  lemma {:induction false} DemandLasts(s: Shop, events: seq<Event>, key: string, time: nat)
    requires ShopOk(s) && key in s.demand && s.demand[key] == time && Unsatisfied(s, events, key, time)
    ensures var s' := RunShop(s, events); key in s'.demand && s'.demand[key] >= time
    decreases |events|
  {
    if events != [] {
      var before, last := events[..|events| - 1], events[|events| - 1];
      DemandLasts(s, before, key, time);
      RunIsOk(s, before);
      DemandOutlasts(RunShop(s, before), last, key, time);
    }
  }

  /** No lost work: a key that was enqueued, or whose sync failed, is still to be processed, waiting out its
      back-off, or being synced anew, until a sync that began after that point returns nil. */
  lemma NoWorkIsLost(before: seq<Event>, e: Event, after: seq<Event>, key: string)
    requires Demands(RunShop(OPENING, before), e, key)
    requires var s := RunShop(OPENING, before); Unsatisfied(Happen(s, e), after, key, s.clock)
    ensures IsPending(RunShop(Happen(RunShop(OPENING, before), e), after), key, RunShop(OPENING, before).clock)
  {
    var s := RunShop(OPENING, before);
    RunIsOk(OPENING, before);
    HappenIsOk(s, e);
    DemandLasts(Happen(s, e), after, key, s.clock);
    RunIsOk(Happen(s, e), after);
    var s' := RunShop(Happen(s, e), after);
    assert IsPending(s', key, s'.demand[key]);
  }

  /** How many of the events take a key from the queue. */
  function TakesIn(s: Shop, events: seq<Event>): nat
    decreases |events|
  {
    if events == [] then 0
    else
      var mid, e := RunShop(s, events[..|events| - 1]), events[|events| - 1];
      TakesIn(s, events[..|events| - 1]) + if e.Take? && e.worker !in mid.turns && mid.q.ready != [] then 1 else 0
  }

  lemma EventKeepsArrivals(s: Shop, e: Event)
    ensures var taken := if e.Take? && e.worker !in s.turns && s.q.ready != [] then 1 else 0;
            s.q.ready[taken..] <= Happen(s, e).q.ready
  {}

  /** Nobody jumps the queue: whatever happens, the keys that are ready stay so, ahead of all later ones and in
      their order, until they are taken from the front. */
  lemma {:induction false} ReadyKeysStayAhead(s: Shop, events: seq<Event>)
    requires TakesIn(s, events) <= |s.q.ready|
    ensures s.q.ready[TakesIn(s, events)..] <= RunShop(s, events).q.ready
    decreases |events|
  {
    if events != [] {
      var before, e := events[..|events| - 1], events[|events| - 1];
      ReadyKeysStayAhead(s, before);
      EventKeepsArrivals(RunShop(s, before), e);
    }
  }

  function Takes(workers: seq<nat>): seq<Event> {
    seq(|workers|, i requires 0 <= i < |workers| => Take(workers[i]))
  }

  ghost predicate AreIdle(s: Shop, workers: seq<nat>) {
    && (forall i :: 0 <= i < |workers| ==> workers[i] !in s.turns)
    && forall i, j :: 0 <= i < j < |workers| ==> workers[i] != workers[j]
  }

  /** What idle workers that each take a key end up with. */
  ghost predicate HandedOut(s: Shop, workers: seq<nat>, s': Shop) {
    && |workers| <= |s.q.ready| && s'.q.ready == s.q.ready[|workers|..]
    && (forall i :: 0 <= i < |workers| ==> workers[i] in s'.turns && s'.turns[workers[i]].key == s.q.ready[i])
    && forall w :: w in s'.turns ==> w in s.turns || w in workers
  }

  lemma OneMoreHandedOut(s: Shop, before: seq<nat>, mid: Shop, last: nat)
    requires AreIdle(s, before + [last]) && |before| < |s.q.ready| && HandedOut(s, before, mid)
    ensures HandedOut(s, before + [last], Happen(mid, Take(last)))
  {
    var workers := before + [last];
    assert workers[|before|] == last && forall i :: 0 <= i < |before| ==> workers[i] == before[i];
    assert last !in mid.turns;
    assert mid.q.ready[0] == s.q.ready[|before|];
  }

  /** First come, first served: idle workers get the ready keys in the order they were added. */
  lemma {:induction false} FirstComeFirstServed(s: Shop, workers: seq<nat>)
    requires AreIdle(s, workers) && |workers| <= |s.q.ready|
    ensures HandedOut(s, workers, RunShop(s, Takes(workers)))
    decreases |workers|
  {
    if workers != [] {
      var before, last := workers[..|workers| - 1], workers[|workers| - 1];
      assert Takes(workers)[..|workers| - 1] == Takes(before);
      FirstComeFirstServed(s, before);
      assert workers == before + [last];
      OneMoreHandedOut(s, before, RunShop(s, Takes(before)), last);
    }
  }

  // ---------- The worker loop ----------

  function DeliverAll(s: Shop, keys: seq<string>): Shop
    decreases |keys|
  {
    if keys == [] then s else Happen(DeliverAll(s, keys[..|keys| - 1]), Deliver(keys[|keys| - 1]))
  }

  /** What the other parties see of one turn: `keys` arrive while the sync is under way. */
  function OneTurn(s: Shop, w: nat, keys: seq<string>, failed: bool): Shop {
    Happen(Happen(DeliverAll(Happen(s, Take(w)), keys), Return(w, failed)), Close(w))
  }

  lemma {:induction false} DeliverAllIs(s: Shop, keys: seq<string>)
    ensures var q := DeliverAll(s, keys).q;
            && q.dirty == s.q.dirty + (set k | k in keys) && q.processing == s.q.processing && q.delayed == s.q.delayed
            && s.q.ready <= q.ready && DeliverAll(s, keys).turns == s.turns
    decreases |keys|
  {
    if keys != [] {
      DeliverAllIs(s, keys[..|keys| - 1]);
      assert keys == keys[..|keys| - 1] + [keys[|keys| - 1]];
    }
  }

  /** One turn takes the first key. If its sync failed, the key waits out a back-off and is not forgotten; if
      not, it is to be processed again only if it arrived meanwhile. Nothing else but the arrivals is added. */
  lemma TurnMeans(s: Shop, w: nat, keys: seq<string>, failed: bool)
    requires InOrder(s.q) && w !in s.turns && s.q.ready != []
    ensures var key := s.q.ready[0];
            var q := OneTurn(s, w, keys, failed).q;
            && q.delayed == (if failed then s.q.delayed + {key} else s.q.delayed)
            && q.dirty == s.q.dirty - {key} + (set k | k in keys) && q.processing == s.q.processing
            && s.q.ready[1..] <= q.ready
            && (key in q.ready <==> key in keys)
  {
    var key := s.q.ready[0];
    GetKeepsOrder(s.q);
    var taken := Happen(s, Take(w));
    DeliverAllIs(taken, keys);
    var busy := DeliverAll(taken, keys);
    assert busy.turns[w] == Busy(key, s.clock);
    var closing := Happen(busy, Return(w, failed));
    assert closing.turns[w] == Closing(key) && closing.q.ready == busy.q.ready;
    DeliveredInOrder(taken, keys);
    DoneKeepsOrder(closing.q, key);
  }

  lemma {:induction false} DeliveredInOrder(s: Shop, keys: seq<string>)
    requires InOrder(s.q)
    ensures InOrder(DeliverAll(s, keys).q)
    decreases |keys|
  {
    if keys != [] {
      DeliveredInOrder(s, keys[..|keys| - 1]);
      AddKeepsOrder(DeliverAll(s, keys[..|keys| - 1]).q, keys[|keys| - 1]);
    }
  }

  /** Handlers that run while a sync is under way. */
  method Deliveries(queue: WorkQueue, keys: seq<string>, ghost s: Shop)
    requires queue.View() == s.q
    modifies queue
    ensures queue.View() == DeliverAll(s, keys).q && DeliverAll(s, keys).turns == s.turns
  {
    for i := 0 to |keys|
      invariant queue.View() == DeliverAll(s, keys[..i]).q && DeliverAll(s, keys[..i]).turns == s.turns
    {
      assert keys[..i + 1][..i] == keys[..i];
      queue.Add(keys[i]);
    }
    assert keys[..|keys|] == keys;
  }

  /** The rest of a turn, once the sync of `key` has returned: AddRateLimited if it failed, and in any case
      Done. `keys` arrived meanwhile. */
  method EndTurn(queue: WorkQueue, key: string, keys: seq<string>, failed: bool, ghost s: Shop, ghost w: nat)
    requires w !in s.turns && s.q.ready != [] && key == s.q.ready[0] && queue.View() == Happen(s, Take(w)).q
    modifies queue
    ensures queue.View() == OneTurn(s, w, keys, failed).q && OneTurn(s, w, keys, failed).turns == s.turns
  {
    Deliveries(queue, keys, Happen(s, Take(w)));
    if failed {
      queue.AddRateLimited(key);
    }
    queue.Done(key);
    assert OneTurn(s, w, keys, failed).turns == s.turns[w := Busy(key, s.clock)][w := Closing(key)] - {w};
  }
}
