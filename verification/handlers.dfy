/** The event handlers (pkg/controller/handlers.go:84-195) and resolveOwnerRef
    (pkg/controller/controller.go:339-357): how changes of objects turn into work. */
module Handlers {
  import opened Basics
  import opened NotebookTypes
  import opened Kube
  import opened Goroutine
  import opened Sync
  import opened Ownership
  import opened SyncOwnership
  import opened Queue

  /** What an informer hands to a handler of owned objects. Final-state-unknown tombstones, like anything
      else that is not an API object, are `Unrecognised`. */
  datatype Payload =
    | Item(ns: string, name: string, rv: nat, owners: seq<OwnerRef>, terminating: bool)
    | Unrecognised

  /** ... and to a handler of notebooks. */
  datatype NotebookPayload = NotebookItem(ns: string, name: string) | NotANotebook

  /** The UIDs of the notebooks that the lister knows, by namespace and name. */
  type NotebookCache = map<(string, string), string>

  // ---------- Owners ----------

  /** metav1.GetControllerOf: the first owner that is the controller. */
  function ControllerOf(owners: seq<OwnerRef>): (r: Option<OwnerRef>)
    ensures r.Some? ==>
              exists i :: 0 <= i < |owners| && owners[i] == r.value && r.value.controller
                          && forall j :: 0 <= j < i ==> !owners[j].controller
    ensures r.None? ==> forall o :: o in owners ==> !o.controller
  {
    if owners == [] then None
    else if owners[0].controller then Some(owners[0])
    else ControllerOf(owners[1..])
  }

  /** resolveOwnerRef; a notebook is identified by its namespace and name. */
  function ResolveOwnerRef(cache: NotebookCache, ns: string, ref: Option<OwnerRef>): Option<(string, string)> {
    if ref.None? || ref.value.kind != NOTEBOOK_KIND then None
    else if (ns, ref.value.name) !in cache then None
    else if cache[(ns, ref.value.name)] != ref.value.uid then None
    else Some((ns, ref.value.name))
  }

  /** The queue keys of an optional notebook. */
  function KeysOf(n: Option<(string, string)>): seq<string> {
    if n.Some? then [MetaNamespaceKey(n.value.0, n.value.1)] else []
  }

  function OwnerKeys(cache: NotebookCache, obj: Payload): seq<string> {
    if obj.Item? then KeysOf(ResolveOwnerRef(cache, obj.ns, ControllerOf(obj.owners))) else []
  }

  /** The keys that a change of an object enqueues. */
  function ChangeKeys(cache: NotebookCache, old_: Payload, cur: Payload): seq<string> {
    if old_.Unrecognised? || cur.Unrecognised? || old_.rv == cur.rv then []
    else
      (if ControllerOf(old_.owners) != ControllerOf(cur.owners) then OwnerKeys(cache, old_) else [])
      + OwnerKeys(cache, cur)
  }

  function AddAll(q: Items, keys: seq<string>): Items
    decreases |keys|
  {
    if keys == [] then q else AddAll(Added(q, keys[0]), keys[1..])
  }

  lemma {:induction false} AddAllAppend(q: Items, a: seq<string>, b: seq<string>)
    ensures AddAll(q, a + b) == AddAll(AddAll(q, a), b)
    decreases |a|
  {
    if a == [] {
      assert a + b == b;
    } else {
      assert (a + b)[1..] == a[1..] + b;
      AddAllAppend(Added(q, a[0]), a[1..], b);
    }
  }

  // ---------- The handlers ----------

  method Enqueue(queue: WorkQueue, n: (string, string))
    modifies queue
    ensures queue.View() == Added(old(queue.View()), MetaNamespaceKey(n.0, n.1))
  {
    queue.Add(MetaNamespaceKey(n.0, n.1));
  }

  method OnAddNotebook(queue: WorkQueue, obj: NotebookPayload)
    modifies queue
    ensures queue.View() == if obj.NotebookItem? then Added(old(queue.View()), MetaNamespaceKey(obj.ns, obj.name))
                            else old(queue.View())
  {
    if obj.NotANotebook? {
      return;
    }
    Enqueue(queue, (obj.ns, obj.name));
  }

  method OnUpdateNotebook(queue: WorkQueue, old_: NotebookPayload, cur: NotebookPayload)
    modifies queue
    ensures queue.View() == if old_.NotebookItem? && cur.NotebookItem?
                            then Added(old(queue.View()), MetaNamespaceKey(cur.ns, cur.name))
                            else old(queue.View())
  {
    if old_.NotANotebook? {
      return;
    }
    if cur.NotANotebook? {
      return;
    }
    Enqueue(queue, (cur.ns, cur.name));
  }

  method OnDeleteNotebook(queue: WorkQueue, obj: NotebookPayload)
    modifies queue
    ensures queue.View() == if obj.NotebookItem? then Added(old(queue.View()), MetaNamespaceKey(obj.ns, obj.name))
                            else old(queue.View())
  {
    if obj.NotANotebook? {
      return;
    }
    Enqueue(queue, (obj.ns, obj.name));
  }

  method OnDeleteObject(queue: WorkQueue, cache: NotebookCache, obj: Payload)
    modifies queue
    ensures queue.View() == AddAll(old(queue.View()), OwnerKeys(cache, obj))
  {
    if obj.Unrecognised? {
      return;
    }
    var ref := ControllerOf(obj.owners);
    if ref.None? {
      return;
    }
    var n := ResolveOwnerRef(cache, obj.ns, ref);
    if n.None? {
      return;
    }
    Enqueue(queue, n.value);
  }

  method OnAddObject(queue: WorkQueue, cache: NotebookCache, obj: Payload)
    modifies queue
    ensures queue.View() == AddAll(old(queue.View()), OwnerKeys(cache, obj))
  {
    if obj.Unrecognised? {
      return;
    }
    if obj.terminating {
      OnDeleteObject(queue, cache, obj);
      return;
    }
    var ref := ControllerOf(obj.owners);
    if ref.None? {
      return;
    }
    var n := ResolveOwnerRef(cache, obj.ns, ref);
    if n.None? {
      return;
    }
    Enqueue(queue, n.value);
  }

  method OnUpdateObject(queue: WorkQueue, cache: NotebookCache, old_: Payload, cur: Payload)
    modifies queue
    ensures queue.View() == AddAll(old(queue.View()), ChangeKeys(cache, old_, cur))
  {
    if old_.Unrecognised? {
      return;
    }
    if cur.Unrecognised? {
      return;
    }
    if old_.rv == cur.rv {
      return;
    }
    var oldRef, curRef := ControllerOf(old_.owners), ControllerOf(cur.owners);
    AddAllAppend(queue.View(), if oldRef != curRef then OwnerKeys(cache, old_) else [], OwnerKeys(cache, cur));
    if oldRef != curRef && oldRef.Some? {
      var n := ResolveOwnerRef(cache, old_.ns, oldRef);
      if n.Some? {
        Enqueue(queue, n.value);
      }
    }
    var n := ResolveOwnerRef(cache, cur.ns, curRef);
    if n.None? {
      return;
    }
    Enqueue(queue, n.value);
  }

  // ---------- What they promise ----------

  lemma {:induction false} AddAllIs(q: Items, keys: seq<string>)
    ensures AddAll(q, keys).dirty == q.dirty + set k | k in keys
    ensures AddAll(q, keys).processing == q.processing && AddAll(q, keys).delayed == q.delayed
    ensures Queue.InOrder(q) ==> Queue.InOrder(AddAll(q, keys))
    decreases |keys|
  {
    if keys != [] {
      if Queue.InOrder(q) {
        AddKeepsOrder(q, keys[0]);
      }
      AddAllIs(Added(q, keys[0]), keys[1..]);
      assert keys == [keys[0]] + keys[1..];
    }
  }

  /** Some object in namespace `ns` is controlled by the cached notebook `n`. */
  predicate Controls(cache: NotebookCache, n: (string, string), ns: string, ref: OwnerRef) {
    ref.kind == NOTEBOOK_KIND && n == (ns, ref.name) && n in cache && cache[n] == ref.uid
  }

  /** An update enqueues exactly the cached notebooks that control the object now or, if the controller has
      changed, controlled it before; one that leaves the resource version alone enqueues nothing. */
  lemma OwnerChangeWakesBoth(cache: NotebookCache, old_: Payload, cur: Payload, n: (string, string))
    requires old_.Item? && cur.Item? && Slashless(n.0) && Slashless(n.1)
    requires Slashless(old_.ns) && Slashless(cur.ns)
    requires forall k :: k in cache ==> Slashless(k.1)
    ensures var was, now := ControllerOf(old_.owners), ControllerOf(cur.owners);
            MetaNamespaceKey(n.0, n.1) in ChangeKeys(cache, old_, cur) <==>
              && old_.rv != cur.rv
              && ((now.Some? && Controls(cache, n, cur.ns, now.value))
                  || (was != now && was.Some? && Controls(cache, n, old_.ns, was.value)))
    ensures old_.rv == cur.rv ==> ChangeKeys(cache, old_, cur) == []
  {
    KeyRoundTrip(n.0, n.1);
    forall obj | (obj == old_ || obj == cur) && OwnerKeys(cache, obj) != []
      ensures MetaNamespaceKey(n.0, n.1) in OwnerKeys(cache, obj) <==> n == (obj.ns, ControllerOf(obj.owners).value.name)
    {
      KeyRoundTrip(obj.ns, ControllerOf(obj.owners).value.name);
    }
  }

  /** The change event of an object that the operator has written. */
  function PayloadOf(key: Key, o: Object, rv: nat): Payload {
    Item(key.ns, key.name, rv, o.meta.owners, o.meta.terminating)
  }

  /** Ownership round trip: for every object that a sync of the cached notebook `c` writes, in whatever
      circumstances, a later event leads back to that notebook, and to no other, exactly if the lister
      still knows a notebook of that name with that UID. */
  lemma OwnershipRoundTrip(c: Nb, logs: Logs, luck: Luck, tag: Tag, i: nat, cache: NotebookCache)
    requires |luck.scripts| == 4 && i < 4 && c.ns == tag.ns && c.name == tag.name
    requires c.kind == "" || c.kind == NOTEBOOK_KIND
    ensures var key := OwnKey(KINDS[i], c.ns, c.name);
            var log := LogOf(SyncOnce(Known(c), logs, luck, tag).logs, key);
            var keys := if (c.ns, c.name) in cache && cache[(c.ns, c.name)] == c.uid
                        then [MetaNamespaceKey(c.ns, c.name)] else [];
            forall m :: |LogOf(logs, key)| <= m < |log| && IsWritten(log[m]) ==>
              log[m].obj.Some? && OwnerKeys(cache, PayloadOf(key, log[m].obj.value, m + 1)) == keys
  {
    SyncOwns(c, logs, luck, tag, i);
  }
}
