/** The worker loop around the queue and the sync (pkg/controller/controller.go:238-276). */
module WorkerLoop {
  import opened Basics
  import opened Kube
  import opened Resources
  import opened Interleaving
  import opened Sync
  import opened Queue
  import opened Controller
  import opened NotebookHeap

  /** The notebook lister: what its cache holds for a namespace and name, or the error that it fails with. */
  class NotebookLister {
    var notebooks: map<(string, string), Notebook>
    var broken: Option<Error>

    /** The cache files every notebook under its own namespace and name. */
    ghost predicate Valid()
      reads this, notebooks.Values
    {
      forall k :: k in notebooks ==> notebooks[k].ns == k.0 && notebooks[k].name == k.1
    }

    ghost function Lists(ns: string, name: string): Listed
      reads this, if (ns, name) in notebooks then notebooks[(ns, name)].Footprint() else {}
    {
      if broken.Some? then Unlisted(broken.value)
      else if (ns, name) in notebooks then Known(notebooks[(ns, name)].View())
      else Missing
    }

    method Get(ns: string, name: string) returns (answer: Answer)
      requires Valid()
      ensures ListedBy(answer) == Lists(ns, name)
      ensures answer.Cached? ==> answer.n.ns == ns && answer.n.name == name
    {
      if broken.Some? {
        answer := ListFailed(broken.value);
      } else if (ns, name) in notebooks {
        answer := Cached(notebooks[(ns, name)]);
      } else {
        answer := NoSuchNotebook;
      }
    }
  }

  /** A whole sync, from its key on; a key with more than one slash fails it at once. `lists` is what the
      lister has for each namespace and name. */
  function SyncOfKey(key: string, lists: (string, string) -> Listed, logs: Logs, luck: Luck, sync: nat, ca: nat): Outcome
    requires |luck.scripts| == 4
  {
    match SplitMetaNamespaceKey(key)
    case Malformed => Outcome(logs, Some(Error(Other, MalformedKey)))
    case KeyParts(ns, name) => SyncOnce(lists(ns, name), logs, luck, Tag(sync, ca, ns, name))
  }

  /** A key that a handler has made is never malformed: its sync is that of the notebook it was made from. */
  lemma HandlersKeysAreSynced(ns: string, name: string, lists: (string, string) -> Listed, logs: Logs, luck: Luck,
                              sync: nat, ca: nat)
    requires |luck.scripts| == 4 && Slashless(ns) && Slashless(name)
    ensures SyncOfKey(MetaNamespaceKey(ns, name), lists, logs, luck, sync, ca)
         == SyncOnce(lists(ns, name), logs, luck, Tag(sync, ca, ns, name))
  {
    KeyRoundTrip(ns, name);
  }

  /** ... and one with more than one slash fails its sync, which touches nothing. */
  lemma MalformedKeyFails(key: string, lists: (string, string) -> Listed, logs: Logs, luck: Luck, sync: nat, ca: nat)
    requires |luck.scripts| == 4 && HasTwo(key, '/')
    ensures SyncOfKey(key, lists, logs, luck, sync, ca) == Outcome(logs, Some(Error(Other, MalformedKey)))
  {
    MalformedMeans(key);
  }

  /** `lists` says what the lister has for the parts of the key. */
  ghost predicate Tells(lister: NotebookLister, key: string, lists: (string, string) -> Listed)
    reads lister, lister.notebooks.Values, set k, o | k in lister.notebooks && o in lister.notebooks[k].Footprint() :: o
  {
    match SplitMetaNamespaceKey(key)
    case Malformed => true
    case KeyParts(ns, name) => lists(ns, name) == lister.Lists(ns, name)
  }

  /** The lister is asked for a namespace and name, and its answer synced. */
  method SyncParts(s: Server, lister: NotebookLister, scripts: seq<List<Move>>, schedule: seq<nat>, tag: Tag,
                   ghost found: Listed)
    returns (err: Option<Error>)
    requires |scripts| == 4 && lister.Valid() && found == lister.Lists(tag.ns, tag.name)
    modifies s
    ensures var r := SyncOnce(found, old(s.logs), Luck(old(s.script), scripts), tag);
            Same(s.logs, r.logs) && err == r.err
    ensures lister.broken.Some? ==> err == lister.broken && Same(s.logs, old(s.logs))
  {
    var answer := lister.Get(tag.ns, tag.name);
    err := SyncNotebook(s, answer, scripts, schedule, tag, found);
  }

  /** sync: the key is split, and the lister asked for its parts. A lister that fails is not taken for one that
      has no notebook: the sync returns its error and touches nothing. */
  method SyncKey(s: Server, lister: NotebookLister, key: string, scripts: seq<List<Move>>, schedule: seq<nat>,
                 sync: nat, ca: nat, ghost lists: (string, string) -> Listed)
    returns (err: Option<Error>)
    requires |scripts| == 4 && lister.Valid() && Tells(lister, key, lists)
    modifies s
    ensures var r := SyncOfKey(key, lists, old(s.logs), Luck(old(s.script), scripts), sync, ca);
            Same(s.logs, r.logs) && err == r.err
    ensures lister.broken.Some? && !HasTwo(key, '/') ==> err == lister.broken && Same(s.logs, old(s.logs))
  {
    MalformedMeans(key);
    match SplitMetaNamespaceKey(key)
    case Malformed => err := Some(Error(Other, MalformedKey));
    case KeyParts(ns, name) =>
      err := SyncParts(s, lister, scripts, schedule, Tag(sync, ca, ns, name), lists(ns, name));
  }

  /** processNextWorkItem: Get, sync, AddRateLimited if it failed, and in any case Done. `arrivals` are the
      keys that handlers enqueue while the sync is under way. */
  method ProcessNextWorkItem(queue: WorkQueue, s: Server, lister: NotebookLister, scripts: seq<List<Move>>,
                             schedule: seq<nat>, sync: nat, ca: nat, arrivals: seq<string>,
                             ghost lists: (string, string) -> Listed, ghost shop: Shop, ghost w: nat)
    returns (key: string, err: Option<Error>)
    requires queue.View() == shop.q && w !in shop.turns && queue.ready != []
    requires |scripts| == 4 && lister.Valid() && Tells(lister, queue.ready[0], lists)
    modifies queue, s
    ensures key == old(queue.ready)[0]
    ensures var r := SyncOfKey(key, lists, old(s.logs), Luck(old(s.script), scripts), sync, ca);
            Same(s.logs, r.logs) && err == r.err
    ensures lister.broken.Some? && !HasTwo(key, '/') ==> err == lister.broken && Same(s.logs, old(s.logs))
    ensures queue.View() == OneTurn(shop, w, arrivals, err.Some?).q
    ensures OneTurn(shop, w, arrivals, err.Some?).turns == shop.turns
  {
    key := queue.Get();
    err := SyncKey(s, lister, key, scripts, schedule, sync, ca, lists);
    EndTurn(queue, key, arrivals, err.Some?, shop, w);
  }
}
