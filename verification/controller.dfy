/** The controller in the imperative form of the source: sync and setNotebookPhase mutate the copied
    Notebook and the server, the goroutines fill their slots of an error array, joinErrors appends in a
    loop (pkg/controller/controller.go and handlers.go). */
module Controller {
  import opened Basics
  import opened NotebookTypes
  import opened Kube
  import opened Goroutine
  import opened Resources
  import opened Interleaving
  import opened Sync
  import opened NotebookHeap

  lemma {:induction false} MessagesAppend(a: seq<Option<Error>>, b: seq<Option<Error>>, ignore: set<Reason>)
    ensures Messages(a + b, ignore) == Messages(a, ignore) + Messages(b, ignore)
  {
    if a == [] {
      assert a + b == b;
    } else {
      assert (a + b)[1..] == a[1..] + b;
      MessagesAppend(a[1..], b, ignore);
    }
  }

  /** joinErrors with its two loops. */
  method JoinErrorList(errs: seq<Option<Error>>, ignore: seq<Reason>) returns (joined: Option<Error>)
    ensures joined == JoinErrors(errs, set x | x in ignore)
    ensures joined.None? <==> forall i :: 0 <= i < |errs| ==> errs[i].None? || errs[i].value.reason in ignore
  {
    ghost var ignored := set x | x in ignore;
    var parts: seq<Message> := [];
    for i := 0 to |errs|
      invariant parts == Messages(errs[..i], ignored)
    {
      var keep := errs[i].Some?;
      if keep {
        for j := 0 to |ignore|
          invariant keep <==> errs[i].value.reason !in ignore[..j]
        {
          if ignore[j] == errs[i].value.reason {
            keep := false;
          }
        }
      }
      assert errs[..i + 1] == errs[..i] + [errs[i]];
      MessagesAppend(errs[..i], [errs[i]], ignored);
      if keep {
        parts := parts + [errs[i].value.msg];
      }
    }
    assert errs[..|errs|] == errs;
    joined := if parts != [] then Some(Error(Other, Joined(parts))) else None;
    JoinErrorsNil(errs, ignored);
  }

  /** setNotebookPhase: no call if the copy already says so; the server's answer is dropped, so the copy
      keeps its ResourceVersion. */
  method SetNotebookPhase(s: Server, n: Notebook, phase: Phase, tag: Tag) returns (err: Option<Error>)
    requires n.ns == tag.ns && n.name == tag.name
    modifies s, n`phase
    ensures n.View() == old(n.View()).(phase := phase)
    ensures Wrote(s.logs, s.script, err) == SetPhase(old(s.logs), old(s.script), n.rv, old(n.phase), phase, tag)
  {
    var had := n.phase;
    n.WritePhase(phase);
    err := None;
    if had != phase {
      err := s.UpdateStatus(NotebookKey(n.ns, n.name), phase, n.rv, tag);
    }
  }

  /** What holds of the goroutines at every moment: their outcomes are those they began with. */
  ghost predicate Underway(rs0: seq<Runner>, logs0: Logs, rs: seq<Runner>, logs: Logs, tag: Tag) {
    && Apart(rs0) && Apart(rs)
    && SameOutcomes(rs0, logs0, rs, logs, tag)
    && Untouched(rs0, logs0, logs)
    && forall i :: 0 <= i < |rs0| ==> Zone(rs[i].g) == Zone(rs0[i].g)
  }

  lemma UnderwayTick(rs0: seq<Runner>, logs0: Logs, rs: seq<Runner>, logs: Logs, i: nat, tag: Tag)
    requires Underway(rs0, logs0, rs, logs, tag)
    ensures var (rs', logs') := Tick(rs, logs, i, tag);
            Underway(rs0, logs0, rs', logs', tag)
  {
    TickKeepsOutcomes(rs, logs, i, tag);
    var (rs', logs') := Tick(rs, logs, i, tag);
    Chain(rs0, logs0, rs, logs, rs', logs', tag);
  }

  lemma UnderwayEnds(rs0: seq<Runner>, logs0: Logs, rs: seq<Runner>, logs: Logs, tag: Tag)
    requires Underway(rs0, logs0, rs, logs, tag) && AllDone(rs)
    ensures rs == InOrder(rs0, logs0, 0, tag).0 && Same(logs, InOrder(rs0, logs0, 0, tag).1)
  {
    InOrderKeepsOutcomes(rs0, logs0, 0, tag);
    InOrderFinishes(rs0, logs0, 0, tag);
    var (rs2, logs2) := InOrder(rs0, logs0, 0, tag);
    EqualEnds(rs0, logs0, rs, logs, rs2, logs2, tag);
  }

  /** The goroutines act in the order of `schedule`; then whoever is left runs on. */
  method RunGoroutines(s: Server, start: seq<Runner>, schedule: seq<nat>, tag: Tag) returns (errs: array<Option<Error>>)
    requires Apart(start)
    modifies s`logs
    ensures fresh(errs) && errs[..] == Errors(InOrder(start, old(s.logs), 0, tag).0)
    ensures Same(s.logs, InOrder(start, old(s.logs), 0, tag).1)
  {
    var rs := start;
    ghost var logs0 := s.logs;
    errs := new Option<Error>[|rs|](i requires 0 <= i < |rs| => rs[i].g.err);
    assert errs[..] == Errors(rs);
    for k := 0 to |schedule|
      invariant Underway(start, logs0, rs, s.logs, tag) && errs[..] == Errors(rs)
    {
      rs := Act(s, rs, schedule[k], errs, start, logs0, tag);
    }
    for i := 0 to |start|
      invariant Underway(start, logs0, rs, s.logs, tag) && errs[..] == Errors(rs)
      invariant forall j :: 0 <= j < i ==> rs[j].g.pc == Done
    {
      rs := RunOn(s, rs, i, errs, start, logs0, tag);
    }
    UnderwayEnds(start, logs0, rs, s.logs, tag);
  }

  /** Goroutine `i` runs on to its end. */
  method RunOn(s: Server, start: seq<Runner>, i: nat, errs: array<Option<Error>>, ghost rs0: seq<Runner>, ghost logs0: Logs, tag: Tag)
    returns (rs: seq<Runner>)
    requires i < |start| == errs.Length && Underway(rs0, logs0, start, s.logs, tag) && errs[..] == Errors(start)
    modifies s`logs, errs
    ensures |rs| == |start| && rs == start[i := rs[i]] && rs[i].g.pc == Done
    ensures Underway(rs0, logs0, rs, s.logs, tag) && errs[..] == Errors(rs)
  {
    rs := start;
    while rs[i].g.pc != Done
      invariant |rs| == |start| && rs == start[i := rs[i]]
      invariant Underway(rs0, logs0, rs, s.logs, tag) && errs[..] == Errors(rs)
      decreases rs[i].script, Rank(rs[i].g.pc)
    {
      TickProgress(rs, s.logs, i, tag);
      rs := Act(s, rs, i, errs, rs0, logs0, tag);
    }
  }

  /** The error of the whole reconcile: the joined slots, wrapped. */
  method JoinSlots(errs: seq<Option<Error>>) returns (err: Option<Error>)
    ensures err == JoinedError(errs)
    ensures err.None? <==> forall i :: 0 <= i < |errs| ==> errs[i].None?
  {
    err := JoinErrorList(errs, []);
    assert (set x: Reason | x in []) == {};
    if err.Some? {
      err := Some(Error(Other, Because(Reconciling, err.value.msg)));
    }
  }

  /** reconcileNotebookResources. The schedule does not matter: the result is that of `Reconciled`. */
  method ReconcileNotebookResources(s: Server, n: Nb, scripts: seq<List<Move>>, schedule: seq<nat>, tag: Tag)
    returns (err: Option<Error>)
    requires Readable(n) && |scripts| == 4
    modifies s`logs
    ensures Same(s.logs, Reconciled(n, old(s.logs), scripts, tag).logs)
    ensures err == Reconciled(n, old(s.logs), scripts, tag).err
  {
    RunnersApart(n, scripts, tag);
    var errs := RunGoroutines(s, Runners(n, scripts, tag), schedule, tag);
    err := JoinSlots(errs[..]);
  }

  /** One action of goroutine `i`, which then leaves its error in its own slot. */
  method Act(s: Server, rs: seq<Runner>, i: nat, errs: array<Option<Error>>, ghost rs0: seq<Runner>, ghost logs0: Logs, tag: Tag)
    returns (rs': seq<Runner>)
    requires |rs| == errs.Length && Underway(rs0, logs0, rs, s.logs, tag) && errs[..] == Errors(rs)
    modifies s`logs, errs
    ensures (rs', s.logs) == Tick(rs, old(s.logs), i, tag)
    ensures Underway(rs0, logs0, rs', s.logs, tag) && errs[..] == Errors(rs')
  {
    UnderwayTick(rs0, logs0, rs, s.logs, i, tag);
    var (next, logs) := Tick(rs, s.logs, i, tag);
    s.logs := logs;
    if i < errs.Length {
      errs[i] := next[i].g.err;
    }
    rs' := next;
  }

  /** Calls on the notebook do not tell apart clusters that are the same. */
  lemma EndingRespectsSame(n: Nb, a: Outcome, b: Outcome, main: List<Move>, tag: Tag)
    requires Same(a.logs, b.logs) && a.err == b.err
    ensures Same(Ending(n, a, main, tag).logs, Ending(n, b, main, tag).logs)
    ensures Ending(n, a, main, tag).err == Ending(n, b, main, tag).err
  {
    var key := NotebookKey(tag.ns, tag.name);
    assert LogOf(a.logs, key) == LogOf(b.logs, key);
    forall k
      ensures LogOf(Ending(n, a, main, tag).logs, k) == LogOf(Ending(n, b, main, tag).logs, k)
    {
      assert LogOf(a.logs, k) == LogOf(b.logs, k);
    }
  }

  /** What the notebook lister hands out: a pointer into its cache, NotFound, or another error. */
  datatype Answer = Cached(n: Notebook) | NoSuchNotebook | ListFailed(err: Error)

  ghost function ListedBy(a: Answer): Listed
    reads if a.Cached? then a.n.Footprint() else {}
  {
    match a
    case Cached(n) => Known(n.View())
    case NoSuchNotebook => Missing
    case ListFailed(e) => Unlisted(e)
  }

  /** sync of a notebook that is gone, on a struct with nothing but its name and a deletion timestamp. */
  method SyncGone(s: Server, scripts: seq<List<Move>>, schedule: seq<nat>, tag: Tag) returns (err: Option<Error>)
    requires |scripts| == 4
    modifies s
    ensures var r := SyncOnce(Missing, old(s.logs), Luck(old(s.script), scripts), tag);
            Same(s.logs, r.logs) && err == r.err
  {
    var deleted := new Cell(Meta(map[], map[], [], true));
    var gone := new Notebook.Gone(tag.ns, tag.name, deleted);
    err := ReconcileNotebookResources(s, gone.View(), scripts, schedule, tag);
  }

  /** sync of a cached notebook, which is copied first. */
  method SyncCached(s: Server, cached: Notebook, scripts: seq<List<Move>>, schedule: seq<nat>, tag: Tag, ghost c: Nb)
    returns (err: Option<Error>)
    requires |scripts| == 4 && cached.ns == tag.ns && cached.name == tag.name && c == cached.View()
    modifies s
    ensures var r := SyncOnce(Known(c), old(s.logs), Luck(old(s.script), scripts), tag);
            Same(s.logs, r.logs) && err == r.err
    ensures cached.View() == c
  {
    var n := cached.DeepCopy();
    err := SyncCopy(s, n, cached.Spec(), scripts, schedule, tag, c);
  }

  /** sync, from the lister's answer on. It changes the server and nothing that existed before: not the
      cached Notebook, nor anything behind its pointers. */
  method SyncNotebook(s: Server, answer: Answer, scripts: seq<List<Move>>, schedule: seq<nat>, tag: Tag,
                      ghost found: Listed)
    returns (err: Option<Error>)
    requires |scripts| == 4 && found == ListedBy(answer) && (answer.Cached? ==> answer.n.ns == tag.ns && answer.n.name == tag.name)
    modifies s
    ensures var r := SyncOnce(found, old(s.logs), Luck(old(s.script), scripts), tag);
            Same(s.logs, r.logs) && err == r.err
    ensures ListedBy(answer) == found
  {
    if answer.NoSuchNotebook? {
      err := SyncGone(s, scripts, schedule, tag);
    } else if answer.ListFailed? {
      err := Some(answer.err);
    } else {
      err := SyncCached(s, answer.n, scripts, schedule, tag, found.n);
    }
  }

  /** sync on the copy; `before` is the spec of the cached notebook it was made from. */
  method SyncCopy(s: Server, n: Notebook, before: NotebookSpec, scripts: seq<List<Move>>, schedule: seq<nat>, tag: Tag,
                  ghost c: Nb)
    returns (err: Option<Error>)
    requires |scripts| == 4 && n.Spec() == before && n.ns == tag.ns && n.name == tag.name && c == n.View()
    modifies s, n
    ensures var r := SyncOnce(Known(c), old(s.logs), Luck(old(s.script), scripts), tag);
            Same(s.logs, r.logs) && err == r.err
  {
    err := n.Validate();
    if err.Some? {
      var _ := SetNotebookPhase(s, n, Failed, tag);
    } else {
      err := SyncValid(s, n, before, scripts, schedule, tag, c);
    }
  }

  /** sync on a copy that is valid: its defaults are set in place. */
  method SyncValid(s: Server, n: Notebook, before: NotebookSpec, scripts: seq<List<Move>>, schedule: seq<nat>, tag: Tag,
                   ghost c: Nb)
    returns (err: Option<Error>)
    requires |scripts| == 4 && n.Spec() == before && n.ns == tag.ns && n.name == tag.name && c == n.View()
    requires NotebookTypes.Validate(before).None?
    modifies s, n
    ensures var r := SyncOnce(Known(c), old(s.logs), Luck(old(s.script), scripts), tag);
            Same(s.logs, r.logs) && err == r.err
  {
    n.Prepare();
    assert n.Spec() == n.View().spec;
    err := SyncPrepared(s, n, before, scripts, schedule, tag);
  }

  /** sync after validation and defaulting of the copy; `before` is the spec of the cached notebook. */
  method SyncPrepared(s: Server, n: Notebook, before: NotebookSpec, scripts: seq<List<Move>>, schedule: seq<nat>, tag: Tag)
    returns (err: Option<Error>)
    requires |scripts| == 4 && Readable(n.View()) && n.ns == tag.ns && n.name == tag.name
    modifies s, n`phase
    ensures var luck := Luck(old(s.script), scripts);
            if old(n.Spec()) != before then
              var w := SetDefaultsOnServer(old(s.logs), old(s.script), old(n.View()), tag);
              s.logs == w.logs && err == DefaultsError(w.err)
            else
              var r := Live(old(n.View()), old(s.logs), luck, tag);
              Same(s.logs, r.logs) && err == r.err
  {
    if n.Spec() != before {
      err := s.Update(NotebookKey(n.ns, n.name), NotebookObject(n.View()), n.rv, tag);
      if err.Some? {
        err := Some(Error(Other, Because(SettingDefaults, err.value.msg)));
      }
      return;
    }
    ghost var n0, logs0, main0 := n.View(), s.logs, s.script;
    if n.phase != Running && n.phase != Failed {
      var _ := SetNotebookPhase(s, n, Pending, tag);
    }
    assert n.View() == Announced(n0);
    ghost var logs1, main1 := s.logs, s.script;
    err := ReconcileNotebookResources(s, n.View(), scripts, schedule, tag);
    ghost var here := Outcome(s.logs, err);
    EndingRespectsSame(Announced(n0), here, Reconciled(Announced(n0), logs1, scripts, tag), main1, tag);
    var _ := SetNotebookPhase(s, n, FinalPhase(err), tag);
    assert s.logs == Ending(Announced(n0), here, main1, tag).logs;
  }
}
