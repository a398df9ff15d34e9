/** When the operator deletes an object that it does not manage. Deletions are by name only, so the check that
    protects foreign objects from Create and Update does not protect them here: neither the deletion of what a
    notebook does not want (pkg/controller/reconcilers.go:41-43, 55-57, 68-70, 81-83), nor the one inside the
    replacement of a StatefulSet (pkg/k8sutil/statefulset.go:181-184), which looks at a lister's version only. */
module Foreign {
  import opened Basics
  import opened Naming
  import opened Kube
  import opened Calculate
  import opened Goroutine
  import opened Interleaving
  import opened Settling
  import opened Quiescence
  import opened Swallowed

  predicate IsForeign(o: Option<Object>) {
    o.Some? && !IsManaged(o.value.meta.labels)
  }

  predicate IsDeletion(e: Entry) {
    e.author.Operator? && e.author.verb.Deleted?
  }

  ghost predicate DeletesForeignAt(log: Log, i: nat) {
    i < |log| && IsDeletion(log[i]) && IsForeign(Seen(log, i))
  }

  /** From entry `from` on, the operator has deleted, or marked for deletion, an object it did not manage. */
  ghost predicate DeletesForeign(log: Log, from: nat) {
    exists i: nat :: from <= i && DeletesForeignAt(log, i)
  }

  ghost predicate NoDeletions(log: Log, from: nat) {
    forall i :: from <= i < |log| ==> !IsDeletion(log[i])
  }

  lemma SplitAt(a: Log, b: Log, from: nat)
    requires a <= b && from <= |a|
    ensures DeletesForeign(b, from) <==> DeletesForeign(a, from) || DeletesForeign(b, |a|)
  {
    forall i: nat | i < |a|
      ensures DeletesForeignAt(a, i) <==> DeletesForeignAt(b, i)
    {
      assert a[i] == b[i] && Seen(a, i) == Seen(b, i);
    }
    if i: nat :| from <= i && DeletesForeignAt(b, i) {
      assert i < |a| ==> DeletesForeignAt(a, i);
    }
    if i: nat :| from <= i && DeletesForeignAt(a, i) {
      assert DeletesForeignAt(b, i);
    }
  }

  // ---------- Everything but the one Delete ----------

  lemma {:induction false} OthersDeleteNothing(kind: Kind, log: Log, env: List<Option<Object>>)
    ensures NoDeletions(Interfere(kind, log, env), |log|)
    decreases env
  {
    match env
    case Nil =>
    case Cons(o, rest) =>
      var next := if o.Some? && KindOf(o.value.body) != kind then log else Append(log, o, Environment);
      OthersDeleteNothing(kind, next, rest);
  }

  /** After its Delete, or if it makes none, a goroutine deletes nothing. */
  predicate IsHarmless(pc: Pc) {
    pc != Read && pc != Purge && pc != Erase
  }

  lemma HarmlessStep(l: Local, mv: Move, tag: Tag)
    requires Sound(l.g) && IsHarmless(l.g.pc)
    ensures var e := StepOnce(l, mv, tag);
            IsHarmless(e.g.pc) && l.own <= e.own && NoDeletions(e.own, |l.own|)
  {
    OthersDeleteNothing(l.g.key.kind, l.own, mv.env);
  }

  lemma {:induction false} HarmlessRun(t: Thread, tag: Tag)
    requires Sound(t.l.g) && IsHarmless(t.l.g.pc)
    ensures t.l.own <= Finish(t, tag).l.own && NoDeletions(Finish(t, tag).l.own, |t.l.own|)
    decreases t.script, Rank(t.l.g.pc)
  {
    if t.l.g.pc != Done {
      StepProgress(t.l, Head(t.script), tag);
      StepProgress(t.l, QUIET, tag);
      HarmlessStep(t.l, Head(t.script), tag);
      HarmlessStep(t.l, QUIET, tag);
      FinishUnrolls(t, tag);
      HarmlessRun(Advance(t, tag), tag);
    }
  }

  // ---------- The Delete ----------

  /** The call arrives, finds a foreign object, and does something to it: a foreground deletion that cannot
      complete yet does nothing to an object that is already being deleted. */
  predicate HitsForeign(log: Log, foreground: bool, mv: Move) {
    && !mv.fault.Dropped? && IsForeign(Current(log))
    && (!foreground || mv.gone || !Current(log).value.meta.terminating)
  }

  lemma DeleteHits(log: Log, foreground: bool, tag: Tag, mv: Move)
    ensures var after := Delete(log, foreground, tag, mv).log;
            log <= after && (DeletesForeign(after, |log|) <==> HitsForeign(log, foreground, mv))
  {
    var after := Delete(log, foreground, tag, mv).log;
    if after != log {
      assert Seen(after, |log|) == Current(log);
      assert DeletesForeignAt(after, |log|) <==> IsForeign(Current(log));
    }
  }

  /** What a run has added before, in, and after its Delete. */
  lemma Around(own: Log, found: Log, after: Log, end: Log)
    requires own <= found <= after <= end && NoDeletions(found, |own|) && NoDeletions(end, |after|)
    ensures DeletesForeign(end, |own|) <==> DeletesForeign(after, |found|)
  {
    SplitAt(after, end, |own|);
    SplitAt(found, after, |own|);
  }

  // ---------- Goroutines ----------

  /** The lister shows a managed StatefulSet with another template, but what the Delete hits is foreign. */
  predicate ReplacesForeign(l: Local, want: Object, script: List<Move>, tag: Tag) {
    var answer := Answer(l, script);
    && answer.Found? && IsManaged(answer.obj.meta.labels) && Adopt(want, answer.obj, tag.ca).None?
    && HitsForeign(AtWrite(l, script), true, Head(Tail(script)))
  }

  lemma PurgeHits(t: Thread, tag: Tag)
    requires Sound(t.l.g) && t.l.g.pc == Purge
    ensures var found := Interfere(t.l.g.key.kind, t.l.own, Head(t.script).env);
            DeletesForeign(Finish(t, tag).l.own, |t.l.own|) <==> HitsForeign(found, true, Head(t.script))
    ensures t.l.own <= Finish(t, tag).l.own
  {
    var mv := Head(t.script);
    var found := Interfere(t.l.g.key.kind, t.l.own, mv.env);
    FinishUnrolls(t, tag);
    var u := Advance(t, tag);
    OthersDeleteNothing(t.l.g.key.kind, t.l.own, mv.env);
    DeleteHits(found, true, tag, mv);
    HarmlessRun(u, tag);
    Around(t.l.own, found, u.l.own, Finish(t, tag).l.own);
  }

  /** A reconciler that keeps an object deletes a foreign one exactly if it replaces a StatefulSet that only a
      stale lister still shows, whatever else happens during its run. */
  lemma KeepingDeletesForeign(l: Local, want: Object, script: List<Move>, tag: Tag)
    requires Begins(l, want, tag.ca)
    ensures DeletesForeign(Finish(Thread(l, script), tag).l.own, |l.own|) <==> ReplacesForeign(l, want, script, tag)
  {
    var t := Thread(l, script);
    var u := Advance(t, tag);
    var end := Finish(t, tag).l.own;
    FinishUnrolls(t, tag);
    InterfereTyped(l.g.key.kind, l.own, Head(script).env);
    OthersDeleteNothing(l.g.key.kind, l.own, Head(script).env);
    assert u == Thread(l.(g := OnRead(l.g, Answer(l, script), tag.ca), own := AtRead(l, script)), Tail(script));
    if u.l.g.pc == Purge {
      PurgeHits(u, tag);
    } else {
      HarmlessRun(u, tag);
    }
    SplitAt(u.l.own, end, |l.own|);
  }

  /** A reconciler that erases deletes a foreign object exactly if its call arrives and finds one. */
  lemma ErasingDeletesForeign(l: Local, script: List<Move>, tag: Tag)
    requires Sound(l.g) && l.g.pc == Erase
    ensures DeletesForeign(Finish(Thread(l, script), tag).l.own, |l.own|)
       <==> HitsForeign(AtRead(l, script), false, Head(script))
  {
    var t := Thread(l, script);
    var u := Advance(t, tag);
    FinishUnrolls(t, tag);
    OthersDeleteNothing(l.g.key.kind, l.own, Head(script).env);
    DeleteHits(AtRead(l, script), false, tag, Head(script));
    HarmlessRun(u, tag);
    Around(l.own, AtRead(l, script), u.l.own, Finish(t, tag).l.own);
  }

  // ---------- A whole reconcile ----------

  lemma OneDeletesForeign(n: Nb, logs: Logs, script: List<Move>, tag: Tag, kind: Kind)
    requires Readable(n) && kind in KINDS && Typed(kind, LogOf(logs, OwnKey(kind, n.ns, n.name)))
    ensures var l := StartOf(n, kind, logs, tag);
            var want := Wanted(n, kind, tag);
            DeletesForeign(Finish(Thread(l, script), tag).l.own, |l.own|) <==>
              if want.Some? then ReplacesForeign(l, want.value, script, tag)
              else HitsForeign(AtRead(l, script), false, Head(script))
  {
    var l := StartOf(n, kind, logs, tag);
    if Wanted(n, kind, tag).Some? {
      CalculatedWellmade(n, kind, tag);
      KeepingDeletesForeign(l, Wanted(n, kind, tag).value, script, tag);
    } else {
      ErasingDeletesForeign(l, script, tag);
    }
  }

  /** The whole reconcile, in any interleaving and circumstances, deletes a foreign object under one of its
      four names exactly if the reconciler of that kind does. Where nothing is stale and nobody interferes,
      that leaves the names of unwanted objects. */
  lemma ReconcileDeletesForeign(n: Nb, logs: Logs, scripts: seq<List<Move>>, tag: Tag, i: nat)
    requires Readable(n) && |scripts| == 4 && i < 4
    requires Typed(KINDS[i], LogOf(logs, OwnKey(KINDS[i], n.ns, n.name)))
    ensures var key := OwnKey(KINDS[i], n.ns, n.name);
            var l := StartOf(n, KINDS[i], logs, tag);
            var want := Wanted(n, KINDS[i], tag);
            DeletesForeign(LogOf(Reconciled(n, logs, scripts, tag).logs, key), |LogOf(logs, key)|) <==>
              if want.Some? then ReplacesForeign(l, want.value, scripts[i], tag)
              else HitsForeign(AtRead(l, scripts[i]), false, Head(scripts[i]))
  {
    ReconciledZone(n, logs, scripts, tag, i, KINDS[i]);
    OneDeletesForeign(n, logs, scripts[i], tag, KINDS[i]);
  }

  /** With a lister that is current and nobody in between, a wanted object's name is safe. */
  lemma FreshListerIsSafe(l: Local, want: Object, script: List<Move>, tag: Tag)
    requires Begins(l, want, tag.ca)
    requires Head(script).lag == 0 && Head(Tail(script)).env.Nil?
    ensures !DeletesForeign(Finish(Thread(l, script), tag).l.own, |l.own|)
  {
    KeepingDeletesForeign(l, want, script, tag);
  }

  /** For example: `mine` was a StatefulSet of the operator with another template, and somebody has put a
      foreign one in its place, which a lister that lags by one entry does not show. The operator deletes the
      foreign one, creates its own, and the reconcile closure returns nil. */
  lemma StaleReplacementDeletesForeign(n: Nb, mine: Object, foreign: Object, tag: Tag)
    requires Readable(n) && !n.meta.terminating
    requires mine.body.StatefulSetBody? && IsManaged(mine.meta.labels)
    requires mine.body.spec.template != CalculateTemplate(n)
    requires foreign.body.StatefulSetBody? && !IsManaged(foreign.meta.labels)
    ensures var want := CalculateStatefulSet(n);
            var log := [Entry(Some(mine), Environment), Entry(Some(foreign), Environment)];
            var t := Thread(Local(ReconcilerFor(n, StatefulSetKind, tag), log, []), Cons(QUIET.(lag := 1), Nil));
            var r := RunUntil(t, tag, 3).l;
            && DeletesForeign(Finish(t, tag).l.own, 2)
            && IsBenign(r.g.err) && Stored(want, r.own, tag.ca)
  {
    var want := CalculateStatefulSet(n);
    var log := [Entry(Some(mine), Environment), Entry(Some(foreign), Environment)];
    var l := Local(ReconcilerFor(n, StatefulSetKind, tag), log, []);
    var script := Cons(QUIET.(lag := 1), Nil);
    NotebookLabelsAreManaged(n.name);
    assert AtRead(l, script) == log && AtWrite(l, script) == log;
    assert Answer(l, script) == Found(mine, 1);
    KeepingDeletesForeign(l, want, script, tag);
    var gone := log + [Entry(None, Operator(tag, Deleted))];
    assert Delete(log, true, tag, QUIET) == Reply(gone, None);
    assert Get(gone, QUIET).Absent? && Interfere(StatefulSetKind, gone, Nil) == gone;
    assert LastCallOf(l, want, script, tag) == Creates(gone, want, QUIET, Nil);
    NilMeansWrittenOrInVain(l, want, script, tag);
    ConvergedUnlessInVain(l, want, script, tag);
  }
}
