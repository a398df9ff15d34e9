/** The self-triggered loop comes to rest: repeated syncs of one notebook without interference or faults,
    each with a fresh cache (pkg/controller/controller.go:269-337). By `ReconcileIsConfluent` the order of
    the goroutines in each sync does not matter. */
module Quiescence {
  import opened Basics
  import opened Naming
  import opened Kube
  import opened Calculate
  import opened Goroutine
  import opened Interleaving
  import opened Settling

  // ---------- One friendly reconcile ----------

  function StartOf(n: Nb, kind: Kind, logs: Logs, tag: Tag): Local
    requires Readable(n)
  {
    var g := ReconcilerFor(n, kind, tag);
    Local(g, LogOf(logs, g.key), AuxLog(g, logs))
  }

  function FriendlyScripts(n: Nb, logs: Logs, ip: string, tag: Tag): (scripts: seq<List<Move>>)
    requires Readable(n)
    ensures |scripts| == 4
  {
    seq(4, i requires 0 <= i < 4 => FriendlyScript(StartOf(n, KINDS[i], logs, tag), ip, tag))
  }

  lemma CalculatedWellmade(n: Nb, kind: Kind, tag: Tag)
    requires Readable(n) && Wanted(n, kind, tag).Some?
    ensures Wellmade(Wanted(n, kind, tag).value, tag.ca) && KindOf(Wanted(n, kind, tag).value.body) == kind
  {
    NotebookLabelsAreManaged(n.name);
  }

  /** Nothing stands in the way of what the notebook wants; what is under a name that it does not want does
      not matter. */
  predicate OpenName(n: Nb, kind: Kind, logs: Logs) {
    ShouldExist(n, kind) ==> Open(kind, LogOf(logs, OwnKey(kind, n.ns, n.name)))
  }

  /** Where one reconciler ends up, and that it does nothing if it starts there. */
  lemma ZoneEnds(n: Nb, kind: Kind, logs: Logs, ip: string, tag: Tag)
    requires Readable(n) && kind in KINDS && OpenName(n, kind, logs)
    ensures var l := StartOf(n, kind, logs, tag);
            var e := FriendlyEnd(l, ip, tag);
            && e.g.err.None? && Settled(Wanted(n, kind, tag), e.own, tag.ca)
            && (Settled(Wanted(n, kind, tag), l.own, tag.ca) ==> e.own == l.own)
            && (l.g.waits.ForSecret? ==> Current(e.aux).Some?)
            && (!l.g.waits.ForSecret? || Current(l.aux).Some? ==> e.aux == l.aux)
  {
    var l := StartOf(n, kind, logs, tag);
    var want := Wanted(n, kind, tag);
    if want.Some? {
      CalculatedWellmade(n, kind, tag);
      KeepEnds(l, want.value, ip, tag);
    } else {
      DiscardEnds(l, ip, tag);
    }
  }

  /** What the whole reconcile does to one zone: what its goroutine does alone. */
  lemma ReconciledZone(n: Nb, logs: Logs, scripts: seq<List<Move>>, tag: Tag, i: nat, kind: Kind)
    requires Readable(n) && |scripts| == 4 && i < 4 && kind == KINDS[i]
    ensures var r := Reconciled(n, logs, scripts, tag);
            var l := StartOf(n, kind, logs, tag);
            var e := Finish(Thread(l, scripts[i]), tag).l;
            && LogOf(r.logs, l.g.key) == e.own
            && (l.g.waits.ForSecret? ==> LogOf(r.logs, l.g.waits.key) == e.aux)
            && InOrder(Runners(n, scripts, tag), logs, 0, tag).0[i].g.err == e.g.err
  {
    var rs := Runners(n, scripts, tag);
    RunnersApart(n, scripts, tag);
    InOrderKeepsOutcomes(rs, logs, 0, tag);
    InOrderFinishes(rs, logs, 0, tag);
    var (rs', logs') := InOrder(rs, logs, 0, tag);
    assert rs'[i].g.pc == Done;
    assert Finish(ViewOf(rs'[i], logs'), tag) == ViewOf(rs'[i], logs');
    assert rs[i].g == ReconcilerFor(n, kind, tag) && rs[i].script == scripts[i];
    assert ViewOf(rs[i], logs) == Thread(StartOf(n, kind, logs, tag), scripts[i]);
  }

  /** The key lies in no zone of the notebook's reconcilers. */
  ghost predicate Outside(n: Nb, tag: Tag, k: Key)
    requires Readable(n)
  {
    && k !in Zone(ReconcilerFor(n, ServiceKind, tag)) && k !in Zone(ReconcilerFor(n, SecretKind, tag))
    && k !in Zone(ReconcilerFor(n, StatefulSetKind, tag)) && k !in Zone(ReconcilerFor(n, IngressKind, tag))
  }

  /** No other key is touched. */
  lemma ReconciledElsewhere(n: Nb, logs: Logs, scripts: seq<List<Move>>, tag: Tag, k: Key)
    requires Readable(n) && |scripts| == 4 && Outside(n, tag, k)
    ensures LogOf(Reconciled(n, logs, scripts, tag).logs, k) == LogOf(logs, k)
  {
    var rs := Runners(n, scripts, tag);
    RunnersApart(n, scripts, tag);
    InOrderKeepsOutcomes(rs, logs, 0, tag);
    assert forall i :: 0 <= i < |rs| ==> k !in Zone(rs[i].g);
  }

  /** The object is as wanted, and the ACME secret is there if it is waited for. */
  predicate ZoneSettled(n: Nb, kind: Kind, logs: Logs, tag: Tag)
    requires Readable(n)
  {
    var g := ReconcilerFor(n, kind, tag);
    && Settled(Wanted(n, kind, tag), LogOf(logs, g.key), tag.ca)
    && (g.waits.ForSecret? ==> Current(LogOf(logs, g.waits.key)).Some?)
  }

  predicate AllSettled(n: Nb, logs: Logs, tag: Tag)
    requires Readable(n)
  {
    && ZoneSettled(n, ServiceKind, logs, tag) && ZoneSettled(n, SecretKind, logs, tag)
    && ZoneSettled(n, StatefulSetKind, logs, tag) && ZoneSettled(n, IngressKind, logs, tag)
  }

  /** Each object that the notebook wants has its name free, or taken by a managed object. */
  predicate AllOpen(n: Nb, logs: Logs) {
    && OpenName(n, ServiceKind, logs) && OpenName(n, SecretKind, logs)
    && OpenName(n, StatefulSetKind, logs) && OpenName(n, IngressKind, logs)
  }

  lemma FriendlyZoneEnd(n: Nb, logs: Logs, scripts: seq<List<Move>>, ip: string, tag: Tag, i: nat, kind: Kind)
    requires Readable(n) && i < 4 && kind == KINDS[i]
    requires |scripts| == 4 && scripts[i] == FriendlyScript(StartOf(n, kind, logs, tag), ip, tag)
    ensures var r := Reconciled(n, logs, scripts, tag);
            var l := StartOf(n, kind, logs, tag);
            var e := FriendlyEnd(l, ip, tag);
            && LogOf(r.logs, l.g.key) == e.own
            && (l.g.waits.ForSecret? ==> LogOf(r.logs, l.g.waits.key) == e.aux)
            && InOrder(Runners(n, scripts, tag), logs, 0, tag).0[i].g.err == e.g.err
  {
    ReconciledZone(n, logs, scripts, tag, i, kind);
    FriendlyRun(StartOf(n, kind, logs, tag), ip, tag);
  }

  lemma FriendlyZone(n: Nb, logs: Logs, scripts: seq<List<Move>>, ip: string, tag: Tag, i: nat, kind: Kind)
    requires Readable(n) && i < 4 && kind == KINDS[i] && OpenName(n, kind, logs)
    requires |scripts| == 4 && scripts[i] == FriendlyScript(StartOf(n, kind, logs, tag), ip, tag)
    ensures var r := Reconciled(n, logs, scripts, tag);
            && ZoneSettled(n, kind, r.logs, tag)
            && InOrder(Runners(n, scripts, tag), logs, 0, tag).0[i].g.err.None?
  {
    FriendlyZoneEnd(n, logs, scripts, ip, tag, i, kind);
    ZoneEnds(n, kind, logs, ip, tag);
  }

  /** A settled zone stays as it is. */
  lemma ZoneUnchanged(n: Nb, logs: Logs, scripts: seq<List<Move>>, ip: string, tag: Tag, i: nat, kind: Kind, k: Key)
    requires Readable(n) && i < 4 && kind == KINDS[i] && OpenName(n, kind, logs) && ZoneSettled(n, kind, logs, tag)
    requires |scripts| == 4 && scripts[i] == FriendlyScript(StartOf(n, kind, logs, tag), ip, tag)
    requires k in Zone(ReconcilerFor(n, kind, tag))
    ensures LogOf(Reconciled(n, logs, scripts, tag).logs, k) == LogOf(logs, k)
  {
    FriendlyZoneEnd(n, logs, scripts, ip, tag, i, kind);
    ZoneEnds(n, kind, logs, ip, tag);
  }

  lemma FriendlyUnchanged(n: Nb, logs: Logs, ip: string, tag: Tag, k: Key)
    requires Readable(n) && AllOpen(n, logs) && AllSettled(n, logs, tag)
    ensures LogOf(Reconciled(n, logs, FriendlyScripts(n, logs, ip, tag), tag).logs, k) == LogOf(logs, k)
  {
    var scripts := FriendlyScripts(n, logs, ip, tag);
    if k in Zone(ReconcilerFor(n, ServiceKind, tag)) {
      ZoneUnchanged(n, logs, scripts, ip, tag, 0, ServiceKind, k);
    } else if k in Zone(ReconcilerFor(n, SecretKind, tag)) {
      ZoneUnchanged(n, logs, scripts, ip, tag, 1, SecretKind, k);
    } else if k in Zone(ReconcilerFor(n, StatefulSetKind, tag)) {
      ZoneUnchanged(n, logs, scripts, ip, tag, 2, StatefulSetKind, k);
    } else if k in Zone(ReconcilerFor(n, IngressKind, tag)) {
      ZoneUnchanged(n, logs, scripts, ip, tag, 3, IngressKind, k);
    } else {
      ReconciledElsewhere(n, logs, scripts, tag, k);
    }
  }

  lemma FourNil(rs: seq<Runner>)
    requires |rs| == 4
    ensures JoinedError(Errors(rs)).None? <==>
              rs[0].g.err.None? && rs[1].g.err.None? && rs[2].g.err.None? && rs[3].g.err.None?
  {
    var errs := Errors(rs);
    JoinErrorsNil(errs, {});
    assert errs[0] == rs[0].g.err && errs[1] == rs[1].g.err && errs[2] == rs[2].g.err && errs[3] == rs[3].g.err;
  }

  /** A reconcile returns nil exactly if its four slots are nil. */
  lemma SlotsDecide(n: Nb, logs: Logs, scripts: seq<List<Move>>, tag: Tag)
    requires Readable(n) && |scripts| == 4
    ensures var rs := InOrder(Runners(n, scripts, tag), logs, 0, tag).0;
            Reconciled(n, logs, scripts, tag).err.None? <==>
              rs[0].g.err.None? && rs[1].g.err.None? && rs[2].g.err.None? && rs[3].g.err.None?
  {
    FourNil(InOrder(Runners(n, scripts, tag), logs, 0, tag).0);
  }

  lemma FriendlyZones(n: Nb, logs: Logs, scripts: seq<List<Move>>, ip: string, tag: Tag)
    requires Readable(n) && AllOpen(n, logs) && scripts == FriendlyScripts(n, logs, ip, tag)
    ensures AllSettled(n, Reconciled(n, logs, scripts, tag).logs, tag)
    ensures Reconciled(n, logs, scripts, tag).err.None?
  {
    FriendlyZone(n, logs, scripts, ip, tag, 0, ServiceKind);
    FriendlyZone(n, logs, scripts, ip, tag, 1, SecretKind);
    FriendlyZone(n, logs, scripts, ip, tag, 2, StatefulSetKind);
    FriendlyZone(n, logs, scripts, ip, tag, 3, IngressKind);
    SlotsDecide(n, logs, scripts, tag);
  }

  /** A friendly reconcile succeeds and settles everything; if all was settled, it changes nothing. */
  lemma FriendlyReconcile(n: Nb, logs: Logs, ip: string, tag: Tag)
    requires Readable(n) && AllOpen(n, logs)
    ensures var r := Reconciled(n, logs, FriendlyScripts(n, logs, ip, tag), tag);
            && r.err.None? && AllSettled(n, r.logs, tag)
            && (AllSettled(n, logs, tag) ==> Same(r.logs, logs))
  {
    FriendlyZones(n, logs, FriendlyScripts(n, logs, ip, tag), ip, tag);
    if AllSettled(n, logs, tag) {
      forall k
        ensures LogOf(Reconciled(n, logs, FriendlyScripts(n, logs, ip, tag), tag).logs, k) == LogOf(logs, k)
      {
        FriendlyUnchanged(n, logs, ip, tag, k);
      }
    }
  }

  // ---------- Foreign objects ----------

  /** The typed clients: what is stored under a name of a kind is of that kind. */
  predicate RightKind(n: Nb, kind: Kind, logs: Logs) {
    var o := Current(LogOf(logs, OwnKey(kind, n.ns, n.name)));
    o.Some? ==> KindOf(o.value.body) == kind
  }

  predicate RightKinds(n: Nb, logs: Logs) {
    && RightKind(n, ServiceKind, logs) && RightKind(n, SecretKind, logs)
    && RightKind(n, StatefulSetKind, logs) && RightKind(n, IngressKind, logs)
  }

  lemma KindByItself(n: Nb, logs: Logs, scripts: seq<List<Move>>, ip: string, tag: Tag, i: nat, kind: Kind)
    requires Readable(n) && i < 4 && kind == KINDS[i] && RightKind(n, kind, logs)
    requires |scripts| == 4 && scripts[i] == FriendlyScript(StartOf(n, kind, logs, tag), ip, tag)
    ensures var key := OwnKey(kind, n.ns, n.name);
            var after := LogOf(Reconciled(n, logs, scripts, tag).logs, key);
            var slot := InOrder(Runners(n, scripts, tag), logs, 0, tag).0[i].g.err;
            && (slot.None? <==> OpenName(n, kind, logs))
            && (OpenName(n, kind, logs) ==> Settled(Wanted(n, kind, tag), after, tag.ca))
            && (!OpenName(n, kind, logs) ==> after == LogOf(logs, key))
  {
    FriendlyZoneEnd(n, logs, scripts, ip, tag, i, kind);
    if OpenName(n, kind, logs) {
      ZoneEnds(n, kind, logs, ip, tag);
    } else {
      CalculatedWellmade(n, kind, tag);
      ForeignEnds(StartOf(n, kind, logs, tag), Wanted(n, kind, tag).value, ip, tag);
    }
  }

  /** What a friendly reconcile does about each kind does not depend on the others. A wanted object is settled
      if its name is free or managed; if a foreign object has the name, that object stays untouched. An
      unwanted object is deleted by name, whoever manages it. */
  lemma ForeignObjects(n: Nb, logs: Logs, ip: string, tag: Tag, kind: Kind)
    requires Readable(n) && kind in KINDS && RightKind(n, kind, logs)
    ensures var key := OwnKey(kind, n.ns, n.name);
            var after := LogOf(Reconciled(n, logs, FriendlyScripts(n, logs, ip, tag), tag).logs, key);
            && (ShouldExist(n, kind) && Open(kind, LogOf(logs, key)) ==>
                  Wanted(n, kind, tag).Some? && Settled(Wanted(n, kind, tag), after, tag.ca))
            && (ShouldExist(n, kind) && !Open(kind, LogOf(logs, key)) ==> after == LogOf(logs, key))
            && (!ShouldExist(n, kind) ==> Current(after).None?)
  {
    var i: nat :| i < 4 && KINDS[i] == kind;
    KindByItself(n, logs, FriendlyScripts(n, logs, ip, tag), ip, tag, i, kind);
  }

  /** A friendly reconcile returns nil exactly if no foreign object has the name of an object that the
      notebook wants. */
  lemma NilUnlessForeign(n: Nb, logs: Logs, ip: string, tag: Tag)
    requires Readable(n) && RightKinds(n, logs)
    ensures Reconciled(n, logs, FriendlyScripts(n, logs, ip, tag), tag).err.None? <==> AllOpen(n, logs)
  {
    var scripts := FriendlyScripts(n, logs, ip, tag);
    KindByItself(n, logs, scripts, ip, tag, 0, ServiceKind);
    KindByItself(n, logs, scripts, ip, tag, 1, SecretKind);
    KindByItself(n, logs, scripts, ip, tag, 2, StatefulSetKind);
    KindByItself(n, logs, scripts, ip, tag, 3, IngressKind);
    SlotsDecide(n, logs, scripts, tag);
  }
}
