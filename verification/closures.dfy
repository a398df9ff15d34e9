/** The body of a reconciler goroutine (pkg/controller/handlers.go:23-45) around the closures that
    pkg/controller/reconcilers.go builds: reconcile, drop benign errors, wait. Each is proved to take the
    cluster where the goroutine machine, running alone, takes it. */
module Closures {
  import opened Basics
  import opened NotebookTypes
  import opened Naming
  import opened Kube
  import opened Calculate
  import opened Goroutine
  import opened Interleaving
  import opened Resources
  import opened Builders
  import opened Controller

  function WithAux(t: Thread, aux: Log): Thread {
    Thread(t.l.(aux := aux), t.script)
  }

  /** The reconcile closure does not look at the secret that is waited for later. */
  lemma {:induction false} ReconcileIgnoresAux(t: Thread, aux: Log, tag: Tag)
    requires Sound(t.l.g) && Rank(t.l.g.pc) >= 3
    ensures RunUntil(WithAux(t, aux), tag, 3) == WithAux(RunUntil(t, tag, 3), aux)
    decreases t.script, Rank(t.l.g.pc)
  {
    if Rank(t.l.g.pc) > 3 {
      StepProgress(t.l, Head(t.script), tag);
      StaysOrReturns(t.l, Head(t.script), tag);
      assert Advance(WithAux(t, aux), tag) == WithAux(Advance(t, tag), aux);
      ReconcileIgnoresAux(Advance(t, tag), aux, tag);
    }
  }

  function FirstThread(key: Key, want: Object, waits: Waits, logs: Logs, script: List<Move>): Thread {
    ViewOf(Runner(Reconciler(key, Some(want), waits), script), logs)
  }

  /** `*err = joinErrors([]error{*err}, IsNotFound, IsAlreadyExists)`. */
  method DropBenign(err: Option<Error>, ghost g: Goro) returns (rest: Option<Error>)
    requires g.err == err
    ensures rest == if err.None? then None else JoinErrors([err], BENIGN)
    ensures Settle(g).err == rest
    ensures rest.Some? || g.waits.Nothing? <==> Settle(g).pc == Done
    ensures rest.None? && !g.waits.Nothing? ==> Settle(g) == g.(pc := Waiting, err := None)
  {
    rest := err;
    if err.Some? {
      rest := JoinErrorList([err], [NotFound, AlreadyExists]);
      assert (set x: Reason | x in [NotFound, AlreadyExists]) == BENIGN;
    }
  }

  /** What is left of a goroutine without a wait. */
  method Conclude(s: Server, before: Logs, err: Option<Error>, ghost t0: Thread, ghost t: Thread, tag: Tag)
    returns (slot: Option<Error>, ghost end: Thread)
    requires Sound(t0.l.g) && Sound(t.l.g) && t.l.g.pc == Returned && Finish(t0, tag) == Finish(t, tag)
    requires t.l.g.err == err && t.l.g.waits == Nothing
    requires s.logs == Store(before, t.l) && s.script == t.script
    ensures slot == if err.None? then None else JoinErrors([err], BENIGN)
    ensures end == Finish(t0, tag) && slot == end.l.g.err
    ensures s.logs == Store(before, end.l) && s.script == end.script
  {
    SettleIsNext(t, tag);
    slot := DropBenign(err, t.l.g);
    end := Thread(t.l.(g := Settle(t.l.g)), t.script);
  }

  method RunServiceReconciler(s: Server, key: Key, svc: Request, tag: Tag) returns (slot: Option<Error>, ghost end: Thread)
    requires key.kind == ServiceKind && svc.obj.body.ServiceBody? && svc.rv == 0 && Typed(ServiceKind, LogOf(s.logs, key))
    modifies s, svc
    ensures end == Finish(FirstThread(key, old(svc.obj), Nothing, old(s.logs), old(s.script)), tag)
    ensures slot == end.l.g.err && s.logs == Store(old(s.logs), end.l) && s.script == end.script
  {
    ghost var t0 := FirstThread(key, svc.obj, Nothing, s.logs, s.script);
    ReconcileReturns(t0, tag);
    var before := s.logs;
    var err;
    err, end := CreateOrUpdateService(s, key, svc, tag, Nothing);
    slot, end := Conclude(s, before, err, t0, end, tag);
  }

  method RunSecretReconciler(s: Server, key: Key, secret: Request, tag: Tag) returns (slot: Option<Error>, ghost end: Thread)
    requires key.kind == SecretKind && secret.obj.body.SecretBody? && secret.rv == 0 && Typed(SecretKind, LogOf(s.logs, key))
    modifies s, secret
    ensures end == Finish(FirstThread(key, old(secret.obj), Nothing, old(s.logs), old(s.script)), tag)
    ensures slot == end.l.g.err && s.logs == Store(old(s.logs), end.l) && s.script == end.script
  {
    ghost var t0 := FirstThread(key, secret.obj, Nothing, s.logs, s.script);
    ReconcileReturns(t0, tag);
    var before := s.logs;
    var err;
    err, end := CreateOrUpdateSecret(s, key, secret, tag, Nothing);
    slot, end := Conclude(s, before, err, t0, end, tag);
  }

  /** The wait reads the replicas of the object that the reconcile closure may have overwritten. */
  method RunStatefulSetReconciler(s: Server, key: Key, sts: Request, tag: Tag)
    returns (slot: Option<Error>, ghost end: Thread)
    requires key.kind == StatefulSetKind && sts.obj.body.StatefulSetBody? && sts.rv == 0
    requires Typed(StatefulSetKind, LogOf(s.logs, key))
    modifies s, sts
    ensures end == Finish(FirstThread(key, old(sts.obj), ForReady, old(s.logs), old(s.script)), tag)
    ensures slot == end.l.g.err && s.logs == Store(old(s.logs), end.l) && s.script == end.script
  {
    ghost var t0 := FirstThread(key, sts.obj, ForReady, s.logs, s.script);
    ReconcileReturns(t0, tag);
    var err;
    err, end := CreateOrUpdateStatefulSet(s, key, sts, tag, ForReady);
    SettleIsNext(end, tag);
    slot := DropBenign(err, end.l.g);
    end := Thread(end.l.(g := Settle(end.l.g)), end.script);
    if slot.Some? {
      return;
    }
    KeepsBody(t0, tag);
    ReconcileIgnoresAux(t0, [], tag);
    ReconcilePollsNothing(t0, tag);
    assert end == Beginning(key, Keep(sts.obj, sts.rv), ForReady, Waiting, s.logs, s.script);
    slot, end := WaitForStatefulSet(s, key, sts, tag);
  }

  lemma StepKeepsBody(l: Local, mv: Move, tag: Tag)
    requires Sound(l.g) && l.g.plan.Keep? && l.g.plan.want.body.StatefulSetBody?
    ensures var g := StepOnce(l, mv, tag).g; g.plan.Keep? && g.plan.want.body.StatefulSetBody?
  {}

  /** The shared object of a StatefulSet reconciler stays a StatefulSet. */
  lemma {:induction false} KeepsBody(t: Thread, tag: Tag)
    requires Sound(t.l.g) && t.l.g.plan.Keep? && t.l.g.plan.want.body.StatefulSetBody?
    ensures var r := RunUntil(t, tag, 3); r.l.g.plan.Keep? && r.l.g.plan.want.body.StatefulSetBody?
    decreases t.script, Rank(t.l.g.pc)
  {
    if Rank(t.l.g.pc) > 3 {
      StepProgress(t.l, Head(t.script), tag);
      StepKeepsBody(t.l, Head(t.script), tag);
      KeepsBody(Advance(t, tag), tag);
    }
  }

  /** Only a wait records what it polled. */
  lemma {:induction false} ReconcilePollsNothing(t: Thread, tag: Tag)
    requires Sound(t.l.g) && Rank(t.l.g.pc) >= 3
    ensures RunUntil(t, tag, 3).l.g.polled == t.l.g.polled
    decreases t.script, Rank(t.l.g.pc)
  {
    if Rank(t.l.g.pc) > 3 {
      StepProgress(t.l, Head(t.script), tag);
      StaysOrReturns(t.l, Head(t.script), tag);
      ReconcilePollsNothing(Advance(t, tag), tag);
    }
  }

  /** Under ACME the Ingress goroutine goes on to wait for the issuer's secret. */
  method RunIngressReconciler(s: Server, key: Key, ing: Request, waits: Waits, tag: Tag)
    returns (slot: Option<Error>, ghost end: Thread)
    requires key.kind == IngressKind && ing.obj.body.IngressBody? && ing.rv == 0
    requires waits != ForReady && (waits.ForSecret? ==> waits.key.kind == SecretKind)
    modifies s, ing
    ensures end == Finish(FirstThread(key, old(ing.obj), waits, old(s.logs), old(s.script)), tag)
    ensures slot == end.l.g.err && s.script == end.script
    ensures Same(s.logs, Store(old(s.logs), end.l))
  {
    ghost var t0 := FirstThread(key, ing.obj, waits, s.logs, s.script);
    ghost var before := s.logs;
    ghost var bare := Beginning(key, Keep(ing.obj, 0), waits, Read, s.logs, s.script);
    ReconcileReturns(t0, tag);
    ReconcileIgnoresAux(bare, t0.l.aux, tag);
    assert t0 == WithAux(bare, t0.l.aux);
    var err;
    err, end := CreateOrUpdateIngress(s, key, ing, tag, waits);
    end := WithAux(end, t0.l.aux);
    SettleIsNext(end, tag);
    slot := DropBenign(err, end.l.g);
    end := Thread(end.l.(g := Settle(end.l.g)), end.script);
    if slot.Some? || waits.Nothing? {
      return;
    }
    ReconcilePollsNothing(t0, tag);
    slot, end := WaitForIngressTlsSecret(s, waits.key, end.l.g.plan, key, tag);
  }

  /** An object that should not exist: the closure is one Delete. */
  method RunEraser(s: Server, kind: Kind, n: Nb, tag: Tag) returns (slot: Option<Error>, ghost end: Thread)
    modifies s
    ensures end == Finish(ViewOf(Runner(Reconciler(OwnKey(kind, n.ns, n.name), None, Nothing), old(s.script)), old(s.logs)), tag)
    ensures slot == end.l.g.err && s.logs == Store(old(s.logs), end.l) && s.script == end.script
  {
    ghost var t0 := ViewOf(Runner(Reconciler(OwnKey(kind, n.ns, n.name), None, Nothing), s.script), s.logs);
    ReconcileReturns(t0, tag);
    var before := s.logs;
    var err;
    err, end := DeleteObject(s, kind, n, tag);
    slot, end := Conclude(s, before, err, t0, end, tag);
  }

  // ---------- The four reconcilers of a notebook ----------

  /** serviceReconciler: builds the Service, or deletes it, and runs the goroutine around it. */
  method ReconcileService(s: Server, n: Nb, tag: Tag) returns (slot: Option<Error>, ghost end: Thread)
    requires Readable(n) && Typed(ServiceKind, LogOf(s.logs, OwnKey(ServiceKind, n.ns, n.name)))
    modifies s
    ensures end == Finish(ViewOf(Runner(ReconcilerFor(n, ServiceKind, tag), old(s.script)), old(s.logs)), tag)
    ensures slot == end.l.g.err && Same(s.logs, Store(old(s.logs), end.l))
  {
    if ServiceShouldExist(n) {
      var obj := BuildService(n);
      var svc := new Request(obj);
      slot, end := RunServiceReconciler(s, OwnKey(ServiceKind, n.ns, n.name), svc, tag);
    } else {
      slot, end := RunEraser(s, ServiceKind, n, tag);
    }
  }

  /** secretReconciler. */
  method ReconcileSecret(s: Server, n: Nb, tag: Tag) returns (slot: Option<Error>, ghost end: Thread)
    requires Readable(n) && Typed(SecretKind, LogOf(s.logs, OwnKey(SecretKind, n.ns, n.name)))
    modifies s
    ensures end == Finish(ViewOf(Runner(ReconcilerFor(n, SecretKind, tag), old(s.script)), old(s.logs)), tag)
    ensures slot == end.l.g.err && Same(s.logs, Store(old(s.logs), end.l))
  {
    if SecretShouldExist(n) {
      var obj := BuildSecret(n, tag);
      var secret := new Request(obj);
      slot, end := RunSecretReconciler(s, OwnKey(SecretKind, n.ns, n.name), secret, tag);
    } else {
      slot, end := RunEraser(s, SecretKind, n, tag);
    }
  }

  /** statefulSetReconciler. */
  method ReconcileStatefulSet(s: Server, n: Nb, tag: Tag) returns (slot: Option<Error>, ghost end: Thread)
    requires Readable(n) && Typed(StatefulSetKind, LogOf(s.logs, OwnKey(StatefulSetKind, n.ns, n.name)))
    modifies s
    ensures end == Finish(ViewOf(Runner(ReconcilerFor(n, StatefulSetKind, tag), old(s.script)), old(s.logs)), tag)
    ensures slot == end.l.g.err && Same(s.logs, Store(old(s.logs), end.l))
  {
    if StatefulSetShouldExist(n) {
      var obj := BuildStatefulSet(n);
      var sts := new Request(obj);
      slot, end := RunStatefulSetReconciler(s, OwnKey(StatefulSetKind, n.ns, n.name), sts, tag);
    } else {
      slot, end := RunEraser(s, StatefulSetKind, n, tag);
    }
  }

  /** ingressReconciler, with its wait under ACME. */
  method ReconcileIngress(s: Server, n: Nb, tag: Tag) returns (slot: Option<Error>, ghost end: Thread)
    requires Readable(n)
    modifies s
    ensures end == Finish(ViewOf(Runner(ReconcilerFor(n, IngressKind, tag), old(s.script)), old(s.logs)), tag)
    ensures slot == end.l.g.err && Same(s.logs, Store(old(s.logs), end.l))
  {
    if IngressShouldExist(n) {
      var obj := BuildIngress(n);
      var ing := new Request(obj);
      var waits := Nothing;
      if n.spec.tls.Some? && n.spec.tls.value == Acme {
        waits := ForSecret(Key(SecretKind, n.ns, IngressTlsSecretName(n.name)));
      }
      slot, end := RunIngressReconciler(s, OwnKey(IngressKind, n.ns, n.name), ing, waits, tag);
    } else {
      slot, end := RunEraser(s, IngressKind, n, tag);
    }
  }

  lemma UnderwaySame(rs0: seq<Runner>, logs0: Logs, rs: seq<Runner>, a: Logs, b: Logs, tag: Tag)
    requires Underway(rs0, logs0, rs, a, tag) && Same(a, b)
    ensures Underway(rs0, logs0, rs, b, tag)
  {
    forall i | 0 <= i < |rs|
      ensures ViewOf(rs[i], b) == ViewOf(rs[i], a)
    {
      assert LogOf(a, rs[i].g.key) == LogOf(b, rs[i].g.key);
      assert AuxLog(rs[i].g, a) == AuxLog(rs[i].g, b);
    }
  }

  /** Goroutine `i` has run to its end; the outcomes of the others are what they were. */
  lemma OneDone(rs0: seq<Runner>, logs0: Logs, rs: seq<Runner>, logs: Logs, i: nat, end: Thread, logs': Logs, tag: Tag)
    returns (rs': seq<Runner>)
    requires Underway(rs0, logs0, rs, logs, tag) && i < |rs|
    requires end == Finish(ViewOf(rs[i], logs), tag) && Same(logs', Store(logs, end.l))
    ensures rs' == rs[i := Runner(end.l.g, end.script)] && Underway(rs0, logs0, rs', logs', tag)
    ensures forall k :: k !in Zone(rs[i].g) ==> LogOf(logs', k) == LogOf(logs, k)
  {
    FinishOne(rs, logs, i, tag);
    rs' := rs[i := Runner(end.l.g, end.script)];
    Chain(rs0, logs0, rs, logs, rs', Store(logs, end.l), tag);
    UnderwaySame(rs0, logs0, rs', Store(logs, end.l), logs', tag);
  }

  /** The typed clients: under a name of a kind there are objects of that kind only. */
  ghost predicate TypedNames(n: Nb, logs: Logs) {
    forall i :: 0 <= i < 4 ==> Typed(KINDS[i], LogOf(logs, OwnKey(KINDS[i], n.ns, n.name)))
  }

  /** The `i`-th of the reconcilers. */
  method ReconcileNth(s: Server, n: Nb, i: nat, tag: Tag) returns (slot: Option<Error>, ghost end: Thread)
    requires Readable(n) && i < 4 && Typed(KINDS[i], LogOf(s.logs, OwnKey(KINDS[i], n.ns, n.name)))
    modifies s
    ensures end == Finish(ViewOf(Runner(ReconcilerFor(n, KINDS[i], tag), old(s.script)), old(s.logs)), tag)
    ensures slot == end.l.g.err && Same(s.logs, Store(old(s.logs), end.l))
  {
    match KINDS[i]
    case ServiceKind => slot, end := ReconcileService(s, n, tag);
    case SecretKind => slot, end := ReconcileSecret(s, n, tag);
    case StatefulSetKind => slot, end := ReconcileStatefulSet(s, n, tag);
    case IngressKind => slot, end := ReconcileIngress(s, n, tag);
  }

  /** The first `i` reconcilers have run, the others have not begun. */
  ghost predicate Through(n: Nb, logs0: Logs, scripts: seq<List<Move>>, rs: seq<Runner>, logs: Logs, i: nat, tag: Tag)
    requires Readable(n) && |scripts| == 4
  {
    var rs0 := Runners(n, scripts, tag);
    && Underway(rs0, logs0, rs, logs, tag)
    && (forall j :: 0 <= j < i && j < |rs| ==> rs[j].g.pc == Done)
    && (forall j :: i <= j < |rs| ==> rs[j] == rs0[j] && LogOf(logs, rs0[j].g.key) == LogOf(logs0, rs0[j].g.key))
  }

  lemma OneMoreThrough(n: Nb, logs0: Logs, scripts: seq<List<Move>>, rs: seq<Runner>, logs: Logs, i: nat,
                       end: Thread, logs': Logs, tag: Tag)
    returns (rs': seq<Runner>)
    requires Readable(n) && |scripts| == 4 && |rs| == 4 && i < 4 && Through(n, logs0, scripts, rs, logs, i, tag)
    ensures rs' == rs[i := Runner(end.l.g, end.script)]
    ensures Sound(rs[i].g) && end == Finish(ViewOf(rs[i], logs), tag) && Same(logs', Store(logs, end.l)) ==>
              Through(n, logs0, scripts, rs', logs', i + 1, tag)
  {
    var rs0 := Runners(n, scripts, tag);
    rs' := rs[i := Runner(end.l.g, end.script)];
    if end == Finish(ViewOf(rs[i], logs), tag) && Same(logs', Store(logs, end.l)) {
      rs' := OneDone(rs0, logs0, rs, logs, i, end, logs', tag);
      forall j | i < j < 4
        ensures LogOf(logs', rs0[j].g.key) == LogOf(logs0, rs0[j].g.key)
      {
        assert Zone(rs0[i].g) !! Zone(rs0[j].g) && rs0[j].g.key in Zone(rs0[j].g);
      }
    }
  }

  lemma NthRunner(n: Nb, scripts: seq<List<Move>>, i: nat, tag: Tag)
    requires Readable(n) && |scripts| == 4 && i < 4
    ensures Runners(n, scripts, tag)[i] == Runner(ReconcilerFor(n, KINDS[i], tag), scripts[i])
    ensures Runners(n, scripts, tag)[i].g.key == OwnKey(KINDS[i], n.ns, n.name)
  {}

  lemma NoneThrough(n: Nb, logs: Logs, scripts: seq<List<Move>>, tag: Tag)
    requires Readable(n) && |scripts| == 4
    ensures Through(n, logs, scripts, Runners(n, scripts, tag), logs, 0, tag)
  {
    RunnersApart(n, scripts, tag);
  }

  lemma AllThrough(n: Nb, logs0: Logs, scripts: seq<List<Move>>, rs: seq<Runner>, logs: Logs, tag: Tag)
    requires Readable(n) && |scripts| == 4 && Through(n, logs0, scripts, rs, logs, 4, tag)
    ensures var r := Reconciled(n, logs0, scripts, tag);
            Same(logs, r.logs) && r.err == JoinedError(Errors(rs))
  {
    UnderwayEnds(Runners(n, scripts, tag), logs0, rs, logs, tag);
  }

  /** Runs reconciler `i`, with the script that is meant for it. */
  method ReconcileNext(s: Server, n: Nb, scripts: seq<List<Move>>, i: nat, tag: Tag, ghost logs0: Logs, ghost rs: seq<Runner>)
    returns (slot: Option<Error>, ghost rs': seq<Runner>)
    requires Readable(n) && |scripts| == 4 && i < 4 && |rs| == 4 && TypedNames(n, logs0)
    requires Through(n, logs0, scripts, rs, s.logs, i, tag)
    modifies s
    ensures |rs'| == 4 && rs' == rs[i := rs'[i]] && slot == rs'[i].g.err
    ensures Through(n, logs0, scripts, rs', s.logs, i + 1, tag)
  {
    NthRunner(n, scripts, i, tag);
    ghost var logs := s.logs;
    s.script := scripts[i];
    ghost var end;
    slot, end := ReconcileNth(s, n, i, tag);
    rs' := OneMoreThrough(n, logs0, scripts, rs, logs, i, end, s.logs, tag);
  }

  /** reconcileNotebookResources without goroutines: the objects are built and the reconcilers run one after
      the other. By `ReconcileIsConfluent` it has the effect of any interleaving of them. */
  method ReconcileInListOrder(s: Server, n: Nb, scripts: seq<List<Move>>, tag: Tag) returns (err: Option<Error>)
    requires Readable(n) && |scripts| == 4 && TypedNames(n, s.logs)
    modifies s
    ensures Same(s.logs, Reconciled(n, old(s.logs), scripts, tag).logs)
    ensures err == Reconciled(n, old(s.logs), scripts, tag).err
  {
    var errs: seq<Option<Error>> := [];
    ghost var rs := Runners(n, scripts, tag);
    NoneThrough(n, s.logs, scripts, tag);
    for i := 0 to 4
      invariant |rs| == 4 && Through(n, old(s.logs), scripts, rs, s.logs, i, tag)
      invariant |errs| == i && forall j :: 0 <= j < i ==> errs[j] == rs[j].g.err
    {
      var slot;
      slot, rs := ReconcileNext(s, n, scripts, i, tag, old(s.logs), rs);
      errs := errs + [slot];
    }
    AllThrough(n, old(s.logs), scripts, rs, s.logs, tag);
    assert Errors(rs) == errs;
    err := JoinSlots(errs);
  }
}
