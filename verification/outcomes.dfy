/** How a sync ends (pkg/controller/controller.go:269-337): when it returns nil, which error it returns
    otherwise, and which phase the notebook then has. On an error the key is added again with a delay. */
module Outcomes {
  import opened Basics
  import opened NotebookTypes
  import opened Naming
  import opened Kube
  import opened Calculate
  import opened Goroutine
  import opened Interleaving
  import opened Sync
  import opened Quiescence
  import opened Rounds
  import opened Swallowed
  import opened Deletion
  import opened Desired

  // ---------- One slot ----------

  /** The exact condition, foreseen from the script: the last call of a reconciler went through or was in
      vain, and its wait was answered; the one call of an eraser was acknowledged or found nothing. */
  predicate SlotIsNil(n: Nb, kind: Kind, logs: Logs, script: List<Move>, tag: Tag)
    requires Readable(n)
  {
    var l := StartOf(n, kind, logs, tag);
    match Wanted(n, kind, tag)
    case Some(want) =>
      var c := LastCallOf(l, want, script, tag);
      (Succeeds(c) || InVain(c)) && WaitAfter(l, c, tag)
    case None => Acknowledged(l.g.key, l.own, Head(script))
  }

  lemma SlotEnds(n: Nb, kind: Kind, logs: Logs, script: List<Move>, tag: Tag)
    requires Readable(n) && kind in KINDS && Typed(kind, LogOf(logs, OwnKey(kind, n.ns, n.name)))
    ensures Finish(Thread(StartOf(n, kind, logs, tag), script), tag).l.g.err.None?
       <==> SlotIsNil(n, kind, logs, script, tag)
  {
    var l := StartOf(n, kind, logs, tag);
    match Wanted(n, kind, tag)
    case Some(want) =>
      CalculatedWellmade(n, kind, tag);
      NilSlot(l, want, script, tag);
    case None =>
      assert l == Local(Goro(l.g.key, Discard, Nothing, Erase, None, 0), l.own, []);
      EraseEnds(l.g.key, l.own, script, tag);
  }

  // ---------- Four slots ----------

  /** The typed clients, for the four names of a notebook. */
  ghost predicate OwnTyped(n: Nb, logs: Logs) {
    && Typed(ServiceKind, LogOf(logs, OwnKey(ServiceKind, n.ns, n.name)))
    && Typed(SecretKind, LogOf(logs, OwnKey(SecretKind, n.ns, n.name)))
    && Typed(StatefulSetKind, LogOf(logs, OwnKey(StatefulSetKind, n.ns, n.name)))
    && Typed(IngressKind, LogOf(logs, OwnKey(IngressKind, n.ns, n.name)))
  }

  predicate AllSlotsNil(n: Nb, logs: Logs, scripts: seq<List<Move>>, tag: Tag)
    requires Readable(n) && |scripts| == 4
  {
    && SlotIsNil(n, ServiceKind, logs, scripts[0], tag) && SlotIsNil(n, SecretKind, logs, scripts[1], tag)
    && SlotIsNil(n, StatefulSetKind, logs, scripts[2], tag) && SlotIsNil(n, IngressKind, logs, scripts[3], tag)
  }

  lemma SlotOfReconcile(n: Nb, logs: Logs, scripts: seq<List<Move>>, tag: Tag, i: nat, kind: Kind)
    requires Readable(n) && |scripts| == 4 && i < 4 && kind == KINDS[i]
    requires Typed(kind, LogOf(logs, OwnKey(kind, n.ns, n.name)))
    ensures InOrder(Runners(n, scripts, tag), logs, 0, tag).0[i].g.err.None?
       <==> SlotIsNil(n, kind, logs, scripts[i], tag)
  {
    ReconciledZone(n, logs, scripts, tag, i, kind);
    SlotEnds(n, kind, logs, scripts[i], tag);
  }

  /** A reconcile returns nil exactly if each of its four slots is nil, whatever the script. */
  lemma ReconcileNil(n: Nb, logs: Logs, scripts: seq<List<Move>>, tag: Tag)
    requires Readable(n) && |scripts| == 4 && OwnTyped(n, logs)
    ensures Reconciled(n, logs, scripts, tag).err.None? <==> AllSlotsNil(n, logs, scripts, tag)
  {
    SlotOfReconcile(n, logs, scripts, tag, 0, ServiceKind);
    SlotOfReconcile(n, logs, scripts, tag, 1, SecretKind);
    SlotOfReconcile(n, logs, scripts, tag, 2, StatefulSetKind);
    SlotOfReconcile(n, logs, scripts, tag, 3, IngressKind);
    SlotsDecide(n, logs, scripts, tag);
  }

  lemma SlotIgnoresNotebook(n: Nb, kind: Kind, a: Logs, b: Logs, script: List<Move>, tag: Tag)
    requires Readable(n) && kind != NotebookKind && OnlyNotebookDiffers(a, b, tag)
    ensures SlotIsNil(n, kind, a, script, tag) == SlotIsNil(n, kind, b, script, tag)
  {
    ZoneIgnoresNotebook(n, kind, a, b, tag);
  }

  lemma SlotsIgnoreNotebook(n: Nb, a: Logs, b: Logs, scripts: seq<List<Move>>, tag: Tag)
    requires Readable(n) && |scripts| == 4 && OnlyNotebookDiffers(a, b, tag)
    ensures AllSlotsNil(n, a, scripts, tag) == AllSlotsNil(n, b, scripts, tag)
  {
    SlotIgnoresNotebook(n, ServiceKind, a, b, scripts[0], tag);
    SlotIgnoresNotebook(n, SecretKind, a, b, scripts[1], tag);
    SlotIgnoresNotebook(n, StatefulSetKind, a, b, scripts[2], tag);
    SlotIgnoresNotebook(n, IngressKind, a, b, scripts[3], tag);
  }

  // ---------- The error of a sync ----------

  lemma LiveNil(n: Nb, logs: Logs, luck: Luck, tag: Tag)
    requires Readable(n) && |luck.scripts| == 4 && OwnTyped(n, logs)
    ensures Live(n, logs, luck, tag).err.None? <==> AllSlotsNil(Announced(n), logs, luck.scripts, tag)
  {
    var w := SetPhase(logs, luck.main, n.rv, n.phase, Announced(n).phase, tag);
    assert OnlyNotebookDiffers(logs, w.logs, tag);
    SlotsIgnoreNotebook(Announced(n), logs, w.logs, luck.scripts, tag);
    ReconcileNil(Announced(n), w.logs, luck.scripts, tag);
  }

  /** The Update that is to store the defaults goes through. */
  predicate UpdateArrives(c: Nb, logs: Logs, mv: Move, tag: Tag) {
    var log := Interfere(NotebookKind, NotebookLog(logs, tag), mv.env);
    mv.fault == NoFault && Current(log).Some? && c.rv == |log|
  }

  /** The error says which step failed. */
  predicate IsWrapped(e: Error, what: Step) {
    e.msg.Because? && e.msg.what == what
  }

  /** The error of a sync, for every state and every script. What the lister cannot answer, and what is not
      valid, is reported; a notebook that lacks defaults fails exactly if they cannot be stored; a missing one
      exactly if a deletion is not acknowledged; any other exactly if one of its four reconcilers fails. */
  lemma SyncErrorMeans(found: Listed, logs: Logs, luck: Luck, tag: Tag)
    requires |luck.scripts| == 4 && (found.Known? ==> OwnTyped(found.n, logs))
    ensures var err := SyncOnce(found, logs, luck, tag).err;
            match found
            case Unlisted(e) => err == Some(e)
            case Missing => err.None? <==> AllAcknowledged(logs, luck.scripts, tag)
            case Known(c) =>
              && (Validate(c.spec).Some? ==> err == Validate(c.spec))
              && (Validate(c.spec).None? && !Complete(c.spec) ==>
                    && (err.None? <==> UpdateArrives(c, logs, Head(luck.main), tag))
                    && (err.Some? ==> IsWrapped(err.value, SettingDefaults)))
              && (Validate(c.spec).None? && Complete(c.spec) ==>
                    && (err.None? <==> AllSlotsNil(WorkCopy(found, tag), logs, luck.scripts, tag))
                    && (err.Some? ==> IsWrapped(err.value, Reconciling)))
  {
    match found
    case Unlisted(_) =>
    case Missing => DeletionIsComplete(logs, luck, tag);
    case Known(c) =>
      DefaultedIffComplete(c.spec);
      if Validate(c.spec).None? && Complete(c.spec) {
        LiveNil(Prepared(c), logs, luck, tag);
      }
  }

  /** The secret that the issuer is to store is shown by the lister before the attempts run out. */
  predicate IsShownInTime(n: Nb, logs: Logs, script: List<Move>) {
    Arrives(ForSecret(Key(SecretKind, n.ns, IngressTlsSecretName(n.name))), 0, SecretKind,
            LogOf(logs, Key(SecretKind, n.ns, IngressTlsSecretName(n.name))), script)
  }

  /** The last call for the Ingress is made, and afterwards the secret is shown. */
  predicate IngressEndsShown(n: Nb, logs: Logs, script: List<Move>, tag: Tag)
    requires Readable(n)
  {
    && Wanted(n, IngressKind, tag).Some?
    && var last := LastCallOf(StartOf(n, IngressKind, logs, tag), Wanted(n, IngressKind, tag).value, script, tag);
    !last.GivesUp? && IsShownInTime(n, logs, last.rest)
  }

  lemma AcmeSlotNeedsItsSecret(n: Nb, logs: Logs, script: List<Move>, tag: Tag)
    requires Readable(n) && IsAskedFor(n, IngressKind) && n.spec.tls == Some(Acme)
    requires SlotIsNil(n, IngressKind, logs, script, tag)
    ensures IngressEndsShown(n, logs, script, tag)
  {
    WantedMeans(n, IngressKind);
    WaitsMean(n, tag);
  }

  /** A valid and complete notebook has a host that is not empty. */
  lemma LiveAsksForIngress(c: Nb, tag: Tag)
    requires Validate(c.spec).None? && Complete(c.spec) && !c.meta.terminating
    ensures var n := WorkCopy(Known(c), tag); n.spec == c.spec && IsAskedFor(n, IngressKind)
  {
    DefaultedIffComplete(c.spec);
    ValidateMeans(c.spec);
    SubdomainMeans(c.spec.host.value);
  }

  /** The sync of a notebook with ACME certificates returns nil only if, after the Ingress is written, the
      lister shows the issuer's secret in time. */
  lemma AcmeSyncNeedsItsSecret(c: Nb, logs: Logs, luck: Luck, tag: Tag)
    requires |luck.scripts| == 4 && OwnTyped(c, logs) && Validate(c.spec).None? && Complete(c.spec)
    requires c.spec.tls == Some(Acme) && !c.meta.terminating
    ensures SyncOnce(Known(c), logs, luck, tag).err.None? ==>
              IngressEndsShown(WorkCopy(Known(c), tag), logs, luck.scripts[3], tag)
  {
    SyncErrorMeans(Known(c), logs, luck, tag);
    LiveAsksForIngress(c, tag);
    if SyncOnce(Known(c), logs, luck, tag).err.None? {
      AcmeSlotNeedsItsSecret(WorkCopy(Known(c), tag), logs, luck.scripts[3], tag);
    }
  }

  // ---------- The error of the machine ----------

  /** The last step of a sync of the machine. Its error is that of the call if it was to store defaults, the
      complaint of the validation if that was to be noted, and otherwise nil exactly if the goroutines of the
      sync have all ended, each with a nil error; a phase write that fails does not matter. */
  lemma FinishedMeans(job: Job, logs: Logs, mv: Move, tag: Tag)
    requires Proper(job) && !job.Finished? && JobStep(job, logs, mv, tag).0.Finished?
    ensures var err := JobStep(job, logs, mv, tag).0.err;
            match job
            case Rejecting(_, why) => err == Some(why)
            case Defaulting(n) => err.None? <==> UpdateArrives(n, logs, mv, tag)
            case Announcing(_) => false
            case Working(_, _, gs) =>
              AllGoroutinesDone(gs) && (err.None? <==> forall i :: 0 <= i < |gs| ==> gs[i].err.None?)
            case Concluding(_, slots) => err.None? <==> forall i :: 0 <= i < |slots| ==> slots[i].None?
            case Finished(_) => false
  {
    match job
    case Working(_, _, gs) =>
      JoinErrorsNil(Slots(gs), {});
      assert forall i :: 0 <= i < |gs| ==> Slots(gs)[i] == gs[i].err;
    case Concluding(_, slots) => JoinErrorsNil(slots, {});
    case _ =>
  }

  /** A sync that ends at once: it could not look the notebook up, or had already marked it Failed. */
  lemma FinishedAtOnce(found: Listed, tag: Tag)
    ensures Start(found, tag).Finished? <==>
              found.Unlisted? || (found.Known? && Validate(found.n.spec).Some? && found.n.phase == Failed)
    ensures Start(found, tag).Finished? ==>
              Start(found, tag).err == if found.Unlisted? then Some(found.err) else Validate(found.n.spec)
  {}

  /** A goroutine is done without an error exactly if its closure has returned nil, NotFound or AlreadyExists
      and it waits for nothing, or its wait has just been answered. */
  lemma DoneMeans(l: Local, mv: Move, tag: Tag)
    requires Sound(l.g) && l.g.pc != Done && StepOnce(l, mv, tag).g.pc == Done
    ensures StepOnce(l, mv, tag).g.err.None? <==>
              || (l.g.pc == Returned && l.g.waits.Nothing? && IsBenign(l.g.err))
              || (l.g.pc == Waiting && l.g.waits.ForSecret? && Get(Interfere(SecretKind, l.aux, mv.env), mv).Found?)
              || (l.g.pc == Waiting && !l.g.waits.ForSecret?
                  && IsReady(Get(Interfere(l.g.key.kind, l.own, mv.env), mv), Target(l.g.plan)))
  {
    if l.g.pc == Returned {
      JoinErrorsNil([l.g.err], BENIGN);
    } else if l.g.pc != Waiting {
      ActProgress(l.g, Interfere(l.g.key.kind, l.own, mv.env), mv, tag);
    }
  }

  // ---------- An undisturbed sync of a complete notebook ----------

  /** A foreign object has the name of an object that the notebook wants. */
  predicate ForeignHolds(n: Nb, kind: Kind, logs: Logs) {
    var o := Current(LogOf(logs, OwnKey(kind, n.ns, n.name)));
    && IsAskedFor(n, kind) && o.Some?
    && !(ManagedBy in o.value.meta.labels && o.value.meta.labels[ManagedBy] == "jupyter-operator")
  }

  predicate AnyForeign(n: Nb, logs: Logs) {
    || ForeignHolds(n, ServiceKind, logs) || ForeignHolds(n, SecretKind, logs)
    || ForeignHolds(n, StatefulSetKind, logs) || ForeignHolds(n, IngressKind, logs)
  }

  lemma ForeignMeans(n: Nb, logs: Logs)
    requires RightKinds(n, logs)
    ensures AnyForeign(n, logs) <==> !AllOpen(n, logs)
  {
    WantedMeans(n, ServiceKind);
    WantedMeans(n, SecretKind);
    WantedMeans(n, StatefulSetKind);
    WantedMeans(n, IngressKind);
  }

  /** What an undisturbed sync makes of one name, whatever happens to the others. */
  ghost predicate IsDealtWith(n: Nb, kind: Kind, logs: Logs, after: Logs, tag: Tag) {
    if ForeignHolds(n, kind, logs)
    then LogOf(after, OwnKey(kind, n.ns, n.name)) == LogOf(logs, OwnKey(kind, n.ns, n.name))
    else KindFits(n, kind, after, tag.ca)
  }

  ghost predicate AllDealtWith(n: Nb, logs: Logs, after: Logs, tag: Tag) {
    && IsDealtWith(n, ServiceKind, logs, after, tag) && IsDealtWith(n, SecretKind, logs, after, tag)
    && IsDealtWith(n, StatefulSetKind, logs, after, tag) && IsDealtWith(n, IngressKind, logs, after, tag)
  }

  lemma KindIsDealtWith(n: Nb, kind: Kind, logs: Logs, ip: string, tag: Tag)
    requires Readable(n) && kind in KINDS && RightKind(n, kind, logs)
    ensures IsDealtWith(n, kind, logs, Reconciled(n, logs, FriendlyScripts(n, logs, ip, tag), tag).logs, tag)
  {
    var after := Reconciled(n, logs, FriendlyScripts(n, logs, ip, tag), tag).logs;
    WantedMeans(n, kind);
    ForeignObjects(n, logs, ip, tag, kind);
    KindSettledMeans(n, kind, after, tag);
    assert Wanted(n, kind, tag).Some? == ShouldExist(n, kind);
  }

  lemma ReconcileDealsWithAll(n: Nb, logs: Logs, ip: string, tag: Tag)
    requires Readable(n) && RightKinds(n, logs)
    ensures var r := Reconciled(n, logs, FriendlyScripts(n, logs, ip, tag), tag);
            AllDealtWith(n, logs, r.logs, tag) && (r.err.Some? <==> AnyForeign(n, logs))
  {
    KindIsDealtWith(n, ServiceKind, logs, ip, tag);
    KindIsDealtWith(n, SecretKind, logs, ip, tag);
    KindIsDealtWith(n, StatefulSetKind, logs, ip, tag);
    KindIsDealtWith(n, IngressKind, logs, ip, tag);
    NilUnlessForeign(n, logs, ip, tag);
    ForeignMeans(n, logs);
  }

  lemma DealingIgnoresNotebook(n: Nb, m: Nb, kind: Kind, a: Logs, b: Logs, c: Logs, d: Logs, tag: Tag)
    requires SameAsk(n, m) && kind in KINDS && OnlyNotebookDiffers(a, b, tag) && OnlyNotebookDiffers(c, d, tag)
    ensures IsDealtWith(n, kind, a, c, tag) == IsDealtWith(m, kind, b, d, tag)
    ensures ForeignHolds(n, kind, a) == ForeignHolds(m, kind, b)
    ensures RightKind(n, kind, a) == RightKind(m, kind, b)
  {
    var key := OwnKey(kind, n.ns, n.name);
    assert LogOf(a, key) == LogOf(b, key) && LogOf(c, key) == LogOf(d, key);
  }

  lemma AllDealingIgnoresNotebook(n: Nb, m: Nb, a: Logs, b: Logs, c: Logs, d: Logs, tag: Tag)
    requires SameAsk(n, m) && OnlyNotebookDiffers(a, b, tag) && OnlyNotebookDiffers(c, d, tag)
    ensures AllDealtWith(n, a, c, tag) == AllDealtWith(m, b, d, tag)
    ensures AnyForeign(n, a) == AnyForeign(m, b) && RightKinds(n, a) == RightKinds(m, b)
  {
    DealingIgnoresNotebook(n, m, ServiceKind, a, b, c, d, tag);
    DealingIgnoresNotebook(n, m, SecretKind, a, b, c, d, tag);
    DealingIgnoresNotebook(n, m, StatefulSetKind, a, b, c, d, tag);
    DealingIgnoresNotebook(n, m, IngressKind, a, b, c, d, tag);
  }

  /** The same for the sync of a copy that is up to date. */
  lemma LiveDealsWithAll(n0: Nb, logs: Logs, ip: string, tag: Tag)
    requires Exists(logs, tag) && n0.rv == |NotebookLog(logs, tag)| && n0.phase == StoredNotebook(logs, tag).body.phase
    requires Readable(n0) && n0.ns == tag.ns && n0.name == tag.name && RightKinds(n0, logs)
    ensures var r := Live(n0, logs, Luck(Nil, FriendlyScripts(Announced(n0), logs, ip, tag)), tag);
            var o := StoredNotebook(logs, tag);
            && (r.err.Some? <==> AnyForeign(n0, logs)) && AllDealtWith(n0, logs, r.logs, tag)
            && Exists(r.logs, tag)
            && StoredNotebook(r.logs, tag) == o.(body := o.body.(phase := PhaseAfter(o.body.phase, r.err)))
  {
    var n := Announced(n0);
    var w := SetPhase(logs, Nil, n0.rv, n0.phase, n.phase, tag);
    ScriptsIgnoreNotebook(n, logs, w.logs, ip, tag);
    var scripts := FriendlyScripts(n, w.logs, ip, tag);
    var r := Reconciled(n, w.logs, scripts, tag);
    NotebookOutside(n, tag);
    ReconciledElsewhere(n, w.logs, scripts, tag, NotebookKey(tag.ns, tag.name));
    LivePhases(n0, logs, r, tag);
    AllDealingIgnoresNotebook(n0, n, logs, w.logs, Ending(n, r, Nil, tag).logs, r.logs, tag);
    ReconcileDealsWithAll(n, w.logs, ip, tag);
  }

  /** An undisturbed sync of a valid and complete notebook returns an error exactly if a foreign object has the
      name of one that it wants. The notebook is then Failed, and otherwise Running, except that one without
      a phase is Pending in both cases: its announcement is the one effective write. Each foreign object
      under a wanted name stays as it is, and everything else is as the spec asks. */
  lemma LiveRoundMeans(logs: Logs, decoded: bool, ip: string, tag: Tag)
    requires SpecIs(logs, tag, true) && RightKinds(Prepared(Fresh(logs, decoded, tag)), logs)
    ensures var n := Prepared(Fresh(logs, decoded, tag));
            var r := Round(logs, decoded, ip, tag);
            var o := StoredNotebook(logs, tag);
            && (r.err.Some? <==> AnyForeign(n, logs))
            && Exists(r.logs, tag)
            && StoredNotebook(r.logs, tag) == o.(body := o.body.(phase :=
                 if o.body.phase.OtherPhase? then Pending else if AnyForeign(n, logs) then Failed else Running))
            && AllDealtWith(n, logs, r.logs, tag)
  {
    RoundIsLive(logs, decoded, ip, tag);
    LiveDealsWithAll(Prepared(Fresh(logs, decoded, tag)), logs, ip, tag);
  }

  // ---------- Invalid specs ----------

  /** A sync of a notebook whose host, backend or packages are not as they should be reports the first of
      these complaints and touches no resource, whatever the script. */
  lemma RejectedUntouched(c: Nb, logs: Logs, luck: Luck, tag: Tag)
    requires |luck.scripts| == 4 && !(HostIsGood(c.spec) && BackendIsGood(c.spec) && PackagesAreGood(c.spec))
    ensures var r := SyncOnce(Known(c), logs, luck, tag);
            && OnlyNotebookDiffers(logs, r.logs, tag)
            && r.err.Some?
            && r.err.value.msg == if !HostIsGood(c.spec) then InvalidHost
                                  else if !BackendIsGood(c.spec) then InvalidIngress else InvalidPackage
  {
    ValidateMeans(c.spec);
  }

  /** A backend with both parts, or with neither, is worked on; one with half of them is rejected. */
  lemma BackendDecides(c: Nb, logs: Logs, luck: Luck, tag: Tag)
    requires |luck.scripts| == 4 && c.spec.ingress.Some?
    requires HostIsGood(c.spec) && PackagesAreGood(c.spec) && Complete(c.spec)
    ensures var b := c.spec.ingress.value;
            var r := SyncOnce(Known(c), logs, luck, tag);
            if (b.service == "") == (b.port == StrPort(""))
            then r == Live(Prepared(c), logs, luck, tag) && (Start(Known(c), tag).Announcing? || Start(Known(c), tag).Working?)
            else r.err == Some(Error(Other, InvalidIngress)) && OnlyNotebookDiffers(logs, r.logs, tag)
                 && (Start(Known(c), tag).Rejecting? || Start(Known(c), tag).Finished?)
  {
    ValidateMeans(c.spec);
    DefaultedIffComplete(c.spec);
  }

  /** A notebook that is not as it should be is Failed after any number of undisturbed syncs, its resources
      untouched; and by `RejectedUntouched` each of them returns the complaint. */
  lemma {:induction false} InvalidEndsFailed(logs: Logs, decoded: bool, ip: string, tag: Tag, tags: seq<Tag>)
    requires Exists(logs, tag) && tags != [] && forall i :: 0 <= i < |tags| ==> SameSubject(tag, tags[i])
    requires var s := StoredNotebook(logs, tag).body.nbspec; !(HostIsGood(s) && BackendIsGood(s) && PackagesAreGood(s))
    ensures var after := AfterRounds(logs, decoded, ip, tags);
            var o := StoredNotebook(logs, tag);
            && OnlyNotebookDiffers(logs, after, tag) && Exists(after, tag)
            && StoredNotebook(after, tag) == o.(body := o.body.(phase := Failed))
    decreases |tags|
  {
    ValidateMeans(StoredNotebook(logs, tag).body.nbspec);
    var before, last := tags[..|tags| - 1], tags[|tags| - 1];
    var mid := AfterRounds(logs, decoded, ip, before);
    if before != [] {
      InvalidEndsFailed(logs, decoded, ip, tag, before);
    }
    FailingRound(mid, decoded, ip, last);
  }

  lemma GoodSpecs(s: NotebookSpec)
    requires HostIsGood(s) && BackendIsGood(s) && PackagesAreGood(s) && Complete(s)
    ensures Valid(s) && s.host.value != "" && Defaulted(s) == s
  {
    ValidateMeans(s);
    SubdomainMeans(s.host.value);
    DefaultedIffComplete(s);
  }

  /** The stored Ingress, where the four reconcilers are settled. */
  lemma SettledIngress(n: Nb, logs: Logs, tag: Tag)
    requires Readable(n) && !n.meta.terminating && n.spec.host.Some? && n.spec.host.value != "" && AllSettled(n, logs, tag)
    ensures var ing := Current(LogOf(logs, OwnKey(IngressKind, n.ns, n.name)));
            ing.Some? && IngressFits(ing.value, n)
  {
    SettledMeans(n, logs, tag);
    WantedMeans(n, IngressKind);
  }

  /** A backend with both parts reaches the Ingress: an undisturbed sync of a notebook that is as it should be
      makes one with just this backend. */
  lemma BackendIsRouted(logs: Logs, decoded: bool, ip: string, tag: Tag)
    requires Exists(logs, tag) && !StoredNotebook(logs, tag).meta.terminating && IsOpen(logs, decoded, tag)
    requires var s := StoredNotebook(logs, tag).body.nbspec;
             HostIsGood(s) && PackagesAreGood(s) && Complete(s)
             && s.ingress.Some? && s.ingress.value.service != "" && s.ingress.value.port != StrPort("")
    ensures var r := Round(logs, decoded, ip, tag);
            var ing := Current(LogOf(r.logs, OwnKey(IngressKind, tag.ns, tag.name)));
            && r.err.None? && ing.Some? && ing.value.body.IngressBody?
            && Some(ing.value.body.backend) == StoredNotebook(logs, tag).body.nbspec.ingress
  {
    GoodSpecs(StoredNotebook(logs, tag).body.nbspec);
    LiveRound(logs, decoded, ip, tag);
    var after := Round(logs, decoded, ip, tag).logs;
    SettledIngress(Prepared(Fresh(after, decoded, tag)), after, tag);
  }
}
