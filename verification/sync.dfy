/** One sync of a notebook (pkg/controller/controller.go:269-337): as a machine whose steps other syncs
    and the environment may come between, and as a whole. */
module Sync {
  import opened Basics
  import opened NotebookTypes
  import opened Kube
  import opened Calculate
  import opened Goroutine
  import opened Interleaving

  /** What the notebook lister answers. */
  datatype Listed = Known(n: Nb) | Missing | Unlisted(err: Error)

  datatype Job =
    | Rejecting(n: Nb, why: Error)
    | Defaulting(n: Nb)
    | Announcing(n: Nb)
    | Working(n: Nb, gone: bool, gs: seq<Goro>)
    | Concluding(n: Nb, slots: seq<Option<Error>>)
    | Finished(err: Option<Error>)

  function NotebookKey(ns: string, name: string): Key {
    Key(NotebookKind, ns, name)
  }

  function Start(found: Listed, tag: Tag): Job {
    match found
    case Unlisted(e) => Finished(Some(e))
    case Missing =>
      var n := Tombstone(tag.ns, tag.name);
      Working(n, true, Reconcilers(n, tag))
    case Known(c) =>
      var bad := Validate(c.spec);
      if bad.Some? then
        if c.phase == Failed then Finished(bad) else Rejecting(c, bad.value)
      else
        var n := Prepared(c);
        if n.spec != c.spec then Defaulting(n)
        else if n.phase != Running && n.phase != Failed && n.phase != Pending then Announcing(n)
        else Working(n, false, Reconcilers(n, tag))
  }

  predicate Proper(job: Job) {
    (job.Announcing? ==> Readable(job.n)) && (job.Working? ==> forall i :: 0 <= i < |job.gs| ==> Sound(job.gs[i]))
  }

  lemma StartIsProper(found: Listed, tag: Tag)
    ensures Proper(Start(found, tag))
  {}

  // ---------- Calls on the notebook itself ----------

  function NotebookObject(n: Nb): Object {
    Object(n.meta, NotebookBody(n.uid, n.spec, n.phase))
  }

  function StatusCall(log: Log, rv: nat, phase: Phase, mv: Move, tag: Tag): Reply {
    UpdateStatus(Interfere(NotebookKind, log, mv.env), phase, rv, tag, mv)
  }

  function SpecCall(log: Log, n: Nb, mv: Move, tag: Tag): Reply {
    Update(Interfere(NotebookKind, log, mv.env), NotebookObject(n), n.rv, tag, mv)
  }

  function DefaultsError(err: Option<Error>): Option<Error> {
    if err.Some? then Some(Error(Other, Because(SettingDefaults, err.value.msg))) else None
  }

  function FinalPhase(err: Option<Error>): Phase {
    if err.Some? then Failed else Running
  }

  // ---------- Step by step ----------

  predicate AllGoroutinesDone(gs: seq<Goro>) {
    forall i :: 0 <= i < |gs| ==> gs[i].pc == Done
  }

  function Slots(gs: seq<Goro>): seq<Option<Error>> {
    seq(|gs|, i requires 0 <= i < |gs| => gs[i].err)
  }

  /** After `wg.Wait`: the errors of the four slots decide the final phase. */
  function Conclude(n: Nb, gone: bool, slots: seq<Option<Error>>): Job {
    var err := JoinedError(slots);
    if gone || n.phase == FinalPhase(err) then Finished(err) else Concluding(n, slots)
  }

  /** One action of the sync; `mv.who` picks the goroutine while they run. */
  function JobStep(job: Job, logs: Logs, mv: Move, tag: Tag): (Job, Logs)
    requires Proper(job)
  {
    var key := NotebookKey(tag.ns, tag.name);
    match job
    case Rejecting(n, why) =>
      (Finished(Some(why)), logs[key := StatusCall(LogOf(logs, key), n.rv, Failed, mv, tag).log])
    case Defaulting(n) =>
      var r := SpecCall(LogOf(logs, key), n, mv, tag);
      (Finished(DefaultsError(r.err)), logs[key := r.log])
    case Announcing(n) =>
      var n' := n.(phase := Pending);
      (Working(n', false, Reconcilers(n', tag)), logs[key := StatusCall(LogOf(logs, key), n.rv, Pending, mv, tag).log])
    case Working(n, gone, gs) =>
      if AllGoroutinesDone(gs) then (Conclude(n, gone, Slots(gs)), logs)
      else if mv.who < |gs| && gs[mv.who].pc != Done then
        var l := StepOnce(ViewOf(Runner(gs[mv.who], Nil), logs).l, mv, tag);
        (Working(n, gone, gs[mv.who := l.g]), Store(logs, l))
      else (job, logs)
    case Concluding(n, slots) =>
      var err := JoinedError(slots);
      (Finished(err), logs[key := StatusCall(LogOf(logs, key), n.rv, FinalPhase(err), mv, tag).log])
    case Finished(_) => (job, logs)
  }

  lemma JobStepIsProper(job: Job, logs: Logs, mv: Move, tag: Tag)
    requires Proper(job)
    ensures Proper(JobStep(job, logs, mv, tag).0)
  {
    if job.Working? && mv.who < |job.gs| && job.gs[mv.who].pc != Done {
      StepProgress(ViewOf(Runner(job.gs[mv.who], Nil), logs).l, mv, tag);
    }
  }

  // ---------- As a whole ----------

  /** What the adversary does during one sync: around its own calls and around each goroutine's. */
  datatype Luck = Luck(main: List<Move>, scripts: seq<List<Move>>)

  datatype Wrote = Wrote(logs: Logs, main: List<Move>, err: Option<Error>)

  /** setNotebookPhase on a copy that has phase `from` and ResourceVersion `rv`: no call if nothing changes. */
  function SetPhase(logs: Logs, main: List<Move>, rv: nat, from: Phase, phase: Phase, tag: Tag): Wrote {
    var key := NotebookKey(tag.ns, tag.name);
    if from == phase then Wrote(logs, main, None)
    else
      var r := StatusCall(LogOf(logs, key), rv, phase, Head(main), tag);
      Wrote(logs[key := r.log], Tail(main), r.err)
  }

  function SetDefaultsOnServer(logs: Logs, main: List<Move>, n: Nb, tag: Tag): Wrote {
    var key := NotebookKey(tag.ns, tag.name);
    var r := SpecCall(LogOf(logs, key), n, Head(main), tag);
    Wrote(logs[key := r.log], Tail(main), r.err)
  }

  function Ending(n: Nb, r: Outcome, main: List<Move>, tag: Tag): Outcome {
    Outcome(SetPhase(r.logs, main, n.rv, n.phase, FinalPhase(r.err), tag).logs, r.err)
  }

  /** The copy's phase when the goroutines start. */
  function Announced(n: Nb): Nb {
    if n.phase == Running || n.phase == Failed then n else n.(phase := Pending)
  }

  /** The sync of a valid and complete notebook: Pending, the resources, then Running or Failed. */
  function Live(n: Nb, logs: Logs, luck: Luck, tag: Tag): Outcome
    requires Readable(n) && |luck.scripts| == 4
  {
    var w := SetPhase(logs, luck.main, n.rv, n.phase, Announced(n).phase, tag);
    Ending(Announced(n), Reconciled(Announced(n), w.logs, luck.scripts, tag), w.main, tag)
  }

  /** Outside the notebook itself, a live sync does what its reconcile does. */
  lemma LiveElsewhere(n: Nb, logs: Logs, luck: Luck, tag: Tag, k: Key)
    requires Readable(n) && |luck.scripts| == 4 && k.kind != NotebookKind
    ensures var w := SetPhase(logs, luck.main, n.rv, n.phase, Announced(n).phase, tag);
            && LogOf(w.logs, k) == LogOf(logs, k)
            && LogOf(Live(n, logs, luck, tag).logs, k)
               == LogOf(Reconciled(Announced(n), w.logs, luck.scripts, tag).logs, k)
  {}

  /** A whole sync, whatever the order of its goroutines. */
  function SyncOnce(found: Listed, logs: Logs, luck: Luck, tag: Tag): Outcome
    requires |luck.scripts| == 4
  {
    match found
    case Unlisted(e) => Outcome(logs, Some(e))
    case Missing => Reconciled(Tombstone(tag.ns, tag.name), logs, luck.scripts, tag)
    case Known(c) =>
      var bad := Validate(c.spec);
      var n := Prepared(c);
      if bad.Some? then Outcome(SetPhase(logs, luck.main, c.rv, c.phase, Failed, tag).logs, bad)
      else if n.spec != c.spec then
        var w := SetDefaultsOnServer(logs, luck.main, n, tag);
        Outcome(w.logs, DefaultsError(w.err))
      else Live(n, logs, luck, tag)
  }

  // ---------- The gate ----------

  /** Resources of a live notebook are reconciled only when all five defaultable fields are set and its
      host is a given, valid, non-empty name: every pointer that the calculators follow is safe, and the
      ingress is always wanted. */
  lemma DefaultingGate(found: Listed, tag: Tag)
    ensures var job := Start(found, tag);
            (job.Working? && !job.gone) || job.Announcing? ==>
              && found.Known?
              && Complete(found.n.spec) && Valid(found.n.spec) && job.n.spec == found.n.spec
              && HasHost(job.n) && IsDns1123Subdomain(job.n.spec.host.value)
              && job.n.kind != ""
    ensures found.Known? && Valid(found.n.spec) && Complete(found.n.spec) ==>
              var job := Start(found, tag);
              (job.Working? && !job.gone) || job.Announcing?
  {
    if found.Known? {
      DefaultedIffComplete(found.n.spec);
    }
  }
}
