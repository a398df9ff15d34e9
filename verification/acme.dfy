/** The wait for the issuer (pkg/controller/reconcilers.go:24-43): a notebook with ACME certificates counts as
    Running only when its issuer has stored its secret. */
module AcmeWait {
  import opened Basics
  import opened NotebookTypes
  import opened Naming
  import opened Kube
  import opened Goroutine
  import opened Interleaving
  import opened Sync
  import opened System
  import opened Safety
  import opened Guarantees

  function IssuedKey(n: Nb): Key {
    Key(SecretKind, n.ns, IngressTlsSecretName(n.name))
  }

  predicate IsAcme(n: Nb) {
    n.spec.tls == Some(Acme) && !n.meta.terminating
  }

  /** A lister that had seen the first `p` versions returned an object. */
  ghost predicate WasShown(log: Log, p: nat) {
    p <= |log| && Seen(log, p).Some?
  }

  ghost predicate IsIssued(n: Nb, logs: Logs) {
    exists p :: WasShown(LogOf(logs, IssuedKey(n)), p)
  }

  /** The Ingress goroutine looks for the issuer's secret, and if it ends well, the lister has shown it. */
  ghost predicate Awaits(g: Goro, n: Nb, logs: Logs) {
    IsAcme(n) ==>
      && g.waits == ForSecret(IssuedKey(n))
      && (g.pc == Done && g.err.None? ==> WasShown(LogOf(logs, IssuedKey(n)), g.polled))
  }

  ghost predicate JobAwaits(job: Job, logs: Logs, tag: Tag) {
    var log := LogOf(logs, NotebookKey(tag.ns, tag.name));
    match job
    case Announcing(n) => IsVersion(n, log)
    case Working(n, gone, gs) => !gone ==> IsVersion(n, log) && |gs| == 4 && Awaits(gs[3], n, logs)
    case Concluding(n, slots) =>
      IsVersion(n, log) && |slots| == 4 && (IsAcme(n) && slots[3].None? ==> IsIssued(n, logs))
    case _ => true
  }

  ghost predicate AwaitInv(s: State) {
    forall w :: w in s.workers ==> JobAwaits(s.workers[w].job, s.logs, s.workers[w].tag)
  }

  // ---------- Growth ----------

  lemma ShownGrows(log: Log, log': Log, p: nat)
    requires WasShown(log, p) && log <= log'
    ensures WasShown(log', p)
  {}

  lemma AwaitsGrows(job: Job, a: Logs, b: Logs, tag: Tag)
    requires JobAwaits(job, a, tag) && Grows(a, b)
    ensures JobAwaits(job, b, tag)
  {
    var key := NotebookKey(tag.ns, tag.name);
    assert LogOf(a, key) <= LogOf(b, key);
    if job.Announcing? || (job.Working? && !job.gone) || job.Concluding? {
      VersionGrows(job.n, LogOf(a, key), LogOf(b, key));
      var log, log' := LogOf(a, IssuedKey(job.n)), LogOf(b, IssuedKey(job.n));
      assert log <= log';
      forall p: nat | WasShown(log, p)
        ensures WasShown(log', p)
      {
        ShownGrows(log, log', p);
      }
    }
  }

  // ---------- Steps ----------

  /** A successful wait for a secret has just been shown it. */
  lemma StepAwaits(g: Goro, n: Nb, logs: Logs, mv: Move, tag: Tag)
    requires Sound(g) && g.pc != Done && Awaits(g, n, logs) && mv.env == Nil
    ensures Awaits(StepOnce(ViewOf(Runner(g, Nil), logs).l, mv, tag).g, n, logs)
  {
    var l := ViewOf(Runner(g, Nil), logs).l;
    StepProgress(l, mv, tag);
    if IsAcme(n) && g.pc != Returned && g.pc != Waiting {
      ActProgress(g, l.own, mv, tag);
    }
  }

  lemma WorkingAwaits(n: Nb, logs: Logs, log: Log, tag: Tag)
    requires IsVersion(n, log) && Readable(n)
    ensures Awaits(Reconcilers(n, tag)[3], n, logs)
  {
    WaitsMean(n, tag);
  }

  lemma StartAwaits(found: Listed, logs: Logs, tag: Tag)
    requires found.Known? ==>
               var log := LogOf(logs, NotebookKey(tag.ns, tag.name));
               && CopyOk(found.n, log, tag) && found.n.spec == Seen(log, found.n.rv).value.body.nbspec
    ensures JobAwaits(Start(found, tag), logs, tag)
  {
    if found.Known? && Valid(found.n.spec) && Complete(found.n.spec) {
      var n := Prepared(found.n);
      DefaultedIffComplete(found.n.spec);
      WorkingAwaits(n, logs, LogOf(logs, NotebookKey(tag.ns, tag.name)), tag);
    } else if found.Known? {
      DefaultedIffComplete(found.n.spec);
    }
  }

  /** ... up to the growth of the logs, which `AwaitsGrows` covers. */
  lemma JobStepAwaits(job: Job, logs: Logs, mv: Move, tag: Tag)
    requires Proper(job) && JobAwaits(job, logs, tag) && mv.env == Nil
    ensures JobAwaits(JobStep(job, logs, mv, tag).0, logs, tag)
  {
    match job
    case Announcing(n) =>
      WorkingAwaits(n.(phase := Pending), logs, LogOf(logs, NotebookKey(tag.ns, tag.name)), tag);
    case Working(n, gone, gs) =>
      if !gone {
        if AllGoroutinesDone(gs) {
          assert Slots(gs)[3] == gs[3].err;
        } else if mv.who == 3 && gs[3].pc != Done {
          StepAwaits(gs[3], n, logs, mv, tag);
        }
      }
    case _ =>
  }

  // ---------- Runs ----------

  lemma BeginAwaits(s: State, w: nat, ns: string, name: string, decoded: bool, mv: Move)
    requires ProperState(s) && AwaitInv(s)
    ensures AwaitInv(Next(s, Begin(w, ns, name, decoded, mv)))
  {
    var log := LogOf(s.logs, NotebookKey(ns, name));
    var found := ListNotebook(log, ns, name, decoded, mv);
    var tag := Tag(s.next, s.ca, ns, name);
    ListedIsCopy(log, ns, name, decoded, mv, tag);
    if found.Known? {
      assert Seen(log, found.n.rv) == Some(Get(log, mv).obj);
    }
    StartAwaits(found, s.logs, tag);
  }

  lemma WorkAwaits(s: State, w: nat, mv: Move)
    requires Inv(s) && AwaitInv(s) && w in s.workers
    ensures AwaitInv(Next(s, Work(w, mv)))
  {
    var s' := Next(s, Work(w, mv));
    WorkKeepsLogs(s, w, mv);
    WorkIsOk(s, w, mv);
    JobStepAwaits(s.workers[w].job, s.logs, Calm(mv), s.workers[w].tag);
    AllAwaitsGrow(s', s.logs);
  }

  lemma AllAwaitsGrow(s: State, before: Logs)
    requires Grows(before, s.logs)
    requires forall w :: w in s.workers ==> JobAwaits(s.workers[w].job, before, s.workers[w].tag)
    ensures AwaitInv(s)
  {
    forall w | w in s.workers
      ensures JobAwaits(s.workers[w].job, s.logs, s.workers[w].tag)
    {
      AwaitsGrows(s.workers[w].job, before, s.logs, s.workers[w].tag);
    }
  }

  lemma NextKeepsAwaits(s: State, c: Choice)
    requires Inv(s) && AwaitInv(s)
    ensures AwaitInv(Next(s, c))
  {
    match c
    case Others(key, write) =>
      OthersKeepInv(s, key, write);
      AllAwaitsGrow(Next(s, c), s.logs);
    case Restart =>
    case Begin(w, ns, name, decoded, mv) => BeginAwaits(s, w, ns, name, decoded, mv);
    case Work(w, mv) =>
      if w in s.workers {
        WorkAwaits(s, w, mv);
      }
  }

  /** In every reachable state, the Ingress goroutine of a sync for an ACME notebook has the issuer's secret to
      wait for, and has ended well only if the lister has shown it. */
  lemma {:induction false} RunKeepsAwaits(choices: seq<Choice>)
    ensures AwaitInv(Run(choices))
    decreases |choices|
  {
    if choices != [] {
      RunKeepsAwaits(choices[..|choices| - 1]);
      RunKeepsInv(choices[..|choices| - 1]);
      NextKeepsAwaits(Run(choices[..|choices| - 1]), choices[|choices| - 1]);
    }
  }

  /** Whoever sets the phase of a notebook has concluded on the very version that is replaced. */
  lemma ConcludedOnCurrent(job: Job, logs: Logs, mv: Move, tag: Tag, key: Key)
    requires Proper(job) && job.Concluding? && mv.env == Nil && |LogOf(JobStep(job, logs, mv, tag).1, key)| > |LogOf(logs, key)|
    ensures key == NotebookKey(tag.ns, tag.name) && job.n.rv == |LogOf(logs, key)|
  {}

  /** The secret of this name has been in a lister's answer. */
  ghost predicate HasBeenIssued(logs: Logs, ns: string, name: string) {
    exists p :: WasShown(LogOf(logs, Key(SecretKind, ns, "jupyter-notebook-" + name + "-tls")), p)
  }

  lemma ConclusionIsIssued(job: Job, logs: Logs, mv: Move, tag: Tag, key: Key)
    requires Proper(job) && job.Concluding? && JobAwaits(job, logs, tag) && CopyOk(job.n, LogOf(logs, NotebookKey(tag.ns, tag.name)), tag)
    requires mv.env == Nil && |LogOf(JobStep(job, logs, mv, tag).1, key)| > |LogOf(logs, key)| && job.slots[3].None?
    ensures Current(LogOf(logs, key)).Some? && Current(LogOf(logs, key)).value.body.NotebookBody?
    ensures var o := Current(LogOf(logs, key)).value;
            o.body.nbspec.tls == Some(Acme) && !o.meta.terminating ==> HasBeenIssued(logs, key.ns, key.name)
  {
    ConcludedOnCurrent(job, logs, mv, tag, key);
    NamesAre(tag.name);
    assert Current(LogOf(logs, key)) == Seen(LogOf(logs, key), job.n.rv);
  }

  /** In every run, a notebook with ACME certificates that is not being deleted is set to Running only by a sync
      whose Ingress goroutine ended well, and only when a lister has shown the issuer's secret, which is
      called after the notebook and ends in "-tls". */
  lemma RunningOnlyWithIssuedSecret(choices: seq<Choice>, c: Choice, ns: string, name: string)
    requires var key := NotebookKey(ns, name);
             SetsRunning(LogOf(Run(choices).logs, key), LogOf(Next(Run(choices), c).logs, key))
    ensures var s := Run(choices);
            var log := LogOf(s.logs, NotebookKey(ns, name));
            && c.Work? && c.worker in s.workers && s.workers[c.worker].job.Concluding?
            && |s.workers[c.worker].job.slots| == 4 && s.workers[c.worker].job.slots[3].None?
            && Current(log).Some? && Current(log).value.body.NotebookBody?
            && (Current(log).value.body.nbspec.tls == Some(Acme) && !Current(log).value.meta.terminating ==>
                  HasBeenIssued(s.logs, ns, name))
  {
    var s := Run(choices);
    RunningOnlyAfterSuccess(choices, c, ns, name);
    RunKeepsInv(choices);
    RunKeepsAwaits(choices);
    assert WorkerOk(s.workers[c.worker], s);
    ConclusionIsIssued(s.workers[c.worker].job, s.logs, Calm(c.mv), s.workers[c.worker].tag, NotebookKey(ns, name));
  }
}
