/** Over every run, the owner that the operator writes into an object is the notebook it was made for: by
    name, and by the UID that some version of that notebook had. */
module Lineage {
  import opened Basics
  import opened NotebookTypes
  import opened Kube
  import opened Goroutine
  import opened Interleaving
  import opened Sync
  import opened System
  import opened Safety
  import opened Ownership

  ghost predicate IsUidAt(log: Log, p: nat, uid: string) {
    p <= |log| && Seen(log, p).Some? && Seen(log, p).value.body.NotebookBody? && Seen(log, p).value.body.uid == uid
  }

  /** Some version of the notebook had this UID. */
  ghost predicate HadUid(log: Log, uid: string) {
    exists p :: IsUidAt(log, p, uid)
  }

  ghost predicate Descends(e: Entry, logs: Logs) {
    e.author.Operator? && IsWritten(e) ==>
      && e.obj.Some? && |e.obj.value.meta.owners| == 1
      && HadUid(LogOf(logs, NotebookKey(e.author.tag.ns, e.author.tag.name)), e.obj.value.meta.owners[0].uid)
  }

  ghost predicate LineageOk(logs: Logs, key: Key) {
    key.kind != NotebookKind ==> forall i :: 0 <= i < |LogOf(logs, key)| ==> Descends(LogOf(logs, key)[i], logs)
  }

  /** Goroutines of a sync mean to make its notebook the owner; those of a tombstone make nothing. */
  ghost predicate JobIntends(job: Job) {
    job.Working? ==>
      forall i :: 0 <= i < |job.gs| ==> Intends(job.gs[i], AsOwner(job.n)) && (job.gone ==> job.gs[i].plan.Discard?)
  }

  ghost predicate LineageInv(s: State) {
    && (forall key :: LineageOk(s.logs, key))
    && forall w :: w in s.workers ==> JobIntends(s.workers[w].job)
  }

  lemma HadUidGrows(log: Log, log': Log, uid: string)
    requires HadUid(log, uid) && log <= log'
    ensures HadUid(log', uid)
  {
    var p: nat :| IsUidAt(log, p, uid);
    assert p > 0 ==> log'[p - 1] == log[p - 1];
    assert IsUidAt(log', p, uid);
  }

  lemma DescendsGrows(e: Entry, a: Logs, b: Logs)
    requires Descends(e, a) && Grows(a, b)
    ensures Descends(e, b)
  {
    if e.author.Operator? && IsWritten(e) {
      var key := NotebookKey(e.author.tag.ns, e.author.tag.name);
      assert LogOf(a, key) <= LogOf(b, key);
      HadUidGrows(LogOf(a, key), LogOf(b, key), e.obj.value.meta.owners[0].uid);
    }
  }

  /** Old entries go on descending; it is the new ones that have to be looked at. */
  lemma LineageGrows(a: Logs, b: Logs, key: Key)
    requires LineageOk(a, key) && Grows(a, b)
    requires key.kind != NotebookKind ==>
               forall i :: |LogOf(a, key)| <= i < |LogOf(b, key)| ==> Descends(LogOf(b, key)[i], b)
    ensures LineageOk(b, key)
  {
    if key.kind != NotebookKind {
      var log, log' := LogOf(a, key), LogOf(b, key);
      assert log <= log';
      forall i | 0 <= i < |log'|
        ensures Descends(log'[i], b)
      {
        if i < |log| {
          assert log'[i] == log[i];
          DescendsGrows(log[i], a, b);
        }
      }
    }
  }

  // ---------- Steps ----------

  lemma DiscardMakesNothing(l: Local, mv: Move, tag: Tag)
    requires Sound(l.g) && l.g.plan.Discard? && mv.env == Nil
    ensures StepOnce(l, mv, tag).g.plan.Discard?
    ensures var own := StepOnce(l, mv, tag).own;
            forall i :: |l.own| <= i < |own| ==> !IsWritten(own[i])
  {}

  /** The entry that a goroutine's step adds. */
  lemma StepDescends(n: Nb, gone: bool, g: Goro, logs: Logs, mv: Move, tag: Tag, logs': Logs, i: nat)
    requires Intends(g, AsOwner(n)) && (gone ==> g.plan.Discard?) && mv.env == Nil && GoroOk(g, LogOf(logs, g.key), tag)
    requires !gone ==> CopyOk(n, LogOf(logs, NotebookKey(tag.ns, tag.name)), tag)
    requires LogOk(g.key, LogOf(logs, g.key)) && Grows(logs, logs')
    ensures var own := StepOnce(ViewOf(Runner(g, Nil), logs).l, mv, tag).own;
            |LogOf(logs, g.key)| <= i < |own| ==> Descends(own[i], logs')
  {
    var l := ViewOf(Runner(g, Nil), logs).l;
    StepOnceOk(l, mv, tag);
    if gone {
      DiscardMakesNothing(l, mv, tag);
    } else {
      StepOwns(l, mv, tag, |l.own|, AsOwner(n));
      var log := LogOf(logs, NotebookKey(tag.ns, tag.name));
      assert IsUidAt(log, n.rv, n.uid);
      assert LogOf(logs, NotebookKey(tag.ns, tag.name)) <= LogOf(logs', NotebookKey(tag.ns, tag.name));
      HadUidGrows(log, LogOf(logs', NotebookKey(tag.ns, tag.name)), n.uid);
    }
  }

  lemma ReconcilersIntend(n: Nb, tag: Tag)
    requires Readable(n)
    ensures JobIntends(Working(n, false, Reconcilers(n, tag)))
  {
    ReconcilerIntends(n, ServiceKind, tag);
    ReconcilerIntends(n, SecretKind, tag);
    ReconcilerIntends(n, StatefulSetKind, tag);
    ReconcilerIntends(n, IngressKind, tag);
  }

  lemma StartIntends(found: Listed, tag: Tag)
    ensures JobIntends(Start(found, tag))
  {
    if found.Known? && Readable(Prepared(found.n)) {
      ReconcilersIntend(Prepared(found.n), tag);
    }
  }

  lemma JobStepIntends(job: Job, logs: Logs, mv: Move, tag: Tag)
    requires Proper(job) && JobIntends(job) && mv.env == Nil
    ensures JobIntends(JobStep(job, logs, mv, tag).0)
  {
    match job
    case Announcing(n) => ReconcilersIntend(n.(phase := Pending), tag);
    case Working(n, gone, gs) =>
      if !AllGoroutinesDone(gs) && mv.who < |gs| && gs[mv.who].pc != Done {
        var l := ViewOf(Runner(gs[mv.who], Nil), logs).l;
        StepOwns(l, mv, tag, |l.own|, AsOwner(n));
        if gone {
          DiscardMakesNothing(l, mv, tag);
        }
      }
    case _ =>
  }

  /** A step that adds to an owned object's log is that of a goroutine. */
  lemma OnlyGoroutinesWrite(job: Job, logs: Logs, mv: Move, tag: Tag, key: Key)
    requires JobOk(job, logs, tag) && Proper(job) && mv.env == Nil && key.kind != NotebookKind
    requires forall k :: LogOk(k, LogOf(logs, k))
    ensures var log' := LogOf(JobStep(job, logs, mv, tag).1, key);
            log' != LogOf(logs, key) ==>
              && job.Working? && mv.who < |job.gs| && job.gs[mv.who].key == key
              && log' == StepOnce(ViewOf(Runner(job.gs[mv.who], Nil), logs).l, mv, tag).own
  {
    if LogOf(JobStep(job, logs, mv, tag).1, key) != LogOf(logs, key) {
      JobStepIsOk(job, logs, mv, tag);
      assert key == Touched(job, mv, tag);
      var g := job.gs[mv.who];
      var l := ViewOf(Runner(g, Nil), logs).l;
      assert GoroOk(g, LogOf(logs, g.key), tag);
      StepOnceOk(l, mv, tag);
      StoreChangesOwn(g, logs, StepOnce(l, mv, tag), tag);
    }
  }

  lemma JobStepDescends(job: Job, logs: Logs, mv: Move, tag: Tag, logs': Logs, key: Key)
    requires JobOk(job, logs, tag) && Proper(job) && JobIntends(job) && mv.env == Nil
    requires forall k :: LogOk(k, LogOf(logs, k))
    requires logs' == JobStep(job, logs, mv, tag).1 && Grows(logs, logs') && LineageOk(logs, key)
    ensures LineageOk(logs', key)
  {
    if key.kind != NotebookKind && LogOf(logs', key) != LogOf(logs, key) {
      OnlyGoroutinesWrite(job, logs, mv, tag, key);
      assert LogOk(key, LogOf(logs, key));
      forall i | |LogOf(logs, key)| <= i < |LogOf(logs', key)|
        ensures Descends(LogOf(logs', key)[i], logs')
      {
        StepDescends(job.n, job.gone, job.gs[mv.who], logs, mv, tag, logs', i);
      }
    }
    LineageGrows(logs, logs', key);
  }

  lemma WorkKeepsLineage(s: State, w: nat, mv: Move)
    requires Inv(s) && LineageInv(s) && w in s.workers
    ensures LineageInv(Next(s, Work(w, mv)))
  {
    var s' := Next(s, Work(w, mv));
    var Worker(tag, job) := s.workers[w];
    WorkKeepsLogs(s, w, mv);
    assert WorkerOk(s.workers[w], s) && JobIntends(job);
    JobStepIntends(job, s.logs, Calm(mv), tag);
    forall key
      ensures LineageOk(s'.logs, key)
    {
      assert LineageOk(s.logs, key);
      JobStepDescends(job, s.logs, Calm(mv), tag, s'.logs, key);
    }
  }

  lemma OthersDescend(a: Logs, b: Logs, k: Key, write: Option<Object>, key: Key)
    requires Grows(a, b) && LineageOk(a, key)
    requires key != k ==> LogOf(b, key) == LogOf(a, key)
    requires LogOf(b, k) == LogOf(a, k) || LogOf(b, k) == LogOf(a, k) + [Entry(write, Environment)]
    ensures LineageOk(b, key)
  {
    LineageGrows(a, b, key);
  }

  lemma OthersKeepLineage(s: State, k: Key, write: Option<Object>)
    requires Inv(s) && LineageInv(s)
    ensures LineageInv(Next(s, Others(k, write)))
  {
    var s' := Next(s, Others(k, write));
    OthersKeepInv(s, k, write);
    OthersWrite(k.kind, LogOf(s.logs, k), write);
    forall key
      ensures LineageOk(s'.logs, key)
    {
      assert LineageOk(s.logs, key);
      OthersDescend(s.logs, s'.logs, k, write, key);
    }
  }

  lemma NextKeepsLineage(s: State, c: Choice)
    requires Inv(s) && LineageInv(s)
    ensures LineageInv(Next(s, c))
  {
    match c
    case Others(key, write) => OthersKeepLineage(s, key, write);
    case Restart =>
    case Begin(w, ns, name, decoded, mv) =>
      var found := ListNotebook(LogOf(s.logs, NotebookKey(ns, name)), ns, name, decoded, mv);
      StartIntends(found, Tag(s.next, s.ca, ns, name));
    case Work(w, mv) =>
      if w in s.workers {
        WorkKeepsLineage(s, w, mv);
      }
  }

  /** In every reachable state, whatever the operator has created or updated descends from a version of the
      notebook it was written for. */
  lemma {:induction false} RunKeepsLineage(choices: seq<Choice>)
    ensures LineageInv(Run(choices))
    decreases |choices|
  {
    if choices != [] {
      RunKeepsLineage(choices[..|choices| - 1]);
      RunKeepsInv(choices[..|choices| - 1]);
      NextKeepsLineage(Run(choices[..|choices| - 1]), choices[|choices| - 1]);
    }
  }
}
