/** Over every run, why the operator deletes: a Service, Secret or Ingress only in a sync whose lister
    has shown the notebook gone, being deleted, or not asking for that object (pkg/controller/controller.go:277-290 and
    pkg/controller/reconcilers.go:29-85). */
module Reasons {
  import opened Basics
  import opened NotebookTypes
  import opened Kube
  import opened Calculate
  import opened Goroutine
  import opened Interleaving
  import opened Sync
  import opened System
  import opened Safety
  import opened Lineage

  /** Version `p` of the notebook gives a reason not to have an object of this kind. */
  ghost predicate IsReason(log: Log, p: nat, kind: Kind) {
    && p <= |log|
    && match Seen(log, p)
       case None => true
       case Some(o) =>
         || !o.body.NotebookBody? || o.meta.terminating
         || (kind == SecretKind && !AsksForPassword(o.body.nbspec) && !AsksForTls(o.body.nbspec))
  }

  /** The sync `tag` began with choice `k`, and what its lister then answered gives the reason. */
  ghost predicate BeganWithReason(choices: seq<Choice>, k: nat, tag: Tag, kind: Kind) {
    && k < |choices| && choices[k].Begin?
    && var s := Run(choices[..k]);
    && Idle(s, choices[k].worker) && tag == Tag(s.next, s.ca, choices[k].ns, choices[k].name)
    && choices[k].mv.fault == NoFault
    && var log := LogOf(s.logs, NotebookKey(tag.ns, tag.name));
    IsReason(log, Position(log, choices[k].mv.lag), kind)
  }

  ghost predicate HasReason(choices: seq<Choice>, tag: Tag, kind: Kind) {
    exists k :: BeganWithReason(choices, k, tag, kind)
  }

  ghost predicate IsDeletion(e: Entry) {
    e.author.Operator? && e.author.verb.Deleted?
  }

  /** A StatefulSet may also be deleted to be replaced. */
  ghost predicate IsJustified(e: Entry, kind: Kind, choices: seq<Choice>) {
    IsDeletion(e) && kind != StatefulSetKind ==> HasReason(choices, e.author.tag, kind)
  }

  ghost predicate AllJustified(log: Log, kind: Kind, choices: seq<Choice>) {
    forall i :: 0 <= i < |log| ==> IsJustified(log[i], kind, choices)
  }

  // ---------- Goroutines in flight ----------

  ghost predicate GoroHasReason(g: Goro, tag: Tag, choices: seq<Choice>) {
    && (g.plan.Discard? ==> HasReason(choices, tag, g.key.kind))
    && (g.pc == Erase ==> g.plan.Discard?)
  }

  /** What the copy does not ask for, its version gave a reason for. */
  ghost predicate CopyHasReason(n: Nb, tag: Tag, choices: seq<Choice>) {
    forall kind :: kind in KINDS ==> ShouldExist(n, kind) || HasReason(choices, tag, kind)
  }

  ghost predicate JobHasReason(job: Job, tag: Tag, choices: seq<Choice>) {
    match job
    case Announcing(n) => CopyHasReason(n, tag, choices)
    case Working(_, _, gs) => forall i :: 0 <= i < |gs| ==> GoroHasReason(gs[i], tag, choices)
    case _ => true
  }

  ghost predicate ReasonInv(s: State, choices: seq<Choice>) {
    && (forall key :: AllJustified(LogOf(s.logs, key), key.kind, choices))
    && forall w :: w in s.workers ==> JobHasReason(s.workers[w].job, s.workers[w].tag, choices)
  }

  lemma ReasonGrows(choices: seq<Choice>, more: seq<Choice>, tag: Tag, kind: Kind)
    requires HasReason(choices, tag, kind) && choices <= more
    ensures HasReason(more, tag, kind)
  {
    var k: nat :| BeganWithReason(choices, k, tag, kind);
    assert more[..k] == choices[..k];
    assert BeganWithReason(more, k, tag, kind);
  }

  lemma ReasonsGrow(s: State, choices: seq<Choice>, more: seq<Choice>)
    requires ReasonInv(s, choices) && choices <= more
    ensures ReasonInv(s, more)
  {
    forall tag, kind | HasReason(choices, tag, kind)
      ensures HasReason(more, tag, kind)
    {
      ReasonGrows(choices, more, tag, kind);
    }
    forall key
      ensures AllJustified(LogOf(s.logs, key), key.kind, more)
    {
      assert AllJustified(LogOf(s.logs, key), key.kind, choices);
    }
  }

  // ---------- Steps ----------

  lemma StepKeepsReason(l: Local, mv: Move, tag: Tag, choices: seq<Choice>)
    requires Sound(l.g) && GoroHasReason(l.g, tag, choices)
    ensures GoroHasReason(StepOnce(l, mv, tag).g, tag, choices)
  {
    StepProgress(l, mv, tag);
  }

  /** The entry that a goroutine's step adds, if it is a deletion. */
  lemma StepIsJustified(l: Local, mv: Move, tag: Tag, i: nat, choices: seq<Choice>)
    requires GoroOk(l.g, l.own, tag) && mv.env == Nil && GoroHasReason(l.g, tag, choices)
    ensures var own := StepOnce(l, mv, tag).own;
            |l.own| <= i < |own| ==> IsJustified(own[i], l.g.key.kind, choices)
  {
    if l.g.pc != Returned && l.g.pc != Done && !(l.g.pc == Waiting && l.g.waits.ForSecret?) && |l.own| <= i {
      assert StepOnce(l, mv, tag).own == Act(l.g, l.own, mv, tag).1;
    }
  }

  lemma ReconcilerHasReason(n: Nb, kind: Kind, tag: Tag, choices: seq<Choice>)
    requires Readable(n) && kind in KINDS && CopyHasReason(n, tag, choices)
    ensures GoroHasReason(ReconcilerFor(n, kind, tag), tag, choices)
  {}

  lemma ReconcilersHaveReason(n: Nb, gone: bool, tag: Tag, choices: seq<Choice>)
    requires Readable(n) && CopyHasReason(n, tag, choices)
    ensures JobHasReason(Working(n, gone, Reconcilers(n, tag)), tag, choices)
  {
    var gs := Reconcilers(n, tag);
    forall i | 0 <= i < 4
      ensures GoroHasReason(gs[i], tag, choices)
    {
      assert gs[i] == ReconcilerFor(n, KINDS[i], tag);
      ReconcilerHasReason(n, KINDS[i], tag, choices);
    }
  }

  /** The copy of a valid and complete notebook, whose host is therefore given. */
  lemma ListedHasReason(n: Nb, o: Object, log: Log, p: nat, kind: Kind)
    requires p <= |log| && Seen(log, p) == Some(o) && o.body.NotebookBody? && kind in KINDS
    requires n.spec == o.body.nbspec && n.meta == o.meta && HasHost(n)
    ensures ShouldExist(n, kind) || IsReason(log, p, kind)
  {
    WantedMeans(n, kind);
  }

  lemma LatestHasReason(choices: seq<Choice>, c: Choice, kind: Kind)
    requires c.Begin? && Idle(Run(choices), c.worker) && c.mv.fault == NoFault
    requires var log := LogOf(Run(choices).logs, NotebookKey(c.ns, c.name)); IsReason(log, Position(log, c.mv.lag), kind)
    ensures HasReason(choices + [c], Tag(Run(choices).next, Run(choices).ca, c.ns, c.name), kind)
  {
    assert (choices + [c])[..|choices|] == choices;
    assert BeganWithReason(choices + [c], |choices|, Tag(Run(choices).next, Run(choices).ca, c.ns, c.name), kind);
  }

  lemma ListedCopyHasReason(choices: seq<Choice>, c: Choice, n: Nb)
    requires c.Begin? && Idle(Run(choices), c.worker) && Valid(n.spec) && Complete(n.spec)
    requires ListNotebook(LogOf(Run(choices).logs, NotebookKey(c.ns, c.name)), c.ns, c.name, c.decoded, c.mv) == Known(n)
    ensures CopyHasReason(Prepared(n), Tag(Run(choices).next, Run(choices).ca, c.ns, c.name), choices + [c])
  {
    var log := LogOf(Run(choices).logs, NotebookKey(c.ns, c.name));
    DefaultedIffComplete(n.spec);
    forall kind | kind in KINDS && !ShouldExist(Prepared(n), kind)
      ensures HasReason(choices + [c], Tag(Run(choices).next, Run(choices).ca, c.ns, c.name), kind)
    {
      ListedHasReason(Prepared(n), Get(log, c.mv).obj, log, Position(log, c.mv.lag), kind);
      LatestHasReason(choices, c, kind);
    }
  }

  lemma GoneHasReason(tag: Tag, choices: seq<Choice>)
    requires forall kind :: kind in KINDS ==> HasReason(choices, tag, kind)
    ensures JobHasReason(Start(Missing, tag), tag, choices)
  {
    ReconcilersHaveReason(Tombstone(tag.ns, tag.name), true, tag, choices);
  }

  lemma KnownHasReason(n: Nb, tag: Tag, choices: seq<Choice>)
    requires Valid(n.spec) && Complete(n.spec) ==> CopyHasReason(Prepared(n), tag, choices)
    ensures JobHasReason(Start(Known(n), tag), tag, choices)
  {
    DefaultedIffComplete(n.spec);
    if Valid(n.spec) && Complete(n.spec) {
      ReconcilersHaveReason(Prepared(n), false, tag, choices);
    }
  }

  lemma StartHasReason(c: Choice, choices: seq<Choice>)
    requires c.Begin? && Idle(Run(choices), c.worker)
    ensures var s := Run(choices);
            var tag := Tag(s.next, s.ca, c.ns, c.name);
            var found := ListNotebook(LogOf(s.logs, NotebookKey(c.ns, c.name)), c.ns, c.name, c.decoded, c.mv);
            JobHasReason(Start(found, tag), tag, choices + [c])
  {
    var s := Run(choices);
    var tag := Tag(s.next, s.ca, c.ns, c.name);
    var found := ListNotebook(LogOf(s.logs, NotebookKey(c.ns, c.name)), c.ns, c.name, c.decoded, c.mv);
    if found.Missing? {
      forall kind | kind in KINDS
        ensures HasReason(choices + [c], tag, kind)
      {
        LatestHasReason(choices, c, kind);
      }
      GoneHasReason(tag, choices + [c]);
    } else if found.Known? {
      if Valid(found.n.spec) && Complete(found.n.spec) {
        ListedCopyHasReason(choices, c, found.n);
      }
      KnownHasReason(found.n, tag, choices + [c]);
    }
  }

  lemma JobStepHasReason(job: Job, logs: Logs, mv: Move, tag: Tag, choices: seq<Choice>)
    requires Proper(job) && JobHasReason(job, tag, choices) && mv.env == Nil
    ensures JobHasReason(JobStep(job, logs, mv, tag).0, tag, choices)
  {
    match job
    case Announcing(n) => ReconcilersHaveReason(n.(phase := Pending), false, tag, choices);
    case Working(_, _, gs) =>
      if !AllGoroutinesDone(gs) && mv.who < |gs| && gs[mv.who].pc != Done {
        StepKeepsReason(ViewOf(Runner(gs[mv.who], Nil), logs).l, mv, tag, choices);
      }
    case _ =>
  }

  lemma JobStepIsJustified(job: Job, logs: Logs, mv: Move, tag: Tag, key: Key, choices: seq<Choice>)
    requires JobOk(job, logs, tag) && Proper(job) && JobHasReason(job, tag, choices) && mv.env == Nil
    requires forall k :: LogOk(k, LogOf(logs, k))
    requires LogOf(logs, key) <= LogOf(JobStep(job, logs, mv, tag).1, key) && LogOk(key, LogOf(JobStep(job, logs, mv, tag).1, key))
    requires AllJustified(LogOf(logs, key), key.kind, choices)
    ensures AllJustified(LogOf(JobStep(job, logs, mv, tag).1, key), key.kind, choices)
  {
    var log, log' := LogOf(logs, key), LogOf(JobStep(job, logs, mv, tag).1, key);
    forall i | 0 <= i < |log'|
      ensures IsJustified(log'[i], key.kind, choices)
    {
      if i < |log| {
        assert log'[i] == log[i];
      } else if key.kind == NotebookKind {
        assert EntryOk(key, i, Seen(log', i), log'[i]);
      } else {
        OnlyGoroutinesWrite(job, logs, mv, tag, key);
        StepIsJustified(ViewOf(Runner(job.gs[mv.who], Nil), logs).l, mv, tag, i, choices);
      }
    }
  }

  // ---------- Runs ----------

  lemma WorkKeepsJustified(s: State, w: nat, mv: Move, key: Key, choices: seq<Choice>)
    requires Inv(s) && ReasonInv(s, choices) && w in s.workers
    ensures AllJustified(LogOf(Next(s, Work(w, mv)).logs, key), key.kind, choices)
  {
    var Worker(tag, job) := s.workers[w];
    WorkKeepsLogs(s, w, mv);
    WorkIsOk(s, w, mv);
    assert WorkerOk(s.workers[w], s);
    assert AllJustified(LogOf(s.logs, key), key.kind, choices);
    assert LogOf(s.logs, key) <= LogOf(Next(s, Work(w, mv)).logs, key);
    assert LogOk(key, LogOf(Next(s, Work(w, mv)).logs, key));
    JobStepIsJustified(job, s.logs, Calm(mv), tag, key, choices);
  }

  lemma WorkKeepsReasons(s: State, w: nat, mv: Move, choices: seq<Choice>)
    requires Inv(s) && ReasonInv(s, choices) && w in s.workers
    ensures ReasonInv(Next(s, Work(w, mv)), choices)
  {
    WorkIsOk(s, w, mv);
    JobStepHasReason(s.workers[w].job, s.logs, Calm(mv), s.workers[w].tag, choices);
    forall key
      ensures AllJustified(LogOf(Next(s, Work(w, mv)).logs, key), key.kind, choices)
    {
      WorkKeepsJustified(s, w, mv, key, choices);
    }
  }

  lemma OthersKeepReasons(s: State, k: Key, write: Option<Object>, choices: seq<Choice>)
    requires Inv(s) && ReasonInv(s, choices)
    ensures ReasonInv(Next(s, Others(k, write)), choices)
  {
    OthersWrite(k.kind, LogOf(s.logs, k), write);
    forall key
      ensures AllJustified(LogOf(Next(s, Others(k, write)).logs, key), key.kind, choices)
    {
      assert AllJustified(LogOf(s.logs, key), key.kind, choices);
    }
  }

  lemma NextKeepsReasons(choices: seq<Choice>, c: Choice)
    requires Inv(Run(choices)) && ReasonInv(Run(choices), choices)
    ensures ReasonInv(Next(Run(choices), c), choices + [c])
  {
    var s := Run(choices);
    ReasonsGrow(s, choices, choices + [c]);
    match c
    case Others(key, write) => OthersKeepReasons(s, key, write, choices + [c]);
    case Restart =>
    case Begin(w, _, _, _, _) =>
      if Idle(s, w) {
        StartHasReason(c, choices);
      }
    case Work(w, mv) =>
      if w in s.workers {
        WorkKeepsReasons(s, w, mv, choices + [c]);
      }
  }

  lemma {:induction false} RunKeepsReasons(choices: seq<Choice>)
    ensures ReasonInv(Run(choices), choices)
    decreases |choices|
  {
    if choices != [] {
      var before, c := choices[..|choices| - 1], choices[|choices| - 1];
      RunKeepsReasons(before);
      RunKeepsInv(before);
      NextKeepsReasons(before, c);
      assert before + [c] == choices;
    }
  }

  /** Nothing is deleted without a reason: in every run, a Service, Secret or Ingress is deleted only by a sync
      that began with an answer of the lister that showed the notebook missing, being deleted, or, for a
      Secret, asking for neither a password nor TLS. A lister that fails gives no reason. */
  lemma NothingIsDeletedWithoutReason(choices: seq<Choice>, key: Key, i: nat)
    requires i < |LogOf(Run(choices).logs, key)| && IsDeletion(LogOf(Run(choices).logs, key)[i])
    requires key.kind != StatefulSetKind
    ensures HasReason(choices, LogOf(Run(choices).logs, key)[i].author.tag, key.kind)
  {
    RunKeepsReasons(choices);
    assert AllJustified(LogOf(Run(choices).logs, key), key.kind, choices);
  }
}
