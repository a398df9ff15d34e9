/** What every run keeps, with arbitrary staleness, interference, faults, concurrency and restarts. */
module Safety {
  import opened Basics
  import opened NotebookTypes
  import opened Naming
  import opened Kube
  import opened Calculate
  import opened Goroutine
  import opened Interleaving
  import opened Sync
  import opened System

  /** The copy was made from a version of the notebook. */
  ghost predicate CopyOk(n: Nb, log: Log, tag: Tag) {
    && n.ns == tag.ns && n.name == tag.name
    && n.rv <= |log|
    && Seen(log, n.rv).Some? && Seen(log, n.rv).value.body.NotebookBody?
    && n.uid == Seen(log, n.rv).value.body.uid && n.meta == Seen(log, n.rv).value.meta
  }

  /** The copy has the spec of the version it was made from, with a host. */
  ghost predicate IsVersion(n: Nb, log: Log) {
    && n.rv <= |log| && Seen(log, n.rv).Some? && Seen(log, n.rv).value.body.NotebookBody?
    && n.spec == Seen(log, n.rv).value.body.nbspec && n.meta == Seen(log, n.rv).value.meta
    && HasHost(n)
  }

  ghost predicate Unwritten(n: Nb, log: Log) {
    n.rv <= |log| && Seen(log, n.rv).Some? && Seen(log, n.rv).value.body.NotebookBody?
    && n.phase == Seen(log, n.rv).value.body.phase
  }

  predicate Typeful(n: Nb) {
    n.kind == NOTEBOOK_KIND && n.apiVersion == API_VERSION
  }

  ghost predicate JobOk(job: Job, logs: Logs, tag: Tag) {
    var log := LogOf(logs, NotebookKey(tag.ns, tag.name));
    match job
    case Rejecting(n, _) => CopyOk(n, log, tag) && Unwritten(n, log)
    case Defaulting(n) => CopyOk(n, log, tag) && Unwritten(n, log)
    case Announcing(n) =>
      CopyOk(n, log, tag) && Unwritten(n, log) && Readable(n) && Typeful(n) && n.phase != Running && n.phase != Failed
    case Working(n, gone, gs) =>
      && (!gone ==> CopyOk(n, log, tag))
      && |gs| == 4
      && forall i :: 0 <= i < 4 ==> GoroOk(gs[i], LogOf(logs, gs[i].key), tag)
    case Concluding(n, slots) => CopyOk(n, log, tag) && |slots| == 4
    case Finished(_) => true
  }

  /** The ResourceVersion that the sync's writes to its notebook are conditioned on. */
  function Condition(job: Job): Option<nat> {
    match job
    case Working(n, gone, _) => if gone then None else Some(n.rv)
    case Finished(_) => None
    case _ => Some(job.n.rv)
  }

  /** What the sync has written to its notebook, if anything, comes after the version it works on. */
  ghost predicate WroteLater(job: Job, log: Log, tag: Tag) {
    Condition(job).Some? ==>
      forall i :: 0 <= i < |log| && log[i].author.Operator? && log[i].author.tag.sync == tag.sync
                  ==> i >= Condition(job).value
  }

  ghost predicate WorkerOk(w: Worker, s: State) {
    && JobOk(w.job, s.logs, w.tag)
    && w.tag.sync < s.next && w.tag.ca == s.ca
    && WroteLater(w.job, LogOf(s.logs, NotebookKey(w.tag.ns, w.tag.name)), w.tag)
  }

  /** Entries come from syncs that have begun, in CA lifetimes that have begun. */
  ghost predicate Stamped(log: Log, next: nat, ca: nat) {
    forall i :: 0 <= i < |log| && log[i].author.Operator? ==> log[i].author.tag.sync < next && log[i].author.tag.ca <= ca
  }

  /** No sync has written twice. */
  ghost predicate OneEach(log: Log) {
    forall i, j :: 0 <= i < j < |log| && log[i].author.Operator? && log[j].author.Operator?
                   ==> log[i].author.tag.sync != log[j].author.tag.sync
  }

  ghost predicate Inv(s: State) {
    && ProperState(s)
    && (forall k :: LogOk(k, LogOf(s.logs, k)))
    && (forall k :: Stamped(LogOf(s.logs, k), s.next, s.ca))
    && (forall ns, name :: OneEach(LogOf(s.logs, NotebookKey(ns, name))))
    && (forall w :: w in s.workers ==> WorkerOk(s.workers[w], s))
  }

  // ---------- Growth ----------

  ghost predicate Grows(a: Logs, b: Logs) {
    forall k :: LogOf(a, k) <= LogOf(b, k)
  }

  lemma CopyOkGrows(n: Nb, log: Log, log': Log, tag: Tag)
    requires CopyOk(n, log, tag) && log <= log'
    ensures CopyOk(n, log', tag) && (Unwritten(n, log) ==> Unwritten(n, log'))
  {
    assert n.rv > 0 ==> log'[n.rv - 1] == log[n.rv - 1];
  }

  lemma VersionGrows(n: Nb, log: Log, log': Log)
    requires IsVersion(n, log) && log <= log'
    ensures IsVersion(n, log')
  {
    assert n.rv > 0 ==> log'[n.rv - 1] == log[n.rv - 1];
  }

  lemma JobOkGrows(job: Job, a: Logs, b: Logs, tag: Tag)
    requires JobOk(job, a, tag) && Grows(a, b)
    ensures JobOk(job, b, tag)
  {
    var key := NotebookKey(tag.ns, tag.name);
    assert LogOf(a, key) <= LogOf(b, key);
    match job
    case Working(n, gone, gs) =>
      if !gone {
        CopyOkGrows(n, LogOf(a, key), LogOf(b, key), tag);
      }
      forall i | 0 <= i < 4
        ensures GoroOk(gs[i], LogOf(b, gs[i].key), tag)
      {
        GoroOkGrows(gs[i], LogOf(a, gs[i].key), LogOf(b, gs[i].key), tag);
      }
    case Finished(_) =>
    case _ => CopyOkGrows(job.n, LogOf(a, key), LogOf(b, key), tag);
  }

  lemma WroteLaterGrows(job: Job, a: Logs, b: Logs, tag: Tag)
    requires JobOk(job, a, tag) && Grows(a, b)
    requires WroteLater(job, LogOf(a, NotebookKey(tag.ns, tag.name)), tag)
    ensures WroteLater(job, LogOf(b, NotebookKey(tag.ns, tag.name)), tag)
  {
    var key := NotebookKey(tag.ns, tag.name);
    var old_, new_ := LogOf(a, key), LogOf(b, key);
    assert old_ <= new_;
    if Condition(job).Some? {
      forall i | 0 <= i < |new_| && new_[i].author.Operator? && new_[i].author.tag.sync == tag.sync
        ensures i >= Condition(job).value
      {
        if i < |old_| {
          assert new_[i] == old_[i];
        }
      }
    }
  }

  lemma WorkerOkGrows(w: Worker, s: State, s': State)
    requires WorkerOk(w, s) && Grows(s.logs, s'.logs) && s.next <= s'.next && s.ca == s'.ca
    ensures WorkerOk(w, s')
  {
    JobOkGrows(w.job, s.logs, s'.logs, w.tag);
    WroteLaterGrows(w.job, s.logs, s'.logs, w.tag);
  }

  // ---------- A step of a sync ----------

  lemma ReconcilersOk(n: Nb, logs: Logs, tag: Tag)
    requires Readable(n) && n.ns == tag.ns && n.name == tag.name && (n.meta.terminating || Typeful(n))
    ensures forall i :: 0 <= i < 4 ==> GoroOk(Reconcilers(n, tag)[i], LogOf(logs, Reconcilers(n, tag)[i].key), tag)
  {
    NotebookLabelsAreManaged(n.name);
  }

  /** The key a step of the sync may write. */
  function Touched(job: Job, mv: Move, tag: Tag): Key {
    if job.Working? && mv.who < |job.gs| then job.gs[mv.who].key else NotebookKey(tag.ns, tag.name)
  }

  ghost predicate JobStepOk(job: Job, logs: Logs, mv: Move, tag: Tag, job': Job, logs': Logs) {
    var k := Touched(job, mv, tag);
    && (forall o :: o != k ==> LogOf(logs', o) == LogOf(logs, o))
    && Adds(LogOf(logs, k), LogOf(logs', k), tag)
    && LogOk(k, LogOf(logs', k))
    && JobOk(job', logs', tag)
    && (Condition(job').Some? ==> Condition(job') == Condition(job))
  }

  /** A goroutine's step changes its own log only. */
  lemma StoreChangesOwn(g: Goro, logs: Logs, l: Local, tag: Tag)
    requires GoroOk(g, LogOf(logs, g.key), tag)
    requires l.g.key == g.key && l.g.waits == g.waits && l.aux == AuxLog(g, logs)
    ensures forall o :: LogOf(Store(logs, l), o) == if o == g.key then l.own else LogOf(logs, o)
  {}

  lemma GoroutineStepOk(n: Nb, gone: bool, gs: seq<Goro>, i: nat, logs: Logs, mv: Move, tag: Tag)
    requires JobOk(Working(n, gone, gs), logs, tag) && mv.env == Nil && i < 4
    requires forall k :: LogOk(k, LogOf(logs, k))
    ensures var l := StepOnce(ViewOf(Runner(gs[i], Nil), logs).l, mv, tag);
            var logs' := Store(logs, l);
            && (forall o :: o != gs[i].key ==> LogOf(logs', o) == LogOf(logs, o))
            && Adds(LogOf(logs, gs[i].key), LogOf(logs', gs[i].key), tag)
            && LogOk(gs[i].key, LogOf(logs', gs[i].key))
            && JobOk(Working(n, gone, gs[i := l.g]), logs', tag)
  {
    var g := gs[i];
    var l := ViewOf(Runner(g, Nil), logs).l;
    StepOnceOk(l, mv, tag);
    var l' := StepOnce(l, mv, tag);
    StoreChangesOwn(g, logs, l', tag);
    var logs' := Store(logs, l');
    forall k
      ensures LogOf(logs, k) <= LogOf(logs', k)
    {}
    JobOkGrows(Working(n, gone, gs), logs, logs', tag);
  }

  lemma WorkingStepOk(n: Nb, gone: bool, gs: seq<Goro>, logs: Logs, mv: Move, tag: Tag)
    requires JobOk(Working(n, gone, gs), logs, tag) && mv.env == Nil && Proper(Working(n, gone, gs))
    requires forall k :: LogOk(k, LogOf(logs, k))
    ensures var (job', logs') := JobStep(Working(n, gone, gs), logs, mv, tag);
            JobStepOk(Working(n, gone, gs), logs, mv, tag, job', logs')
  {
    if !AllGoroutinesDone(gs) && mv.who < 4 && gs[mv.who].pc != Done {
      GoroutineStepOk(n, gone, gs, mv.who, logs, mv, tag);
    }
  }

  // ---------- Writes to the notebook ----------

  lemma StatusCallOk(n: Nb, phase: Phase, log: Log, mv: Move, tag: Tag)
    requires CopyOk(n, log, tag) && LogOk(NotebookKey(tag.ns, tag.name), log) && mv.env == Nil
    requires phase == Pending ==> Unwritten(n, log) && n.phase != Running && n.phase != Failed
    ensures var log' := StatusCall(log, n.rv, phase, mv, tag).log;
            LogOk(NotebookKey(tag.ns, tag.name), log') && Adds(log, log', tag)
  {
    var log' := StatusCall(log, n.rv, phase, mv, tag).log;
    if log' != log {
      LogOkAppend(NotebookKey(tag.ns, tag.name), log, log'[|log|]);
      assert log' == log + [log'[|log|]];
    }
  }

  lemma SpecCallOk(n: Nb, log: Log, mv: Move, tag: Tag)
    requires CopyOk(n, log, tag) && LogOk(NotebookKey(tag.ns, tag.name), log) && mv.env == Nil
    ensures var log' := SpecCall(log, n, mv, tag).log;
            LogOk(NotebookKey(tag.ns, tag.name), log') && Adds(log, log', tag)
  {
    var log' := SpecCall(log, n, mv, tag).log;
    if log' != log {
      LogOkAppend(NotebookKey(tag.ns, tag.name), log, log'[|log|]);
      assert log' == log + [log'[|log|]];
    }
  }

  lemma AnnouncingStepOk(n: Nb, logs: Logs, mv: Move, tag: Tag)
    requires JobOk(Announcing(n), logs, tag) && mv.env == Nil
    requires forall k :: LogOk(k, LogOf(logs, k))
    ensures var (job', logs') := JobStep(Announcing(n), logs, mv, tag);
            JobStepOk(Announcing(n), logs, mv, tag, job', logs')
  {
    var key := NotebookKey(tag.ns, tag.name);
    StatusCallOk(n, Pending, LogOf(logs, key), mv, tag);
    var logs' := JobStep(Announcing(n), logs, mv, tag).1;
    CopyOkGrows(n, LogOf(logs, key), LogOf(logs', key), tag);
    ReconcilersOk(n.(phase := Pending), logs', tag);
  }

  lemma LastStepOk(job: Job, logs: Logs, mv: Move, tag: Tag)
    requires job.Rejecting? || job.Defaulting? || job.Concluding?
    requires JobOk(job, logs, tag) && mv.env == Nil
    requires forall k :: LogOk(k, LogOf(logs, k))
    ensures var (job', logs') := JobStep(job, logs, mv, tag);
            JobStepOk(job, logs, mv, tag, job', logs')
  {
    var log := LogOf(logs, NotebookKey(tag.ns, tag.name));
    match job
    case Rejecting(n, _) => StatusCallOk(n, Failed, log, mv, tag);
    case Defaulting(n) => SpecCallOk(n, log, mv, tag);
    case Concluding(n, slots) => StatusCallOk(n, FinalPhase(JoinedError(slots)), log, mv, tag);
  }

  lemma JobStepIsOk(job: Job, logs: Logs, mv: Move, tag: Tag)
    requires JobOk(job, logs, tag) && mv.env == Nil && Proper(job)
    requires forall k :: LogOk(k, LogOf(logs, k))
    ensures var (job', logs') := JobStep(job, logs, mv, tag);
            JobStepOk(job, logs, mv, tag, job', logs')
  {
    match job
    case Working(n, gone, gs) => WorkingStepOk(n, gone, gs, logs, mv, tag);
    case Announcing(n) => AnnouncingStepOk(n, logs, mv, tag);
    case Finished(_) =>
    case _ => LastStepOk(job, logs, mv, tag);
  }

  // ---------- A step of the system ----------

  lemma OthersWrite(kind: Kind, log: Log, write: Option<Object>)
    ensures var log' := Interfere(kind, log, Cons(write, Nil));
            log' == log || log' == log + [Entry(write, Environment)]
  {
    assert Interfere(kind, log, Nil) == log;
    assert Interfere(kind, log + [Entry(write, Environment)], Nil) == log + [Entry(write, Environment)];
  }

  /** Entries of others change nothing about who wrote what. */
  lemma OthersLeaveHistory(log: Log, e: Entry, next: nat, ca: nat)
    requires e.author == Environment
    ensures Stamped(log, next, ca) ==> Stamped(log + [e], next, ca)
    ensures OneEach(log) ==> OneEach(log + [e])
  {}

  lemma OthersKeepLog(key: Key, log: Log, write: Option<Object>, next: nat, ca: nat)
    requires LogOk(key, log) && Stamped(log, next, ca)
    ensures var log' := Interfere(key.kind, log, Cons(write, Nil));
            && log <= log' && LogOk(key, log') && Stamped(log', next, ca) && (OneEach(log) ==> OneEach(log'))
  {
    InterfereOk(key, log, Cons(write, Nil));
    OthersWrite(key.kind, log, write);
    OthersLeaveHistory(log, Entry(write, Environment), next, ca);
  }

  lemma OthersKeepLogs(s: State, key: Key, write: Option<Object>, k: Key)
    requires Inv(s)
    ensures var log := LogOf(Next(s, Others(key, write)).logs, k);
            && LogOf(s.logs, k) <= log && LogOk(k, log) && Stamped(log, s.next, s.ca)
            && (OneEach(LogOf(s.logs, k)) ==> OneEach(log))
  {
    assert LogOk(k, LogOf(s.logs, k)) && Stamped(LogOf(s.logs, k), s.next, s.ca);
    if k == key {
      OthersKeepLog(key, LogOf(s.logs, key), write, s.next, s.ca);
    }
  }

  lemma OthersKeepInv(s: State, key: Key, write: Option<Object>)
    requires Inv(s)
    ensures Inv(Next(s, Others(key, write)))
    ensures Grows(s.logs, Next(s, Others(key, write)).logs)
  {
    var s' := Next(s, Others(key, write));
    forall k
      ensures LogOf(s.logs, k) <= LogOf(s'.logs, k)
      ensures LogOk(k, LogOf(s'.logs, k)) && Stamped(LogOf(s'.logs, k), s.next, s.ca)
    {
      OthersKeepLogs(s, key, write, k);
    }
    forall ns, name
      ensures OneEach(LogOf(s'.logs, NotebookKey(ns, name)))
    {
      assert OneEach(LogOf(s.logs, NotebookKey(ns, name)));
      OthersKeepLogs(s, key, write, NotebookKey(ns, name));
    }
    WorkersGrow(s, s');
  }

  lemma WorkersGrow(s: State, s': State)
    requires Inv(s) && Grows(s.logs, s'.logs) && s'.ca == s.ca && s.next <= s'.next
    ensures forall w :: w in s.workers ==> WorkerOk(s.workers[w], s')
  {
    forall w | w in s.workers
      ensures WorkerOk(s.workers[w], s')
    {
      WorkerOkGrows(s.workers[w], s, s');
    }
  }

  lemma ListedIsCopy(log: Log, ns: string, name: string, decoded: bool, mv: Move, tag: Tag)
    requires tag.ns == ns && tag.name == name
    ensures var found := ListNotebook(log, ns, name, decoded, mv);
            found.Known? ==>
              CopyOk(found.n, log, tag) && Unwritten(found.n, log) && Typeful(Normalized(found.n))
  {
    var found := ListNotebook(log, ns, name, decoded, mv);
    if found.Known? {
      assert Seen(log, found.n.rv) == Some(Get(log, mv).obj);
    }
  }

  lemma StartIsOk(found: Listed, logs: Logs, tag: Tag)
    requires var log := LogOf(logs, NotebookKey(tag.ns, tag.name));
             found.Known? ==> CopyOk(found.n, log, tag) && Unwritten(found.n, log) && Typeful(Normalized(found.n))
    ensures JobOk(Start(found, tag), logs, tag)
  {
    StartIsProper(found, tag);
    match found
    case Missing => ReconcilersOk(Tombstone(tag.ns, tag.name), logs, tag);
    case Unlisted(_) =>
    case Known(c) =>
      var n := Prepared(c);
      var log := LogOf(logs, NotebookKey(tag.ns, tag.name));
      assert CopyOk(n, log, tag) && Unwritten(n, log) && Typeful(n) && Readable(n);
      ReconcilersOk(n, logs, tag);
  }

  lemma BeginKeepsInv(s: State, w: nat, ns: string, name: string, decoded: bool, mv: Move)
    requires Inv(s)
    ensures Inv(Next(s, Begin(w, ns, name, decoded, mv)))
  {
    if Idle(s, w) {
      var s' := Next(s, Begin(w, ns, name, decoded, mv));
      var tag := Tag(s.next, s.ca, ns, name);
      var log := LogOf(s.logs, NotebookKey(ns, name));
      var found := ListNotebook(log, ns, name, decoded, mv);
      ListedIsCopy(log, ns, name, decoded, mv, tag);
      StartIsOk(found, s.logs, tag);
      assert Stamped(log, s.next, s.ca);
      WorkersGrow(s, s');
    }
  }

  lemma SyncLeavesHistory(log: Log, log': Log, tag: Tag, next: nat, ca: nat)
    requires Adds(log, log', tag) && tag.sync < next && tag.ca <= ca && Stamped(log, next, ca)
    ensures Stamped(log', next, ca)
  {
    assert forall i :: 0 <= i < |log| ==> log'[i] == log[i];
  }

  /** A call on the notebook that has an effect found the version the sync works on. */
  lemma NotebookWriteNeedsVersion(job: Job, logs: Logs, mv: Move, tag: Tag)
    requires Proper(job) && !job.Working? && mv.env == Nil
    ensures var key := NotebookKey(tag.ns, tag.name);
            LogOf(JobStep(job, logs, mv, tag).1, key) != LogOf(logs, key) ==>
              Condition(job) == Some(|LogOf(logs, key)|)
  {}

  /** A second effective write would need the version that the first one has replaced. */
  lemma SecondWriteConflicts(log: Log, log': Log, rv: nat, tag: Tag)
    requires Adds(log, log', tag) && OneEach(log)
    requires log' != log ==> rv == |log|
    requires forall i :: 0 <= i < |log| && log[i].author.Operator? && log[i].author.tag.sync == tag.sync ==> i >= rv
    ensures OneEach(log')
  {
    assert forall i :: 0 <= i < |log| ==> log'[i] == log[i];
  }

  lemma JobKeepsOneEach(job: Job, logs: Logs, mv: Move, tag: Tag)
    requires JobOk(job, logs, tag) && Proper(job) && mv.env == Nil
    requires JobStepOk(job, logs, mv, tag, JobStep(job, logs, mv, tag).0, JobStep(job, logs, mv, tag).1)
    requires var log := LogOf(logs, NotebookKey(tag.ns, tag.name)); WroteLater(job, log, tag) && OneEach(log)
    ensures OneEach(LogOf(JobStep(job, logs, mv, tag).1, NotebookKey(tag.ns, tag.name)))
  {
    var key := NotebookKey(tag.ns, tag.name);
    var log := LogOf(logs, key);
    var log' := LogOf(JobStep(job, logs, mv, tag).1, key);
    if !job.Working? {
      NotebookWriteNeedsVersion(job, logs, mv, tag);
      if Condition(job).Some? {
        SecondWriteConflicts(log, log', Condition(job).value, tag);
      }
    }
  }

  lemma StepKeepsLog(job: Job, logs: Logs, mv: Move, tag: Tag, job': Job, logs': Logs, k: Key)
    requires JobStepOk(job, logs, mv, tag, job', logs') && LogOk(k, LogOf(logs, k))
    ensures LogOf(logs, k) <= LogOf(logs', k) && LogOk(k, LogOf(logs', k))
  {}

  lemma StepKeepsStamps(job: Job, logs: Logs, mv: Move, tag: Tag, job': Job, logs': Logs, k: Key, next: nat, ca: nat)
    requires JobStepOk(job, logs, mv, tag, job', logs')
    requires Stamped(LogOf(logs, k), next, ca) && tag.sync < next && tag.ca <= ca
    ensures Stamped(LogOf(logs', k), next, ca)
  {
    if k == Touched(job, mv, tag) {
      SyncLeavesHistory(LogOf(logs, k), LogOf(logs', k), tag, next, ca);
    }
  }

  /** The step of a worker, as a step of its job. */
  lemma WorkIsOk(s: State, w: nat, mv: Move)
    requires Inv(s) && w in s.workers
    ensures var s' := Next(s, Work(w, mv));
            var Worker(tag, job) := s.workers[w];
            && s' == s.(logs := s'.logs, workers := s.workers[w := Worker(tag, s'.workers[w].job)])
            && (s'.workers[w].job, s'.logs) == JobStep(job, s.logs, Calm(mv), tag)
            && JobStepOk(job, s.logs, Calm(mv), tag, s'.workers[w].job, s'.logs)
  {
    var Worker(tag, job) := s.workers[w];
    assert WorkerOk(s.workers[w], s);
    JobStepIsOk(job, s.logs, Calm(mv), tag);
  }

  lemma StepKeepsOneEach(job: Job, logs: Logs, mv: Move, tag: Tag, key: Key)
    requires JobOk(job, logs, tag) && Proper(job) && mv.env == Nil && key.kind == NotebookKind
    requires forall k :: LogOk(k, LogOf(logs, k))
    requires WroteLater(job, LogOf(logs, NotebookKey(tag.ns, tag.name)), tag) && OneEach(LogOf(logs, key))
    ensures OneEach(LogOf(JobStep(job, logs, mv, tag).1, key))
  {
    JobStepIsOk(job, logs, mv, tag);
    if key == NotebookKey(tag.ns, tag.name) {
      JobKeepsOneEach(job, logs, mv, tag);
    } else {
      assert key != Touched(job, mv, tag);
    }
  }

  lemma WorkKeepsOneEach(s: State, w: nat, mv: Move, ns: string, name: string)
    requires Inv(s) && w in s.workers
    ensures OneEach(LogOf(Next(s, Work(w, mv)).logs, NotebookKey(ns, name)))
  {
    assert WorkerOk(s.workers[w], s) && OneEach(LogOf(s.logs, NotebookKey(ns, name)));
    StepKeepsOneEach(s.workers[w].job, s.logs, Calm(mv), s.workers[w].tag, NotebookKey(ns, name));
  }

  lemma WorkKeepsLogs(s: State, w: nat, mv: Move)
    requires Inv(s) && w in s.workers
    ensures var s' := Next(s, Work(w, mv));
            && Grows(s.logs, s'.logs)
            && (forall k :: LogOk(k, LogOf(s'.logs, k)))
            && (forall k :: Stamped(LogOf(s'.logs, k), s'.next, s'.ca))
  {
    var s' := Next(s, Work(w, mv));
    var Worker(tag, job) := s.workers[w];
    WorkIsOk(s, w, mv);
    assert WorkerOk(s.workers[w], s);
    forall k
      ensures LogOf(s.logs, k) <= LogOf(s'.logs, k) && LogOk(k, LogOf(s'.logs, k))
    {
      StepKeepsLog(job, s.logs, Calm(mv), tag, s'.workers[w].job, s'.logs, k);
    }
    forall k
      ensures Stamped(LogOf(s'.logs, k), s'.next, s'.ca)
    {
      StepKeepsStamps(job, s.logs, Calm(mv), tag, s'.workers[w].job, s'.logs, k, s.next, s.ca);
    }
  }

  lemma WorkKeepsWorkers(s: State, w: nat, mv: Move)
    requires Inv(s) && w in s.workers && Grows(s.logs, Next(s, Work(w, mv)).logs)
    ensures var s' := Next(s, Work(w, mv)); forall v :: v in s'.workers ==> WorkerOk(s'.workers[v], s')
  {
    var s' := Next(s, Work(w, mv));
    WorkIsOk(s, w, mv);
    WorkersGrow(s, s');
    assert WorkerOk(s.workers[w], s);
    WroteLaterGrows(s.workers[w].job, s.logs, s'.logs, s.workers[w].tag);
  }

  lemma WorkKeepsInv(s: State, w: nat, mv: Move)
    requires Inv(s)
    ensures Inv(Next(s, Work(w, mv)))
    ensures Grows(s.logs, Next(s, Work(w, mv)).logs)
  {
    if w in s.workers {
      WorkKeepsLogs(s, w, mv);
      WorkKeepsWorkers(s, w, mv);
      forall ns, name
        ensures OneEach(LogOf(Next(s, Work(w, mv)).logs, NotebookKey(ns, name)))
      {
        WorkKeepsOneEach(s, w, mv, ns, name);
      }
    }
  }

  lemma NextKeepsInv(s: State, c: Choice)
    requires Inv(s)
    ensures Inv(Next(s, c)) && Grows(s.logs, Next(s, c).logs)
  {
    match c
    case Others(key, write) => OthersKeepInv(s, key, write);
    case Restart =>
    case Begin(w, ns, name, decoded, mv) => BeginKeepsInv(s, w, ns, name, decoded, mv);
    case Work(w, mv) => WorkKeepsInv(s, w, mv);
  }

  lemma {:induction false} RunKeepsInv(choices: seq<Choice>)
    ensures Inv(Run(choices))
    decreases |choices|
  {
    if choices != [] {
      RunKeepsInv(choices[..|choices| - 1]);
      NextKeepsInv(Run(choices[..|choices| - 1]), choices[|choices| - 1]);
    }
  }
}
