/** The safety guarantees of the operator, stated for every run. */
module Guarantees {
  import opened Basics
  import opened NotebookTypes
  import opened Naming
  import opened Kube
  import opened Goroutine
  import opened Interleaving
  import opened Sync
  import opened System
  import opened Safety
  import opened Lineage

  ghost predicate ByOperator(log: Log, i: nat) {
    i < |log| && log[i].author.Operator?
  }

  /** Versions are never lost or rewritten: a run only adds to the logs. */
  lemma {:induction false} HistoryIsKept(choices: seq<Choice>, more: seq<Choice>)
    ensures Grows(Run(choices).logs, Run(choices + more).logs)
    decreases |more|
  {
    if more == [] {
      assert choices + more == choices;
    } else {
      var before := more[..|more| - 1];
      assert (choices + more)[..|choices + more| - 1] == choices + before;
      HistoryIsKept(choices, before);
      RunKeepsInv(choices + before);
      NextKeepsInv(Run(choices + before), more[|more| - 1]);
      var a, b, c := Run(choices).logs, Run(choices + before).logs, Run(choices + more).logs;
      assert Grows(a, b) && Grows(b, c);
      forall k
        ensures LogOf(a, k) <= LogOf(c, k)
      {
        assert LogOf(a, k) <= LogOf(b, k) && LogOf(b, k) <= LogOf(c, k);
      }
    }
  }

  /** No lost update: an update of an owned object replaces exactly the version the lister had returned
      to the sync, that version was managed, and afterwards the object is managed, carries the label of
      its notebook and has that notebook, by name and by a UID it has had, as its only owner. A creation
      replaces nothing. */
  lemma NoLostUpdate(choices: seq<Choice>, key: Key, i: nat)
    requires key.kind != NotebookKind
    requires ByOperator(LogOf(Run(choices).logs, key), i)
    ensures var log := LogOf(Run(choices).logs, key);
            var e := log[i];
            && (e.author.verb.Updated? ==>
                  && e.author.verb.base == i
                  && Seen(log, i).Some? && ManagedBy in Seen(log, i).value.meta.labels
                  && Seen(log, i).value.meta.labels[ManagedBy] == "jupyter-operator")
            && (e.author.verb.Created? ==> Seen(log, i).None?)
            && (e.author.verb.Updated? || e.author.verb.Created? ==>
                  && e.obj.Some?
                  && e.obj.value.meta.labels == map[ManagedBy := "jupyter-operator", NotebookLabel := e.author.tag.name]
                  && |e.obj.value.meta.owners| == 1 && e.obj.value.meta.owners[0].controller
                  && e.obj.value.meta.owners[0].kind == "Notebook"
                  && e.obj.value.meta.owners[0].apiVersion == "jupyter.squat.ai/v1"
                  && e.obj.value.meta.owners[0].name == e.author.tag.name
                  && HadUid(LogOf(Run(choices).logs, NotebookKey(e.author.tag.ns, e.author.tag.name)),
                            e.obj.value.meta.owners[0].uid))
  {
    RunKeepsInv(choices);
    RunKeepsLineage(choices);
    assert LineageOk(Run(choices).logs, key);
    var log := LogOf(Run(choices).logs, key);
    assert LogOk(key, log);
    assert EntryOk(key, i, Seen(log, i), log[i]);
    NamesAre(log[i].author.tag.name);
  }

  /** Between versions `i` and `j` lies a deletion, or somebody else's write. */
  ghost predicate Interrupted(log: Log, i: nat, j: nat)
    requires i < j < |log|
  {
    exists m :: i < m <= j && (log[m].obj.None? || log[m].author == Environment)
  }

  lemma {:induction false} UninterruptedCarriesOver(key: Key, log: Log, i: nat, j: nat)
    requires key.kind != NotebookKind && LogOk(key, log)
    requires i < j < |log| && log[i].obj.Some? && !Interrupted(log, i, j)
    ensures log[j].obj.Some? && CarriesOver(log[i].obj.value, log[j].obj.value)
    decreases j
  {
    assert EntryOk(key, j, Seen(log, j), log[j]);
    assert log[j].obj.Some? && log[j].author.Operator?;
    assert KindOf(log[i].obj.value.body) == KindOf(log[j].obj.value.body) == key.kind;
    if j > i + 1 {
      assert !Interrupted(log, i, j - 1);
      UninterruptedCarriesOver(key, log, i, j - 1);
      assert KindOf(log[j - 1].obj.value.body) == key.kind;
    }
  }

  /** The cluster IP of a Service and the whole spec, template included, of a StatefulSet are never
      changed by an operator write, whatever the cache lag: they differ between two versions only if
      the object was deleted in between or somebody else wrote it. */
  lemma PinnedFieldsStay(choices: seq<Choice>, key: Key, i: nat, j: nat)
    requires i < j < |LogOf(Run(choices).logs, key)|
    requires var log := LogOf(Run(choices).logs, key);
             log[i].obj.Some? && !Interrupted(log, i, j)
    ensures var log := LogOf(Run(choices).logs, key);
            && log[j].obj.Some?
            && (key.kind == ServiceKind ==>
                  && log[i].obj.value.body.ServiceBody? && log[j].obj.value.body.ServiceBody?
                  && log[i].obj.value.body.clusterIP == log[j].obj.value.body.clusterIP)
            && (key.kind == StatefulSetKind ==>
                  && log[i].obj.value.body.StatefulSetBody? && log[j].obj.value.body.StatefulSetBody?
                  && log[i].obj.value.body.spec == log[j].obj.value.body.spec)
  {
    RunKeepsInv(choices);
    var log := LogOf(Run(choices).logs, key);
    assert LogOk(key, log);
    assert log[j].obj.Some?;
    assert KindOf(log[i].obj.value.body) == KindOf(log[j].obj.value.body) == key.kind;
    if key.kind != NotebookKind {
      UninterruptedCarriesOver(key, log, i, j);
    }
  }

  /** A StatefulSet whose spec the operator set anew was absent just before. */
  lemma NewTemplateOnlyByCreation(choices: seq<Choice>, key: Key, i: nat)
    requires key.kind == StatefulSetKind && ByOperator(LogOf(Run(choices).logs, key), i)
    requires var log := LogOf(Run(choices).logs, key);
             log[i].obj.Some? && Seen(log, i).Some?
    ensures var log := LogOf(Run(choices).logs, key);
            && !log[i].author.verb.Created?
            && log[i].obj.value.body.StatefulSetBody? && Seen(log, i).value.body.StatefulSetBody?
            && log[i].obj.value.body.spec == Seen(log, i).value.body.spec
  {
    RunKeepsInv(choices);
    var log := LogOf(Run(choices).logs, key);
    assert LogOk(key, log);
    assert EntryOk(key, i, Seen(log, i), log[i]);
    assert Seen(log, i) == log[i - 1].obj;
  }

  /** The phase of a notebook: an operator write never goes from Running or Failed to Pending, a status
      write changes nothing but the phase, and a spec write leaves the phase alone. */
  lemma PhaseTransitions(choices: seq<Choice>, ns: string, name: string, i: nat)
    requires ByOperator(LogOf(Run(choices).logs, NotebookKey(ns, name)), i)
    ensures var log := LogOf(Run(choices).logs, NotebookKey(ns, name));
            && Seen(log, i).Some? && log[i].obj.Some?
            && var before, after := Seen(log, i).value, log[i].obj.value;
            && before.body.NotebookBody? && after.body.NotebookBody?
            && (after.body.phase == Pending && before.body.phase != Pending ==>
                  before.body.phase != Running && before.body.phase != Failed)
            && (log[i].author.verb.StatusSet? ==> after.meta == before.meta && after.body.nbspec == before.body.nbspec)
            && (log[i].author.verb.Updated? ==> after.body.phase == before.body.phase)
  {
    RunKeepsInv(choices);
    var key := NotebookKey(ns, name);
    var log := LogOf(Run(choices).logs, key);
    assert LogOk(key, log);
    assert EntryOk(key, i, Seen(log, i), log[i]);
    assert Seen(log, i).Some? ==> Seen(log, i) == log[i - 1].obj;
  }

  ghost predicate SetsRunning(log: Log, log': Log) {
    |log'| > |log| && ByOperator(log', |log|) && log'[|log|].author.verb.StatusSet?
    && log'[|log|].obj.Some? && log'[|log|].obj.value.body.NotebookBody?
    && log'[|log|].obj.value.body.phase == Running
  }

  lemma StatusCallSetsItsPhase(log: Log, rv: nat, phase: Phase, mv: Move, tag: Tag)
    requires mv.env == Nil && SetsRunning(log, StatusCall(log, rv, phase, mv, tag).log)
    ensures phase == Running
  {}

  lemma JobSetsRunning(job: Job, logs: Logs, mv: Move, tag: Tag)
    requires Proper(job) && mv.env == Nil && !job.Working?
    requires var key := NotebookKey(tag.ns, tag.name);
             SetsRunning(LogOf(logs, key), LogOf(JobStep(job, logs, mv, tag).1, key))
    ensures job.Concluding? && JoinedError(job.slots).None?
  {
    var log := LogOf(logs, NotebookKey(tag.ns, tag.name));
    match job
    case Rejecting(n, _) => StatusCallSetsItsPhase(log, n.rv, Failed, mv, tag);
    case Announcing(n) => StatusCallSetsItsPhase(log, n.rv, Pending, mv, tag);
    case Concluding(n, slots) => StatusCallSetsItsPhase(log, n.rv, FinalPhase(JoinedError(slots)), mv, tag);
    case _ =>
  }

  /** A notebook is set to Running only by a sync all of whose four reconcilers returned nil. */
  lemma RunningOnlyAfterSuccess(choices: seq<Choice>, c: Choice, ns: string, name: string)
    ensures var s := Run(choices);
            var key := NotebookKey(ns, name);
            SetsRunning(LogOf(s.logs, key), LogOf(Next(s, c).logs, key)) ==>
              && c.Work? && c.worker in s.workers && s.workers[c.worker].job.Concluding?
              && |s.workers[c.worker].job.slots| == 4
              && forall i :: 0 <= i < 4 ==> s.workers[c.worker].job.slots[i].None?
  {
    RunKeepsInv(choices);
    var s := Run(choices);
    var key := NotebookKey(ns, name);
    match c
    case Others(k, write) => OthersWrite(k.kind, LogOf(s.logs, k), write);
    case Work(w, mv) =>
      if w in s.workers {
        WorkerSetsRunning(s, w, mv, key);
        if s.workers[w].job.Concluding? {
          JoinErrorsNil(s.workers[w].job.slots, {});
        }
      }
    case _ =>
  }

  lemma WorkerSetsRunning(s: State, w: nat, mv: Move, key: Key)
    requires Inv(s) && w in s.workers && key.kind == NotebookKind
    ensures var job := s.workers[w].job;
            SetsRunning(LogOf(s.logs, key), LogOf(Next(s, Work(w, mv)).logs, key)) ==>
              job.Concluding? && |job.slots| == 4 && JoinedError(job.slots).None?
  {
    var Worker(tag, job) := s.workers[w];
    assert WorkerOk(s.workers[w], s);
    assert job.Working? ==> forall i :: 0 <= i < 4 ==> job.gs[i].key.kind != NotebookKind;
    JobStepIsOk(job, s.logs, Calm(mv), tag);
    if !job.Working? && SetsRunning(LogOf(s.logs, key), LogOf(Next(s, Work(w, mv)).logs, key)) {
      JobSetsRunning(job, s.logs, Calm(mv), tag);
    }
  }

  /** The slots that decide are those of four finished goroutines. */
  lemma ConcludingMeansDone(job: Job, logs: Logs, mv: Move, tag: Tag)
    requires Proper(job) && !job.Concluding? && JobStep(job, logs, mv, tag).0.Concluding?
    ensures job.Working? && !job.gone && AllGoroutinesDone(job.gs)
    ensures JobStep(job, logs, mv, tag).0.slots == Slots(job.gs)
  {}

  /** No sync has more than one effective write to its notebook: the copy keeps the ResourceVersion that
      its first write uses up. */
  lemma OneEffectiveWrite(choices: seq<Choice>, ns: string, name: string, i: nat, j: nat)
    requires var log := LogOf(Run(choices).logs, NotebookKey(ns, name)); ByOperator(log, i) && ByOperator(log, j)
    requires var log := LogOf(Run(choices).logs, NotebookKey(ns, name));
             log[i].author.tag.sync == log[j].author.tag.sync
    ensures i == j
  {
    RunKeepsInv(choices);
    assert OneEach(LogOf(Run(choices).logs, NotebookKey(ns, name)));
  }

  function FootprintOf(ns: string, name: string): set<Key> {
    {NotebookKey(ns, name), OwnKey(ServiceKind, ns, name), OwnKey(SecretKind, ns, name),
     OwnKey(StatefulSetKind, ns, name), OwnKey(IngressKind, ns, name)}
  }

  lemma FootprintsAreDisjoint(a: (string, string), b: (string, string))
    requires a != b
    ensures FootprintOf(a.0, a.1) !! FootprintOf(b.0, b.1)
  {
    if a.0 == b.0 && ResourceName(a.1) == ResourceName(b.1) {
      ResourceNameInjective(a.1, b.1);
    }
  }

  /** Whatever the operator writes for a notebook, it writes inside that notebook's own footprint; so on
      the objects of one notebook there is never an entry by a sync of another. */
  lemma SyncsStayInTheirFootprint(choices: seq<Choice>, key: Key, i: nat, ns: string, name: string)
    requires ByOperator(LogOf(Run(choices).logs, key), i)
    ensures var tag := LogOf(Run(choices).logs, key)[i].author.tag;
            key in FootprintOf(tag.ns, tag.name) && (key in FootprintOf(ns, name) <==> tag.ns == ns && tag.name == name)
  {
    RunKeepsInv(choices);
    var log := LogOf(Run(choices).logs, key);
    assert LogOk(key, log);
    assert EntryOk(key, i, Seen(log, i), log[i]);
    var tag := log[i].author.tag;
    if (tag.ns, tag.name) != (ns, name) {
      FootprintsAreDisjoint((tag.ns, tag.name), (ns, name));
    }
  }

  /** A wait succeeds on what the lister answers it, and that is the version it records. */
  lemma WaitRecordsItsAnswer(l: Local, mv: Move, tag: Tag)
    requires l.g.pc == Waiting && l.g.waits == ForReady
    ensures var e := StepOnce(l, mv, tag);
            e.g.pc == Done && e.g.err.None? <==>
              var answer := Get(e.own, mv);
              IsReady(answer, Target(l.g.plan)) && e.g == l.g.(pc := Done, err := None, polled := answer.rv)
  {}

  /** The wait of a StatefulSet reconciler that succeeded got from the lister a version with as many ready
      replicas as the object it shares with the reconcile closure then asked for: those of the adopted spec
      if it adopted one, and 1 if it created its own. */
  lemma ReadinessFollowsAdoption(choices: seq<Choice>, w: nat, i: nat)
    requires w in Run(choices).workers
    requires var job := Run(choices).workers[w].job;
             job.Working? && i < |job.gs| && job.gs[i].key.kind == StatefulSetKind
             && job.gs[i].plan.Keep? && job.gs[i].pc == Done && job.gs[i].err.None?
    ensures var g := Run(choices).workers[w].job.gs[i];
            var own := LogOf(Run(choices).logs, g.key);
            && g.plan.want.body.StatefulSetBody?
            && WasReady(own, g.polled, g.plan.want.body.spec.replicas)
            && (if g.plan.rv == 0 then g.plan.want.body.spec.replicas == 1
                else && g.plan.rv <= |own| && Seen(own, g.plan.rv).Some?
                     && Seen(own, g.plan.rv).value.body.StatefulSetBody?
                     && g.plan.want.body.spec == Seen(own, g.plan.rv).value.body.spec)
  {
    RunKeepsInv(choices);
    var s := Run(choices);
    assert WorkerOk(s.workers[w], s);
    var g := s.workers[w].job.gs[i];
    assert GoroOk(g, LogOf(s.logs, g.key), s.workers[w].tag);
  }
}
