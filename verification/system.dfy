/** The whole system: any number of workers whose syncs interleave action by action, lagging listers,
    failing calls, other writers, and restarts of the controller with a new CA. A run is a sequence of
    choices; every choice is possible in every state. */
module System {
  import opened Basics
  import opened NotebookTypes
  import opened Naming
  import opened Kube
  import opened Goroutine
  import opened Sync

  datatype Worker = Worker(tag: Tag, job: Job)

  /** `next` numbers the syncs. */
  datatype State = State(logs: Logs, ca: nat, next: nat, workers: map<nat, Worker>)

  /** `decoded`: whether the lister's struct carries its kind and API version. */
  datatype Choice =
    | Others(key: Key, write: Option<Object>)
    | Restart
    | Begin(worker: nat, ns: string, name: string, decoded: bool, mv: Move)
    | Work(worker: nat, mv: Move)

  /** Other writers have choices of their own here. */
  function Calm(mv: Move): Move {
    mv.(env := Nil)
  }

  function NotebookStruct(ns: string, name: string, decoded: bool, o: Object, rv: nat): Nb
    requires o.body.NotebookBody?
  {
    Nb(ns, name, if decoded then API_VERSION else "", if decoded then NOTEBOOK_KIND else "",
       o.body.uid, rv, o.meta, o.body.nbspec, o.body.phase)
  }

  function ListNotebook(log: Log, ns: string, name: string, decoded: bool, mv: Move): Listed {
    match Get(log, mv)
    case Broken(e) => Unlisted(e)
    case Absent => Missing
    case Found(o, rv) => if o.body.NotebookBody? then Known(NotebookStruct(ns, name, decoded, o, rv)) else Missing
  }

  ghost predicate ProperState(s: State) {
    forall w :: w in s.workers ==> Proper(s.workers[w].job)
  }

  predicate Idle(s: State, w: nat) {
    w !in s.workers || s.workers[w].job.Finished?
  }

  function Next(s: State, c: Choice): (r: State)
    requires ProperState(s)
    ensures ProperState(r)
  {
    match c
    case Others(key, write) =>
      s.(logs := s.logs[key := Interfere(key.kind, LogOf(s.logs, key), Cons(write, Nil))])
    case Restart => s.(ca := s.ca + 1, workers := map[])
    case Begin(w, ns, name, decoded, mv) =>
      if Idle(s, w) then
        var tag := Tag(s.next, s.ca, ns, name);
        var found := ListNotebook(LogOf(s.logs, NotebookKey(ns, name)), ns, name, decoded, mv);
        StartIsProper(found, tag);
        s.(next := s.next + 1, workers := s.workers[w := Worker(tag, Start(found, tag))])
      else s
    case Work(w, mv) =>
      if w in s.workers then
        var tag := s.workers[w].tag;
        JobStepIsProper(s.workers[w].job, s.logs, Calm(mv), tag);
        var (job, logs) := JobStep(s.workers[w].job, s.logs, Calm(mv), tag);
        s.(logs := logs, workers := s.workers[w := Worker(tag, job)])
      else s
  }

  const INITIAL := State(map[], 0, 0, map[])

  /** The state after a run; everything that exists before the first sync is written by `Others`. */
  function Run(choices: seq<Choice>): (s: State)
    ensures ProperState(s)
    decreases |choices|
  {
    if choices == [] then INITIAL
    else Next(Run(choices[..|choices| - 1]), choices[|choices| - 1])
  }

  // ---------- What holds of every entry the operator writes ----------

  predicate IsOwned(key: Key, tag: Tag) {
    key.kind != NotebookKind && key == OwnKey(key.kind, tag.ns, tag.name)
  }

  /** Labelled as managed, and owned by its notebook alone. */
  predicate IsMade(o: Object, tag: Tag) {
    && o.meta.labels == NotebookLabels(tag.name)
    && |o.meta.owners| == 1
    && o.meta.owners[0] == OwnerRef(API_VERSION, NOTEBOOK_KIND, tag.name, o.meta.owners[0].uid, true)
  }

  /** What an update carries over from the version it replaces. */
  predicate CarriesOver(before: Object, after: Object) {
    match (before.body, after.body)
    case (ServiceBody(_, _, a), ServiceBody(_, _, b)) => a == b
    case (StatefulSetBody(a, _), StatefulSetBody(b, _)) => a == b
    case (NotebookBody(u, _, p), NotebookBody(v, _, q)) => u == v && p == q
    case _ => true
  }

  /** Only the phase of the notebook changes, and never from a settled phase back to Pending. */
  predicate MovesPhase(before: Object, after: Object) {
    && before.body.NotebookBody? && after.body.NotebookBody?
    && after == before.(body := before.body.(phase := after.body.phase))
    && (after.body.phase == Pending ==> before.body.phase != Running && before.body.phase != Failed)
  }

  ghost predicate EntryOk(key: Key, i: nat, before: Option<Object>, e: Entry) {
    match e.author
    case Environment => true
    case Operator(tag, verb) =>
      match verb
      case Created => before.None? && e.obj.Some? && IsOwned(key, tag) && IsMade(e.obj.value, tag)
      case Updated(base) =>
        && base == i && before.Some? && e.obj.Some? && CarriesOver(before.value, e.obj.value)
        && (if key.kind == NotebookKind then key == NotebookKey(tag.ns, tag.name)
            else IsOwned(key, tag) && IsMade(e.obj.value, tag) && IsManaged(before.value.meta.labels))
      case Deleted =>
        && before.Some? && IsOwned(key, tag)
        && (e.obj.Some? ==>
              && key.kind == StatefulSetKind
              && e.obj.value == before.value.(meta := before.value.meta.(terminating := true)))
      case StatusSet(base) =>
        && base == i && key == NotebookKey(tag.ns, tag.name)
        && before.Some? && e.obj.Some? && MovesPhase(before.value, e.obj.value)
  }

  ghost predicate LogOk(key: Key, log: Log) {
    && Typed(key.kind, log)
    && forall i :: 0 <= i < |log| ==> EntryOk(key, i, Seen(log, i), log[i])
  }

  lemma LogOkAppend(key: Key, log: Log, e: Entry)
    requires LogOk(key, log) && EntryOk(key, |log|, Current(log), e)
    requires e.obj.Some? ==> KindOf(e.obj.value.body) == key.kind
    ensures LogOk(key, log + [e])
  {
    var after := log + [e];
    forall i | 0 <= i < |after|
      ensures EntryOk(key, i, Seen(after, i), after[i])
    {
      assert i < |log| ==> Seen(after, i) == Seen(log, i);
      assert Seen(after, |log|) == Current(log);
    }
  }

  // ---------- What holds of a goroutine in flight ----------

  /** A version of the StatefulSet that a lister could return had `target` ready replicas. */
  ghost predicate WasReady(own: Log, p: nat, target: int) {
    p <= |own| && Seen(own, p).Some? && Seen(own, p).value.body.StatefulSetBody?
    && Seen(own, p).value.body.ready == target
  }

  /** What it has adopted, if anything, is a managed version that a lister has shown it. */
  ghost predicate PlanOk(key: Key, want: Object, rv: nat, own: Log, tag: Tag) {
    && KindOf(want.body) == key.kind && IsMade(want, tag)
    && rv <= |own|
    && (rv == 0 && key.kind == StatefulSetKind ==> want.body.spec.replicas == 1)
    && (rv > 0 ==>
          && Seen(own, rv).Some?
          && IsManaged(Seen(own, rv).value.meta.labels)
          && KindOf(Seen(own, rv).value.body) == key.kind
          && CarriesOver(Seen(own, rv).value, want))
  }

  ghost predicate GoroOk(g: Goro, own: Log, tag: Tag) {
    && Sound(g) && IsOwned(g.key, tag)
    && (g.waits.ForSecret? ==> g.key.kind == IngressKind && g.waits.key.kind == SecretKind)
    && (g.plan.Keep? ==>
          && PlanOk(g.key, g.plan.want, g.plan.rv, own, tag)
          && (g.pc == Purge || g.pc == Vanish ==> g.key.kind == StatefulSetKind)
          && (g.pc == Read ==> g.plan.rv == 0)
          && (g.pc == Write ==> g.plan.rv > 0)
          && (g.key.kind == StatefulSetKind ==> g.waits == ForReady)
          && (g.key.kind == StatefulSetKind && g.pc == Done && g.err.None? ==>
                WasReady(own, g.polled, Target(g.plan))))
  }

  lemma GoroOkGrows(g: Goro, own: Log, own': Log, tag: Tag)
    requires GoroOk(g, own, tag) && own <= own'
    ensures GoroOk(g, own', tag)
  {
    assert forall i :: 0 <= i < |own| ==> own'[i] == own[i];
    if g.plan.Keep? && g.key.kind == StatefulSetKind && g.pc == Done && g.err.None? {
      assert WasReady(own', g.polled, Target(g.plan));
    }
  }

  /** At most one entry more, and that one by the sync `tag`. */
  ghost predicate Adds(log: Log, log': Log, tag: Tag) {
    log' == log
    || (|log'| == |log| + 1 && log <= log' && log'[|log|].author.Operator? && log'[|log|].author.tag == tag)
  }

  /** A step keeps the log in order and the goroutine in line with it. */
  ghost predicate StepOk(g: Goro, own: Log, tag: Tag, g': Goro, own': Log) {
    g'.key == g.key && GoroOk(g', own', tag) && LogOk(g.key, own') && Adds(own, own', tag)
  }

  lemma OnReadOk(g: Goro, own: Log, mv: Move, tag: Tag)
    requires GoroOk(g, own, tag) && LogOk(g.key, own) && g.pc == Read
    ensures StepOk(g, own, tag, OnRead(g, Get(own, mv), tag.ca), own)
  {
    var found := Get(own, mv);
    if found.Found? {
      assert Seen(own, found.rv) == Some(found.obj) && found.rv > 0;
      assert KindOf(own[found.rv - 1].obj.value.body) == g.key.kind;
    }
  }

  lemma ReturnOk(g: Goro, own: Log, own': Log, err: Option<Error>, tag: Tag)
    requires GoroOk(g, own, tag) && LogOk(g.key, own') && Adds(own, own', tag)
    ensures StepOk(g, own, tag, Return(g, err), own')
  {
    GoroOkGrows(Return(g, err), own, own', tag);
  }

  lemma WriteOk(g: Goro, own: Log, mv: Move, tag: Tag)
    requires GoroOk(g, own, tag) && LogOk(g.key, own) && g.pc == Write
    ensures StepOk(g, own, tag, Act(g, own, mv, tag).0, Act(g, own, mv, tag).1)
  {
    var r := Update(own, g.plan.want, g.plan.rv, tag, mv);
    if r.log != own {
      var merged := Merge(g.plan.want, Current(own).value);
      LogOkAppend(g.key, own, Entry(Some(merged), Operator(tag, Updated(g.plan.rv))));
    }
    ReturnOk(g, own, r.log, r.err, tag);
  }

  lemma MakeOk(g: Goro, own: Log, mv: Move, tag: Tag)
    requires GoroOk(g, own, tag) && LogOk(g.key, own) && g.pc == Make
    ensures StepOk(g, own, tag, Act(g, own, mv, tag).0, Act(g, own, mv, tag).1)
  {
    var r := Create(own, g.plan.want, tag, mv);
    if r.log != own {
      LogOkAppend(g.key, own, Entry(Some(Admit(g.plan.want, mv.ip)), Operator(tag, Created)));
    }
    ReturnOk(g, own, r.log, r.err, tag);
  }

  lemma DeleteOk(key: Key, own: Log, foreground: bool, mv: Move, tag: Tag)
    requires LogOk(key, own) && IsOwned(key, tag) && (foreground ==> key.kind == StatefulSetKind)
    ensures LogOk(key, Delete(own, foreground, tag, mv).log) && Adds(own, Delete(own, foreground, tag, mv).log, tag)
  {
    var r := Delete(own, foreground, tag, mv);
    if r.log != own {
      LogOkAppend(key, own, r.log[|own|]);
      assert r.log == own + [r.log[|own|]];
    }
  }

  lemma PurgeOk(g: Goro, own: Log, mv: Move, tag: Tag)
    requires GoroOk(g, own, tag) && LogOk(g.key, own) && g.pc == Purge
    ensures StepOk(g, own, tag, Act(g, own, mv, tag).0, Act(g, own, mv, tag).1)
  {
    DeleteOk(g.key, own, true, mv, tag);
    GoroOkGrows(Act(g, own, mv, tag).0, own, Act(g, own, mv, tag).1, tag);
  }

  lemma EraseOk(g: Goro, own: Log, mv: Move, tag: Tag)
    requires GoroOk(g, own, tag) && LogOk(g.key, own) && g.pc == Erase
    ensures StepOk(g, own, tag, Act(g, own, mv, tag).0, Act(g, own, mv, tag).1)
  {
    DeleteOk(g.key, own, false, mv, tag);
    var r := Delete(own, false, tag, mv);
    ReturnOk(g, own, r.log, r.err, tag);
  }

  lemma PollOk(g: Goro, own: Log, mv: Move, tag: Tag)
    requires GoroOk(g, own, tag) && LogOk(g.key, own) && (g.pc == Vanish || g.pc == Waiting)
    ensures StepOk(g, own, tag, Act(g, own, mv, tag).0, Act(g, own, mv, tag).1)
  {
    var found := Get(own, mv);
    if g.pc == Waiting && IsReady(found, Target(g.plan)) {
      assert WasReady(own, found.rv, Target(g.plan));
    }
  }

  lemma ActOk(g: Goro, own: Log, mv: Move, tag: Tag)
    requires GoroOk(g, own, tag) && LogOk(g.key, own) && g.pc != Returned && g.pc != Done
    ensures StepOk(g, own, tag, Act(g, own, mv, tag).0, Act(g, own, mv, tag).1)
  {
    match g.pc
    case Read => OnReadOk(g, own, mv, tag);
    case Write => WriteOk(g, own, mv, tag);
    case Make => MakeOk(g, own, mv, tag);
    case Purge => PurgeOk(g, own, mv, tag);
    case Erase => EraseOk(g, own, mv, tag);
    case _ => PollOk(g, own, mv, tag);
  }

  /** Others' writes never break a log. */
  lemma {:induction false} InterfereOk(key: Key, log: Log, env: List<Option<Object>>)
    requires LogOk(key, log)
    ensures LogOk(key, Interfere(key.kind, log, env))
    decreases env
  {
    match env
    case Nil =>
    case Cons(o, rest) =>
      if !(o.Some? && KindOf(o.value.body) != key.kind) && o != Current(log) {
        LogOkAppend(key, log, Entry(o, Environment));
        InterfereOk(key, log + [Entry(o, Environment)], rest);
      } else {
        InterfereOk(key, log, rest);
      }
  }

  lemma StepOnceOk(l: Local, mv: Move, tag: Tag)
    requires GoroOk(l.g, l.own, tag) && LogOk(l.g.key, l.own) && mv.env == Nil
    ensures StepOk(l.g, l.own, tag, StepOnce(l, mv, tag).g, StepOnce(l, mv, tag).own)
    ensures StepOnce(l, mv, tag).aux == l.aux && StepOnce(l, mv, tag).g.waits == l.g.waits
  {
    StepProgress(l, mv, tag);
    if l.g.pc != Returned && l.g.pc != Done && !(l.g.pc == Waiting && l.g.waits.ForSecret?) {
      ActOk(l.g, l.own, mv, tag);
    }
  }
}
