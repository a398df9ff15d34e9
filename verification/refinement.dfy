/** The whole sync that the imperative controller performs is one run of the system: what is guaranteed for
    every run is guaranteed for it. */
module Refinement {
  import opened Basics
  import opened NotebookTypes
  import opened Naming
  import opened Kube
  import opened Goroutine
  import opened Interleaving
  import opened Sync
  import opened System
  import opened Safety
  import opened Guarantees

  // ---------- A sync as a run of its machine ----------

  function JobRun(job: Job, logs: Logs, moves: seq<Move>, tag: Tag): (Job, Logs)
    requires Proper(job)
    decreases |moves|
  {
    if moves == [] then (job, logs)
    else
      JobStepIsProper(job, logs, moves[0], tag);
      var (job', logs') := JobStep(job, logs, moves[0], tag);
      JobRun(job', logs', moves[1..], tag)
  }

  lemma {:induction false} JobRunIsProper(job: Job, logs: Logs, moves: seq<Move>, tag: Tag)
    requires Proper(job)
    ensures Proper(JobRun(job, logs, moves, tag).0)
    decreases |moves|
  {
    if moves != [] {
      JobStepIsProper(job, logs, moves[0], tag);
      var (job', logs') := JobStep(job, logs, moves[0], tag);
      JobRunIsProper(job', logs', moves[1..], tag);
    }
  }

  lemma {:induction false} JobRunAppend(job: Job, logs: Logs, a: seq<Move>, b: seq<Move>, tag: Tag)
    requires Proper(job)
    ensures Proper(JobRun(job, logs, a, tag).0)
    ensures JobRun(job, logs, a + b, tag) == JobRun(JobRun(job, logs, a, tag).0, JobRun(job, logs, a, tag).1, b, tag)
    decreases |a|
  {
    if a == [] {
      assert a + b == b;
    } else {
      assert (a + b)[1..] == a[1..] + b;
      JobStepIsProper(job, logs, a[0], tag);
      var (job', logs') := JobStep(job, logs, a[0], tag);
      JobRunAppend(job', logs', a[1..], b, tag);
    }
  }

  /** The moves with which goroutine `i` runs to its end. */
  function FinishMoves(t: Thread, i: nat, tag: Tag): seq<Move>
    requires Sound(t.l.g)
    decreases t.script, Rank(t.l.g.pc)
  {
    if t.l.g.pc == Done then []
    else
      StepProgress(t.l, Head(t.script), tag);
      StepProgress(t.l, QUIET, tag);
      var mv := if t.l.g.pc == Returned then QUIET else Head(t.script);
      [mv.(who := i)] + FinishMoves(Advance(t, tag), i, tag)
  }

  lemma StepIgnoresWho(l: Local, mv: Move, i: nat, tag: Tag)
    ensures StepOnce(l, mv.(who := i), tag) == StepOnce(l, mv, tag)
  {}

  lemma OneTick(n: Nb, gone: bool, gs: seq<Goro>, i: nat, script: List<Move>, logs: Logs, tag: Tag)
    requires Proper(Working(n, gone, gs)) && i < |gs| && gs[i].pc != Done
    ensures var t := ViewOf(Runner(gs[i], script), logs);
            var mv := if gs[i].pc == Returned then QUIET else Head(script);
            var u := Advance(t, tag);
            && JobStep(Working(n, gone, gs), logs, mv.(who := i), tag) == (Working(n, gone, gs[i := u.l.g]), Store(logs, u.l))
            && ViewOf(Runner(u.l.g, u.script), Store(logs, u.l)).l.g == u.l.g
            && Proper(Working(n, gone, gs[i := u.l.g]))
  {
    var t := ViewOf(Runner(gs[i], script), logs);
    StepIgnoresWho(t.l, if gs[i].pc == Returned then QUIET else Head(script), i, tag);
    AdvanceKeepsZone(t, tag);
  }

  lemma StoreTwice(logs: Logs, a: Local, b: Local)
    requires a.g.key == b.g.key && a.g.waits == b.g.waits
    ensures Store(Store(logs, a), b) == Store(logs, b)
  {}

  lemma ViewAfterStore(g: Goro, logs: Logs, u: Thread)
    requires u.l.g.key == g.key && u.l.g.waits == g.waits && g.waits != ForSecret(g.key)
    requires !g.waits.ForSecret? ==> u.l.aux == []
    ensures ViewOf(Runner(u.l.g, u.script), Store(logs, u.l)) == u
  {}

  /** One goroutine, from wherever it stands to its end. */
  lemma {:induction false} FinishIsARun(n: Nb, gone: bool, gs: seq<Goro>, i: nat, script: List<Move>, logs: Logs, tag: Tag)
    requires Proper(Working(n, gone, gs)) && i < |gs| && gs[i].pc != Done && gs[i].waits != ForSecret(gs[i].key)
    ensures var t := ViewOf(Runner(gs[i], script), logs);
            var e := Finish(t, tag);
            JobRun(Working(n, gone, gs), logs, FinishMoves(t, i, tag), tag)
            == (Working(n, gone, gs[i := e.l.g]), Store(logs, e.l))
    decreases script, Rank(gs[i].pc)
  {
    var t := ViewOf(Runner(gs[i], script), logs);
    var u := Advance(t, tag);
    OneTick(n, gone, gs, i, script, logs, tag);
    StepProgress(t.l, Head(t.script), tag);
    StepProgress(t.l, QUIET, tag);
    AdvanceKeepsZone(t, tag);
    FinishUnrolls(t, tag);
    var moves := FinishMoves(t, i, tag);
    assert moves[1..] == FinishMoves(u, i, tag);
    var gs1, logs1 := gs[i := u.l.g], Store(logs, u.l);
    assert JobRun(Working(n, gone, gs), logs, moves, tag) == JobRun(Working(n, gone, gs1), logs1, moves[1..], tag);
    if u.l.g.pc != Done {
      ViewAfterStore(gs[i], logs, u);
      FinishIsARun(n, gone, gs1, i, u.script, logs1, tag);
      StoreTwice(logs, u.l, Finish(u, tag).l);
      assert gs1[i := Finish(u, tag).l.g] == gs[i := Finish(u, tag).l.g];
    }
  }

  function Goros(rs: seq<Runner>): seq<Goro> {
    seq(|rs|, i requires 0 <= i < |rs| => rs[i].g)
  }

  /** All goroutines, in list order. */
  lemma {:induction false} InOrderIsARun(n: Nb, gone: bool, rs: seq<Runner>, logs: Logs, from: nat, tag: Tag)
    returns (moves: seq<Move>)
    requires from <= |rs| && Proper(Working(n, gone, Goros(rs)))
    requires forall i :: 0 <= i < |rs| ==> Sound(rs[i].g) && rs[i].g.waits != ForSecret(rs[i].g.key)
    requires forall i :: from <= i < |rs| ==> rs[i].g.pc != Done
    ensures var (rs', logs') := InOrder(rs, logs, from, tag);
            JobRun(Working(n, gone, Goros(rs)), logs, moves, tag) == (Working(n, gone, Goros(rs')), logs')
    decreases |rs| - from
  {
    if from == |rs| {
      return [];
    }
    var t := ViewOf(rs[from], logs);
    var e := Finish(t, tag);
    var gs := Goros(rs);
    assert gs[from] == rs[from].g;
    FinishIsARun(n, gone, gs, from, rs[from].script, logs, tag);
    var rs1 := rs[from := Runner(e.l.g, e.script)];
    assert Goros(rs1) == gs[from := e.l.g];
    assert forall i :: 0 <= i < |rs1| ==> Goros(rs1)[i] == rs1[i].g;
    var rest := InOrderIsARun(n, gone, rs1, Store(logs, e.l), from + 1, tag);
    JobRunAppend(Working(n, gone, gs), logs, FinishMoves(t, from, tag), rest, tag);
    moves := FinishMoves(t, from, tag) + rest;
  }

  lemma RunnersAreReconcilers(n: Nb, scripts: seq<List<Move>>, tag: Tag)
    requires Readable(n) && |scripts| == 4
    ensures Goros(Runners(n, scripts, tag)) == Reconcilers(n, tag)
    ensures forall i :: 0 <= i < 4 ==> Runners(n, scripts, tag)[i].g.pc != Done
  {
    var rs, gs := Runners(n, scripts, tag), Reconcilers(n, tag);
    assert rs[0].g == gs[0] && rs[1].g == gs[1] && rs[2].g == gs[2] && rs[3].g == gs[3];
  }

  /** The reconcile of a sync, up to the slots it leaves. */
  lemma ReconcileIsARun(n: Nb, gone: bool, logs: Logs, scripts: seq<List<Move>>, tag: Tag)
    returns (moves: seq<Move>, slots: seq<Option<Error>>)
    requires Readable(n) && |scripts| == 4
    ensures Proper(Working(n, gone, Reconcilers(n, tag)))
    ensures JoinedError(slots) == Reconciled(n, logs, scripts, tag).err
    ensures JobRun(Working(n, gone, Reconcilers(n, tag)), logs, moves, tag)
         == (Conclude(n, gone, slots), Reconciled(n, logs, scripts, tag).logs)
  {
    var rs := Runners(n, scripts, tag);
    RunnersApart(n, scripts, tag);
    RunnersAreReconcilers(n, scripts, tag);
    var run := InOrderIsARun(n, gone, rs, logs, 0, tag);
    var (rs', logs') := InOrder(rs, logs, 0, tag);
    InOrderFinishes(rs, logs, 0, tag);
    slots := Errors(rs');
    assert Slots(Goros(rs')) == slots;
    JobRunAppend(Working(n, gone, Reconcilers(n, tag)), logs, run, [QUIET], tag);
    LastTick(n, gone, Goros(rs'), logs', tag);
    moves := run + [QUIET];
  }

  lemma LastTick(n: Nb, gone: bool, gs: seq<Goro>, logs: Logs, tag: Tag)
    requires Proper(Working(n, gone, gs)) && AllGoroutinesDone(gs)
    ensures JobRun(Working(n, gone, gs), logs, [QUIET], tag) == (Conclude(n, gone, Slots(gs)), logs)
  {
    SingleMove(Working(n, gone, gs), logs, QUIET, tag);
  }

  lemma SingleMove(job: Job, logs: Logs, mv: Move, tag: Tag)
    requires Proper(job)
    ensures JobRun(job, logs, [mv], tag) == JobStep(job, logs, mv, tag)
  {
    JobStepIsProper(job, logs, mv, tag);
    assert [mv][1..] == [];
  }

  /** From the start of the goroutines to the end of the sync. */
  lemma WorkIsARun(n: Nb, logs: Logs, scripts: seq<List<Move>>, main: List<Move>, tag: Tag) returns (moves: seq<Move>)
    requires Readable(n) && |scripts| == 4
    ensures Proper(Working(n, false, Reconcilers(n, tag)))
    ensures var r := Ending(n, Reconciled(n, logs, scripts, tag), main, tag);
            JobRun(Working(n, false, Reconcilers(n, tag)), logs, moves, tag) == (Finished(r.err), r.logs)
  {
    var run, slots := ReconcileIsARun(n, false, logs, scripts, tag);
    var logs' := Reconciled(n, logs, scripts, tag).logs;
    JobRunAppend(Working(n, false, Reconcilers(n, tag)), logs, run, [Head(main)], tag);
    if n.phase == FinalPhase(JoinedError(slots)) {
      return run;
    }
    SingleMove(Concluding(n, slots), logs', Head(main), tag);
    moves := run + [Head(main)];
  }

  lemma LiveIsARun(n: Nb, logs: Logs, luck: Luck, tag: Tag) returns (moves: seq<Move>)
    requires Readable(n) && |luck.scripts| == 4
    ensures var start := if n.phase != Running && n.phase != Failed && n.phase != Pending then Announcing(n)
                         else Working(n, false, Reconcilers(n, tag));
            var r := Live(n, logs, luck, tag);
            Proper(start) && JobRun(start, logs, moves, tag) == (Finished(r.err), r.logs)
  {
    var w := SetPhase(logs, luck.main, n.rv, n.phase, Announced(n).phase, tag);
    moves := WorkIsARun(Announced(n), w.logs, luck.scripts, w.main, tag);
    if n.phase != Running && n.phase != Failed && n.phase != Pending {
      SingleMove(Announcing(n), logs, Head(luck.main), tag);
      JobRunAppend(Announcing(n), logs, [Head(luck.main)], moves, tag);
      moves := [Head(luck.main)] + moves;
    } else {
      assert Announced(n) == n;
    }
  }

  /** Every whole sync is a run of the sync machine. */
  lemma SyncIsARun(found: Listed, logs: Logs, luck: Luck, tag: Tag) returns (moves: seq<Move>)
    requires |luck.scripts| == 4
    ensures var r := SyncOnce(found, logs, luck, tag);
            Proper(Start(found, tag)) && JobRun(Start(found, tag), logs, moves, tag) == (Finished(r.err), r.logs)
  {
    StartIsProper(found, tag);
    match found
    case Unlisted(_) => moves := [];
    case Missing =>
      var slots;
      moves, slots := ReconcileIsARun(Tombstone(tag.ns, tag.name), true, logs, luck.scripts, tag);
    case Known(c) =>
      if Validate(c.spec).Some? {
        moves := if c.phase == Failed then [] else [Head(luck.main)];
        SingleMove(Rejecting(c, Validate(c.spec).value), logs, Head(luck.main), tag);
      } else if Prepared(c).spec != c.spec {
        moves := [Head(luck.main)];
        SingleMove(Defaulting(Prepared(c)), logs, Head(luck.main), tag);
      } else {
        moves := LiveIsARun(Prepared(c), logs, luck, tag);
      }
  }

  // ---------- ... and so a run of the system ----------

  function RunFrom(s: State, choices: seq<Choice>): (r: State)
    requires ProperState(s)
    ensures ProperState(r)
    decreases |choices|
  {
    if choices == [] then s else RunFrom(Next(s, choices[0]), choices[1..])
  }

  lemma {:induction false} RunAppend(before: seq<Choice>, more: seq<Choice>)
    ensures Run(before + more) == RunFrom(Run(before), more)
    decreases |more|
  {
    if more == [] {
      assert before + more == before;
    } else {
      assert before + more == (before + [more[0]]) + more[1..];
      assert (before + [more[0]])[..|before|] == before;
      RunAppend(before + [more[0]], more[1..]);
    }
  }

  lemma {:induction false} RunFromAppend(s: State, a: seq<Choice>, b: seq<Choice>)
    requires ProperState(s)
    ensures RunFrom(s, a + b) == RunFrom(RunFrom(s, a), b)
    decreases |a|
  {
    if a == [] {
      assert a + b == b;
    } else {
      assert (a + b)[1..] == a[1..] + b;
      RunFromAppend(Next(s, a[0]), a[1..], b);
    }
  }

  /** The key that others may write to before a step. */
  function Exposed(job: Job, mv: Move, tag: Tag): Key {
    if job.Working? && mv.who < |job.gs| then
      var g := job.gs[mv.who];
      if g.pc == Waiting && g.waits.ForSecret? then g.waits.key else g.key
    else NotebookKey(tag.ns, tag.name)
  }

  /** Goroutines wait for Secrets other than their own object; a step keeps it. */
  ghost predicate Regular(job: Job) {
    && Proper(job)
    && (job.Working? ==> forall i :: 0 <= i < |job.gs| ==>
          && job.gs[i].waits != ForSecret(job.gs[i].key)
          && (job.gs[i].waits.ForSecret? ==> job.gs[i].waits.key.kind == SecretKind))
  }

  /** A step that makes a call can be told apart from what others do before it. */
  predicate Calls(job: Job, mv: Move) {
    match job
    case Finished(_) => false
    case Working(_, _, gs) =>
      !AllGoroutinesDone(gs) && mv.who < |gs| && gs[mv.who].pc != Done && gs[mv.who].pc != Returned
    case _ => true
  }

  function Written(logs: Logs, key: Key, env: List<Option<Object>>): Logs {
    logs[key := Interfere(key.kind, LogOf(logs, key), env)]
  }

  lemma InterfereNil(kind: Kind, log: Log)
    ensures Interfere(kind, log, Nil) == log
  {}

  lemma ActIsCalm(g: Goro, log: Log, mv: Move, tag: Tag)
    ensures Act(g, log, Calm(mv), tag) == Act(g, log, mv, tag)
  {}

  lemma OwnCallApart(l: Local, mv: Move, tag: Tag)
    requires l.g.pc != Done && l.g.pc != Returned && !(l.g.pc == Waiting && l.g.waits.ForSecret?)
    ensures StepOnce(l.(own := Interfere(l.g.key.kind, l.own, mv.env)), Calm(mv), tag) == StepOnce(l, mv, tag)
  {
    var log := Interfere(l.g.key.kind, l.own, mv.env);
    InterfereNil(l.g.key.kind, log);
    ActIsCalm(l.g, log, mv, tag);
  }

  lemma AuxCallApart(l: Local, mv: Move, tag: Tag)
    requires l.g.pc == Waiting && l.g.waits.ForSecret?
    ensures StepOnce(l.(aux := Interfere(SecretKind, l.aux, mv.env)), Calm(mv), tag) == StepOnce(l, mv, tag)
  {
    InterfereNil(SecretKind, Interfere(SecretKind, l.aux, mv.env));
  }

  /** Storing a goroutine's zone overwrites what others wrote in it. */
  lemma StoreCovers(logs: Logs, key: Key, log: Log, l: Local)
    requires key in Zone(l.g)
    ensures Store(logs[key := log], l) == Store(logs, l)
  {}

  lemma GoroutineCallApart(g: Goro, logs: Logs, mv: Move, tag: Tag)
    requires Sound(g) && g.pc != Done && g.pc != Returned && g.waits != ForSecret(g.key)
    requires g.waits.ForSecret? ==> g.waits.key.kind == SecretKind
    ensures var key := if g.pc == Waiting && g.waits.ForSecret? then g.waits.key else g.key;
            var l := StepOnce(ViewOf(Runner(g, Nil), logs).l, mv, tag);
            var l' := StepOnce(ViewOf(Runner(g, Nil), Written(logs, key, mv.env)).l, Calm(mv), tag);
            l == l' && Store(Written(logs, key, mv.env), l') == Store(logs, l)
  {
    var key := if g.pc == Waiting && g.waits.ForSecret? then g.waits.key else g.key;
    var l := ViewOf(Runner(g, Nil), logs).l;
    StepProgress(l, mv, tag);
    StoreCovers(logs, key, Interfere(key.kind, LogOf(logs, key), mv.env), StepOnce(l, mv, tag));
    if g.pc == Waiting && g.waits.ForSecret? {
      AuxCallApart(l, mv, tag);
    } else {
      OwnCallApart(l, mv, tag);
    }
  }

  lemma NotebookCallApart(log: Log, n: Nb, phase: Phase, mv: Move, tag: Tag)
    ensures var log' := Interfere(NotebookKind, log, mv.env);
            && StatusCall(log', n.rv, phase, Calm(mv), tag) == StatusCall(log, n.rv, phase, mv, tag)
            && SpecCall(log', n, Calm(mv), tag) == SpecCall(log, n, mv, tag)
  {
    InterfereNil(NotebookKind, Interfere(NotebookKind, log, mv.env));
  }

  lemma WriteCovers(logs: Logs, key: Key, env: List<Option<Object>>, log: Log)
    ensures Written(logs, key, env)[key := log] == logs[key := log]
  {}

  /** The same step, with the others' writes as steps of their own. */
  lemma CallApart(job: Job, logs: Logs, mv: Move, tag: Tag)
    requires Regular(job) && Calls(job, mv)
    ensures JobStep(job, logs, mv, tag) == JobStep(job, Written(logs, Exposed(job, mv, tag), mv.env), Calm(mv), tag)
  {
    var key := NotebookKey(tag.ns, tag.name);
    var log := LogOf(logs, key);
    match job
    case Working(_, _, gs) => GoroutineCallApart(gs[mv.who], logs, mv, tag);
    case Rejecting(n, _) =>
      NotebookCallApart(log, n, Failed, mv, tag);
      WriteCovers(logs, key, mv.env, StatusCall(log, n.rv, Failed, mv, tag).log);
    case Defaulting(n) =>
      NotebookCallApart(log, n, Failed, mv, tag);
      WriteCovers(logs, key, mv.env, SpecCall(log, n, mv, tag).log);
    case Announcing(n) =>
      NotebookCallApart(log, n, Pending, mv, tag);
      WriteCovers(logs, key, mv.env, StatusCall(log, n.rv, Pending, mv, tag).log);
    case Concluding(n, slots) =>
      var phase := FinalPhase(JoinedError(slots));
      NotebookCallApart(log, n, phase, mv, tag);
      WriteCovers(logs, key, mv.env, StatusCall(log, n.rv, phase, mv, tag).log);
  }

  /** A step that makes no call does not look at its move. */
  lemma NoCallIsCalm(job: Job, logs: Logs, mv: Move, tag: Tag)
    requires Proper(job) && !Calls(job, mv)
    ensures JobStep(job, logs, mv, tag) == JobStep(job, logs, Calm(mv), tag)
  {}

  function Preludes(key: Key, env: List<Option<Object>>): seq<Choice>
    decreases env
  {
    match env
    case Nil => []
    case Cons(o, rest) => [Others(key, o)] + Preludes(key, rest)
  }

  lemma InterfereCons(kind: Kind, log: Log, o: Option<Object>, rest: List<Option<Object>>)
    ensures Interfere(kind, log, Cons(o, rest)) == Interfere(kind, Interfere(kind, log, Cons(o, Nil)), rest)
  {
    InterfereNil(kind, log);
    InterfereNil(kind, Append(log, o, Environment));
  }

  lemma WrittenTwice(logs: Logs, key: Key, o: Option<Object>, rest: List<Option<Object>>)
    ensures Written(Written(logs, key, Cons(o, Nil)), key, rest) == Written(logs, key, Cons(o, rest))
  {
    InterfereCons(key.kind, LogOf(logs, key), o, rest);
  }

  lemma {:induction false} PreludesWrite(s: State, key: Key, env: List<Option<Object>>)
    requires ProperState(s) && env.Cons?
    ensures RunFrom(s, Preludes(key, env)) == s.(logs := Written(s.logs, key, env))
    decreases env
  {
    var Cons(o, rest) := env;
    assert Preludes(key, env)[1..] == Preludes(key, rest);
    if rest.Cons? {
      PreludesWrite(Next(s, Others(key, o)), key, rest);
      WrittenTwice(s.logs, key, o, rest);
    }
  }

  lemma ReconcilersAreRegular(n: Nb, gone: bool, tag: Tag)
    requires Readable(n)
    ensures Regular(Working(n, gone, Reconcilers(n, tag)))
  {
    TlsSecretNameClash(n.name, n.name);
  }

  lemma StartIsRegular(found: Listed, tag: Tag)
    ensures Regular(Start(found, tag))
  {
    StartIsProper(found, tag);
    var job := Start(found, tag);
    if job.Working? {
      ReconcilersAreRegular(job.n, job.gone, tag);
    }
  }

  lemma StepIsRegular(job: Job, logs: Logs, mv: Move, tag: Tag)
    requires Regular(job)
    ensures Regular(JobStep(job, logs, mv, tag).0)
  {
    JobStepIsProper(job, logs, mv, tag);
    match job
    case Announcing(n) => ReconcilersAreRegular(n.(phase := Pending), false, tag);
    case Working(n, gone, gs) =>
      if !AllGoroutinesDone(gs) && mv.who < |gs| && gs[mv.who].pc != Done {
        StepProgress(ViewOf(Runner(gs[mv.who], Nil), logs).l, mv, tag);
      }
    case _ =>
  }

  /** The choices that make one step of worker `w`, others' writes included. */
  function StepChoices(w: nat, job: Job, mv: Move, tag: Tag): seq<Choice> {
    (if Calls(job, mv) then Preludes(Exposed(job, mv, tag), mv.env) else []) + [Work(w, mv)]
  }

  function WithWorker(s: State, w: nat, worker: Worker, logs: Logs): State {
    s.(logs := logs, workers := s.workers[w := worker])
  }

  lemma SingleChoice(s: State, c: Choice)
    requires ProperState(s)
    ensures RunFrom(s, [c]) == Next(s, c)
  {
    assert [c][1..] == [];
    assert RunFrom(Next(s, c), []) == Next(s, c);
  }

  lemma StepIsChosen(s: State, w: nat, mv: Move)
    requires ProperState(s) && w in s.workers && Regular(s.workers[w].job)
    ensures var Worker(tag, job) := s.workers[w];
            var (job', logs') := JobStep(job, s.logs, mv, tag);
            RunFrom(s, StepChoices(w, job, mv, tag)) == WithWorker(s, w, Worker(tag, job'), logs')
  {
    var Worker(tag, job) := s.workers[w];
    var env := if Calls(job, mv) then Preludes(Exposed(job, mv, tag), mv.env) else [];
    RunFromAppend(s, env, [Work(w, mv)]);
    SingleChoice(RunFrom(s, env), Work(w, mv));
    if !Calls(job, mv) {
      NoCallIsCalm(job, s.logs, mv, tag);
    } else if mv.env.Cons? {
      PreludesWrite(s, Exposed(job, mv, tag), mv.env);
      CallApart(job, s.logs, mv, tag);
    }
  }

  lemma {:induction false} JobRunIsChosen(s: State, w: nat, moves: seq<Move>) returns (choices: seq<Choice>)
    requires ProperState(s) && w in s.workers && Regular(s.workers[w].job)
    ensures var Worker(tag, job) := s.workers[w];
            var (job', logs') := JobRun(job, s.logs, moves, tag);
            RunFrom(s, choices) == WithWorker(s, w, Worker(tag, job'), logs')
    decreases |moves|
  {
    var Worker(tag, job) := s.workers[w];
    if moves == [] {
      assert WithWorker(s, w, s.workers[w], s.logs) == s;
      return [];
    }
    StepIsChosen(s, w, moves[0]);
    StepIsRegular(job, s.logs, moves[0], tag);
    var (job', logs') := JobStep(job, s.logs, moves[0], tag);
    var first := StepChoices(w, job, moves[0], tag);
    var s' := WithWorker(s, w, Worker(tag, job'), logs');
    var rest := JobRunIsChosen(s', w, moves[1..]);
    RunFromAppend(s, first, rest);
    choices := first + rest;
  }

  /** Wherever a run has led, a whole sync by an idle worker continues it: the cluster after the sync, with
      any staleness, faults and interference, is that of a longer run. */
  lemma SyncContinuesTheRun(choices: seq<Choice>, w: nat, ns: string, name: string, decoded: bool, mv: Move, luck: Luck)
    returns (more: seq<Choice>)
    requires |luck.scripts| == 4 && Idle(Run(choices), w)
    ensures var s := Run(choices);
            var tag := Tag(s.next, s.ca, ns, name);
            var found := ListNotebook(LogOf(s.logs, NotebookKey(ns, name)), ns, name, decoded, mv);
            var r := SyncOnce(found, s.logs, luck, tag);
            && Run(choices + more).logs == r.logs
            && w in Run(choices + more).workers && Run(choices + more).workers[w] == Worker(tag, Finished(r.err))
  {
    var s := Run(choices);
    var tag := Tag(s.next, s.ca, ns, name);
    var found := ListNotebook(LogOf(s.logs, NotebookKey(ns, name)), ns, name, decoded, mv);
    var begin := Begin(w, ns, name, decoded, mv);
    var s1 := Next(s, begin);
    StartIsRegular(found, tag);
    var moves := SyncIsARun(found, s.logs, luck, tag);
    var rest := JobRunIsChosen(s1, w, moves);
    more := [begin] + rest;
    RunAppend(choices, more);
    RunFromAppend(s, [begin], rest);
    SingleChoice(s, begin);
  }

  /** So a whole sync, however its goroutines interleave, keeps every log of a reachable cluster in order and
      only adds to it. */
  lemma SyncIsSafe(choices: seq<Choice>, w: nat, ns: string, name: string, decoded: bool, mv: Move, luck: Luck, after: Logs)
    requires |luck.scripts| == 4 && Idle(Run(choices), w)
    requires var s := Run(choices);
             var tag := Tag(s.next, s.ca, ns, name);
             var found := ListNotebook(LogOf(s.logs, NotebookKey(ns, name)), ns, name, decoded, mv);
             Same(after, SyncOnce(found, s.logs, luck, tag).logs)
    ensures Grows(Run(choices).logs, after)
    ensures forall k :: LogOk(k, LogOf(after, k))
    ensures forall n, m :: OneEach(LogOf(after, NotebookKey(n, m)))
  {
    var more := SyncContinuesTheRun(choices, w, ns, name, decoded, mv, luck);
    RunKeepsInv(choices + more);
    HistoryIsKept(choices, more);
    var end := Run(choices + more);
    forall k
      ensures LogOk(k, LogOf(after, k)) && LogOf(Run(choices).logs, k) <= LogOf(after, k)
    {
      assert LogOf(after, k) == LogOf(end.logs, k);
    }
    forall n, m
      ensures OneEach(LogOf(after, NotebookKey(n, m)))
    {
      assert LogOf(after, NotebookKey(n, m)) == LogOf(end.logs, NotebookKey(n, m));
    }
  }
}
