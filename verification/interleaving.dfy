/** The goroutines of one sync, interleaved action by action (pkg/controller/handlers.go:16-53). */
module Interleaving {
  import opened Basics
  import opened Naming
  import opened Kube
  import opened Goroutine

  /** A goroutine and what the adversary will do around its calls. */
  datatype Runner = Runner(g: Goro, script: List<Move>)

  function AuxLog(g: Goro, logs: Logs): Log {
    if g.waits.ForSecret? then LogOf(logs, g.waits.key) else []
  }

  function ViewOf(r: Runner, logs: Logs): Thread {
    Thread(Local(r.g, LogOf(logs, r.g.key), AuxLog(r.g, logs)), r.script)
  }

  function Store(logs: Logs, l: Local): Logs {
    var own := logs[l.g.key := l.own];
    if l.g.waits.ForSecret? then own[l.g.waits.key := l.aux] else own
  }

  function Zone(g: Goro): set<Key> {
    {g.key} + if g.waits.ForSecret? then {g.waits.key} else {}
  }

  /** No goroutine touches a key that another one reads or writes. */
  ghost predicate Apart(rs: seq<Runner>) {
    && (forall i :: 0 <= i < |rs| ==> Sound(rs[i].g) && rs[i].g.waits != ForSecret(rs[i].g.key))
    && (forall i, j :: 0 <= i < j < |rs| ==> Zone(rs[i].g) !! Zone(rs[j].g))
  }

  predicate AllDone(rs: seq<Runner>) {
    forall i :: 0 <= i < |rs| ==> rs[i].g.pc == Done
  }

  /** One action of goroutine `i`; nothing happens if it is done or does not exist. */
  function Tick(rs: seq<Runner>, logs: Logs, i: nat, tag: Tag): (seq<Runner>, Logs) {
    if i < |rs| && rs[i].g.pc != Done then
      var t := Advance(ViewOf(rs[i], logs), tag);
      (rs[i := Runner(t.l.g, t.script)], Store(logs, t.l))
    else (rs, logs)
  }

  function RunSchedule(rs: seq<Runner>, logs: Logs, schedule: seq<nat>, tag: Tag): (seq<Runner>, Logs)
    decreases |schedule|
  {
    if schedule == [] then (rs, logs)
    else
      var (rs', logs') := Tick(rs, logs, schedule[0], tag);
      RunSchedule(rs', logs', schedule[1..], tag)
  }

  /** One goroutine after the other, in list order. */
  function InOrder(rs: seq<Runner>, logs: Logs, from: nat, tag: Tag): (r: (seq<Runner>, Logs))
    requires from <= |rs| && forall i :: 0 <= i < |rs| ==> Sound(rs[i].g)
    ensures |r.0| == |rs|
    decreases |rs| - from
  {
    if from == |rs| then (rs, logs)
    else
      var t := Finish(ViewOf(rs[from], logs), tag);
      InOrder(rs[from := Runner(t.l.g, t.script)], Store(logs, t.l), from + 1, tag)
  }

  /** A goroutine that is not done gets on: it uses up a move, or it comes closer to its end. */
  lemma TickProgress(rs: seq<Runner>, logs: Logs, i: nat, tag: Tag)
    requires i < |rs| && rs[i].g.pc != Done && Sound(rs[i].g)
    ensures var r := Tick(rs, logs, i, tag).0[i];
            || (rs[i].script.Cons? && r.script == rs[i].script.tail)
            || (r.script == rs[i].script && Rank(r.g.pc) < Rank(rs[i].g.pc))
  {
    var t := ViewOf(rs[i], logs);
    StepProgress(t.l, Head(t.script), tag);
    StepProgress(t.l, QUIET, tag);
  }

  // ---------- Independence ----------

  /** What becomes of each goroutine if it runs alone from here. */
  ghost predicate SameOutcomes(rs: seq<Runner>, logs: Logs, rs': seq<Runner>, logs': Logs, tag: Tag)
    requires forall i :: 0 <= i < |rs| ==> Sound(rs[i].g)
    requires forall i :: 0 <= i < |rs'| ==> Sound(rs'[i].g)
  {
    && |rs| == |rs'|
    && forall i :: 0 <= i < |rs| ==> Finish(ViewOf(rs'[i], logs'), tag) == Finish(ViewOf(rs[i], logs), tag)
  }

  ghost predicate Untouched(rs: seq<Runner>, logs: Logs, logs': Logs) {
    forall k :: (forall i :: 0 <= i < |rs| ==> k !in Zone(rs[i].g)) ==> LogOf(logs', k) == LogOf(logs, k)
  }

  /** Storing a goroutine's zone reads back, and no other goroutine sees it. */
  lemma StoreIsLocal(r: Runner, other: Runner, logs: Logs, l: Local)
    requires l.g.key == r.g.key && l.g.waits == r.g.waits && r.g.waits != ForSecret(r.g.key)
    requires !r.g.waits.ForSecret? ==> l.aux == []
    ensures ViewOf(Runner(l.g, other.script), Store(logs, l)).l == l
    ensures Zone(r.g) !! Zone(other.g) ==> ViewOf(other, Store(logs, l)) == ViewOf(other, logs)
  {}

  lemma AdvanceKeepsZone(t: Thread, tag: Tag)
    requires Sound(t.l.g)
    ensures Sound(Advance(t, tag).l.g)
    ensures Advance(t, tag).l.g.key == t.l.g.key && Advance(t, tag).l.g.waits == t.l.g.waits
    ensures !t.l.g.waits.ForSecret? ==> Advance(t, tag).l.aux == t.l.aux
  {
    StepProgress(t.l, Head(t.script), tag);
    StepProgress(t.l, QUIET, tag);
  }

  lemma {:induction false} FinishKeepsAux(t: Thread, tag: Tag)
    requires Sound(t.l.g) && !t.l.g.waits.ForSecret?
    ensures Finish(t, tag).l.aux == t.l.aux
    decreases t.script, Rank(t.l.g.pc)
  {
    if t.l.g.pc != Done {
      AdvanceKeepsZone(t, tag);
      StepProgress(t.l, Head(t.script), tag);
      StepProgress(t.l, QUIET, tag);
      FinishKeepsAux(Advance(t, tag), tag);
    }
  }

  lemma FinishUnrolls(t: Thread, tag: Tag)
    requires Sound(t.l.g)
    ensures Sound(Advance(t, tag).l.g) && Finish(t, tag) == Finish(Advance(t, tag), tag)
  {
    AdvanceKeepsZone(t, tag);
  }

  // ---------- Reconcile, then the rest ----------

  lemma StaysOrReturns(l: Local, mv: Move, tag: Tag)
    requires Sound(l.g) && Rank(l.g.pc) > 3
    ensures var g := StepOnce(l, mv, tag).g; g.pc == Returned || Rank(g.pc) > 3
  {
    var log := Interfere(l.g.key.kind, l.own, mv.env);
    assert StepOnce(l, mv, tag).g == Act(l.g, log, mv, tag).0;
  }

  lemma ReconcileUnrolls(t: Thread, tag: Tag)
    requires Sound(t.l.g)
    ensures Rank(t.l.g.pc) > 3 ==> Sound(Advance(t, tag).l.g) && RunUntil(t, tag, 3) == RunUntil(Advance(t, tag), tag, 3)
    ensures Rank(t.l.g.pc) <= 3 ==> RunUntil(t, tag, 3) == t
  {
    AdvanceKeepsZone(t, tag);
  }

  lemma ReturningStep(t: Thread, tag: Tag)
    requires Sound(t.l.g) && Rank(t.l.g.pc) > 3
    ensures var u := Advance(t, tag);
            && Sound(u.l.g) && (u.l.g.pc == Returned || Rank(u.l.g.pc) > 3)
            && u.script == Tail(t.script) && (t.script.Nil? ==> Rank(u.l.g.pc) < Rank(t.l.g.pc))
  {
    StepProgress(t.l, Head(t.script), tag);
    StaysOrReturns(t.l, Head(t.script), tag);
  }

  /** The reconcile closure ends by returning, and the goroutine goes on from there. */
  lemma {:induction false} ReconcileReturns(t: Thread, tag: Tag)
    requires Sound(t.l.g) && Rank(t.l.g.pc) > 3
    ensures RunUntil(t, tag, 3).l.g.pc == Returned
    ensures Finish(t, tag) == Finish(RunUntil(t, tag, 3), tag)
    decreases t.script, Rank(t.l.g.pc)
  {
    ReturningStep(t, tag);
    FinishUnrolls(t, tag);
    ReconcileUnrolls(t, tag);
    var u := Advance(t, tag);
    ReconcileUnrolls(u, tag);
    if u.l.g.pc != Returned {
      ReconcileReturns(u, tag);
    }
  }

  /** After the reconcile closure the goroutine settles its error without a call. */
  lemma SettleIsNext(t: Thread, tag: Tag)
    requires Sound(t.l.g) && t.l.g.pc == Returned
    ensures var next := Thread(t.l.(g := Settle(t.l.g)), t.script);
            Sound(next.l.g) && Finish(t, tag) == Finish(next, tag)
  {
    FinishUnrolls(t, tag);
  }

  // ---------- Side by side ----------

  /** Replacing goroutine `i` by a later state of its own run disturbs nobody. */
  lemma ReplaceOne(rs: seq<Runner>, logs: Logs, i: nat, t: Thread, tag: Tag)
    requires Apart(rs) && i < |rs|
    requires t.l.g.key == rs[i].g.key && t.l.g.waits == rs[i].g.waits && Sound(t.l.g)
    requires !rs[i].g.waits.ForSecret? ==> t.l.aux == []
    requires Finish(t, tag) == Finish(ViewOf(rs[i], logs), tag)
    ensures var rs', logs' := rs[i := Runner(t.l.g, t.script)], Store(logs, t.l);
            Apart(rs') && SameOutcomes(rs, logs, rs', logs', tag) && Untouched(rs, logs, logs')
  {
    var rs', logs' := rs[i := Runner(t.l.g, t.script)], Store(logs, t.l);
    assert forall j :: 0 <= j < |rs| ==> Zone(rs'[j].g) == Zone(rs[j].g);
    forall j | 0 <= j < |rs|
      ensures Finish(ViewOf(rs'[j], logs'), tag) == Finish(ViewOf(rs[j], logs), tag)
    {
      StoreIsLocal(rs[i], rs[j], logs, t.l);
      if j != i {
        assert Zone(rs[i].g) !! Zone(rs[j].g);
      } else {
        assert ViewOf(rs'[i], logs') == t;
      }
    }
    assert rs[i].g.key in Zone(rs[i].g);
  }

  lemma TickKeepsOutcomes(rs: seq<Runner>, logs: Logs, i: nat, tag: Tag)
    requires Apart(rs)
    ensures var (rs', logs') := Tick(rs, logs, i, tag);
            Apart(rs') && SameOutcomes(rs, logs, rs', logs', tag) && Untouched(rs, logs, logs')
            && forall j :: 0 <= j < |rs| ==> Zone(rs'[j].g) == Zone(rs[j].g)
  {
    if i < |rs| && rs[i].g.pc != Done {
      var t := ViewOf(rs[i], logs);
      AdvanceKeepsZone(t, tag);
      FinishUnrolls(t, tag);
      ReplaceOne(rs, logs, i, Advance(t, tag), tag);
    }
  }

  /** Outcomes carry over from step to step. */
  lemma Chain(rs: seq<Runner>, logs: Logs, rs1: seq<Runner>, logs1: Logs, rs2: seq<Runner>, logs2: Logs, tag: Tag)
    requires Apart(rs) && Apart(rs1) && Apart(rs2)
    requires SameOutcomes(rs, logs, rs1, logs1, tag) && Untouched(rs, logs, logs1)
    requires SameOutcomes(rs1, logs1, rs2, logs2, tag) && Untouched(rs1, logs1, logs2)
    requires forall j :: 0 <= j < |rs| ==> Zone(rs1[j].g) == Zone(rs[j].g)
    ensures SameOutcomes(rs, logs, rs2, logs2, tag) && Untouched(rs, logs, logs2)
  {}

  /** Along every schedule, complete or not, the outcome of each goroutine is already decided. */
  lemma {:induction false} ScheduleKeepsOutcomes(rs: seq<Runner>, logs: Logs, schedule: seq<nat>, tag: Tag)
    requires Apart(rs)
    ensures var (rs', logs') := RunSchedule(rs, logs, schedule, tag);
            Apart(rs') && SameOutcomes(rs, logs, rs', logs', tag) && Untouched(rs, logs, logs')
    decreases |schedule|
  {
    if schedule != [] {
      TickKeepsOutcomes(rs, logs, schedule[0], tag);
      var (rs1, logs1) := Tick(rs, logs, schedule[0], tag);
      ScheduleKeepsOutcomes(rs1, logs1, schedule[1..], tag);
      var (rs2, logs2) := RunSchedule(rs1, logs1, schedule[1..], tag);
      Chain(rs, logs, rs1, logs1, rs2, logs2, tag);
    }
  }

  lemma FinishOne(rs: seq<Runner>, logs: Logs, i: nat, tag: Tag)
    requires Apart(rs) && i < |rs|
    ensures var t := Finish(ViewOf(rs[i], logs), tag);
            var rs', logs' := rs[i := Runner(t.l.g, t.script)], Store(logs, t.l);
            && Apart(rs') && SameOutcomes(rs, logs, rs', logs', tag) && Untouched(rs, logs, logs')
            && forall j :: 0 <= j < |rs| ==> Zone(rs'[j].g) == Zone(rs[j].g)
  {
    if !rs[i].g.waits.ForSecret? {
      FinishKeepsAux(ViewOf(rs[i], logs), tag);
    }
    ReplaceOne(rs, logs, i, Finish(ViewOf(rs[i], logs), tag), tag);
  }

  lemma {:induction false} InOrderKeepsOutcomes(rs: seq<Runner>, logs: Logs, from: nat, tag: Tag)
    requires Apart(rs) && from <= |rs|
    ensures var (rs', logs') := InOrder(rs, logs, from, tag);
            Apart(rs') && SameOutcomes(rs, logs, rs', logs', tag) && Untouched(rs, logs, logs')
    decreases |rs| - from
  {
    if from < |rs| {
      FinishOne(rs, logs, from, tag);
      var t := Finish(ViewOf(rs[from], logs), tag);
      var rs1, logs1 := rs[from := Runner(t.l.g, t.script)], Store(logs, t.l);
      InOrderKeepsOutcomes(rs1, logs1, from + 1, tag);
      var (rs2, logs2) := InOrder(rs1, logs1, from + 1, tag);
      Chain(rs, logs, rs1, logs1, rs2, logs2, tag);
    }
  }

  lemma {:induction false} InOrderFinishes(rs: seq<Runner>, logs: Logs, from: nat, tag: Tag)
    requires from <= |rs| && forall i :: 0 <= i < |rs| ==> Sound(rs[i].g)
    requires forall i :: 0 <= i < from ==> rs[i].g.pc == Done
    ensures AllDone(InOrder(rs, logs, from, tag).0)
    decreases |rs| - from
  {
    if from < |rs| {
      var t := Finish(ViewOf(rs[from], logs), tag);
      InOrderFinishes(rs[from := Runner(t.l.g, t.script)], Store(logs, t.l), from + 1, tag);
    }
  }

  lemma EqualViews(a: Runner, logs: Logs, b: Runner, logs': Logs, k: Key)
    requires ViewOf(a, logs) == ViewOf(b, logs') && k in Zone(a.g)
    ensures LogOf(logs, k) == LogOf(logs', k)
  {
    assert a.g == b.g;
  }

  /** When all are done, the outcomes are the state: two such ends of one beginning are equal. */
  lemma EqualEnds(rs: seq<Runner>, logs: Logs, rs1: seq<Runner>, logs1: Logs, rs2: seq<Runner>, logs2: Logs, tag: Tag)
    requires Apart(rs) && Apart(rs1) && Apart(rs2) && AllDone(rs1) && AllDone(rs2)
    requires SameOutcomes(rs, logs, rs1, logs1, tag) && Untouched(rs, logs, logs1)
    requires SameOutcomes(rs, logs, rs2, logs2, tag) && Untouched(rs, logs, logs2)
    ensures rs1 == rs2 && Same(logs1, logs2)
  {
    forall i | 0 <= i < |rs|
      ensures ViewOf(rs1[i], logs1) == ViewOf(rs2[i], logs2)
      ensures Zone(rs1[i].g) == Zone(rs[i].g)
    {
      assert Finish(ViewOf(rs1[i], logs1), tag) == ViewOf(rs1[i], logs1);
      assert Finish(ViewOf(rs2[i], logs2), tag) == ViewOf(rs2[i], logs2);
    }
    assert forall i :: 0 <= i < |rs| ==> rs1[i] == rs2[i];
    forall k
      ensures LogOf(logs1, k) == LogOf(logs2, k)
    {
      if i :| 0 <= i < |rs| && k in Zone(rs[i].g) {
        EqualViews(rs1[i], logs1, rs2[i], logs2, k);
      }
    }
  }

  /** Confluence: for fixed staleness, faults and interference per goroutine, every complete schedule ends
      in the same cluster state and with the same error in every slot as running them in list order. */
  lemma Confluence(rs: seq<Runner>, logs: Logs, schedule: seq<nat>, tag: Tag)
    requires Apart(rs) && AllDone(RunSchedule(rs, logs, schedule, tag).0)
    ensures RunSchedule(rs, logs, schedule, tag).0 == InOrder(rs, logs, 0, tag).0
    ensures Same(RunSchedule(rs, logs, schedule, tag).1, InOrder(rs, logs, 0, tag).1)
  {
    ScheduleKeepsOutcomes(rs, logs, schedule, tag);
    InOrderKeepsOutcomes(rs, logs, 0, tag);
    InOrderFinishes(rs, logs, 0, tag);
    var (rs1, logs1) := RunSchedule(rs, logs, schedule, tag);
    var (rs2, logs2) := InOrder(rs, logs, 0, tag);
    EqualEnds(rs, logs, rs1, logs1, rs2, logs2, tag);
  }

  // ---------- The goroutines of a sync ----------

  function Runners(n: Nb, scripts: seq<List<Move>>, tag: Tag): (rs: seq<Runner>)
    requires Readable(n) && |scripts| == 4
    ensures |rs| == 4
  {
    var gs := Reconcilers(n, tag);
    [Runner(gs[0], scripts[0]), Runner(gs[1], scripts[1]), Runner(gs[2], scripts[2]), Runner(gs[3], scripts[3])]
  }

  /** The four goroutines of one sync never meet: not even through the ACME secret, whose name is never
      that of the notebook's own secret. */
  lemma RunnersApart(n: Nb, scripts: seq<List<Move>>, tag: Tag)
    requires Readable(n) && |scripts| == 4
    ensures Apart(Runners(n, scripts, tag))
  {
    TlsSecretNameClash(n.name, n.name);
  }

  /** The joined error of the four slots. */
  function Errors(rs: seq<Runner>): seq<Option<Error>> {
    seq(|rs|, i requires 0 <= i < |rs| => rs[i].g.err)
  }

  function JoinedError(errs: seq<Option<Error>>): Option<Error> {
    var joined := JoinErrors(errs, {});
    if joined.Some? then Some(Error(Other, Because(Reconciling, joined.value.msg))) else None
  }

  datatype Outcome = Outcome(logs: Logs, err: Option<Error>)

  /** reconcileNotebookResources: what every schedule amounts to. */
  function Reconciled(n: Nb, logs: Logs, scripts: seq<List<Move>>, tag: Tag): Outcome
    requires Readable(n) && |scripts| == 4
  {
    var (rs, logs') := InOrder(Runners(n, scripts, tag), logs, 0, tag);
    Outcome(logs', JoinedError(Errors(rs)))
  }

  /** Any interleaving of the four reconcilers has the cluster state and the joined error of `Reconciled`. */
  lemma ReconcileIsConfluent(n: Nb, logs: Logs, scripts: seq<List<Move>>, schedule: seq<nat>, tag: Tag)
    requires Readable(n) && |scripts| == 4
    requires AllDone(RunSchedule(Runners(n, scripts, tag), logs, schedule, tag).0)
    ensures var (rs, logs') := RunSchedule(Runners(n, scripts, tag), logs, schedule, tag);
            && Same(logs', Reconciled(n, logs, scripts, tag).logs)
            && JoinedError(Errors(rs)) == Reconciled(n, logs, scripts, tag).err
  {
    RunnersApart(n, scripts, tag);
    Confluence(Runners(n, scripts, tag), logs, schedule, tag);
  }
}
