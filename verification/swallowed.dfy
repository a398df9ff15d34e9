/** What a nil error of one reconciler is worth: NotFound and AlreadyExists count as success
    (pkg/controller/handlers.go:27-37), so with a stale lister nil does not mean converged. */
module Swallowed {
  import opened Basics
  import opened Naming
  import opened Kube
  import opened Calculate
  import opened Goroutine
  import opened Interleaving
  import opened Settling

  // ---------- The last call of a reconcile closure ----------

  /** What the closure comes to, for a given script: it gives up, for some reason, without having made what it
      wants, or its last call is a Create or an Update that finds the log `log`. `obj` is the shared object by then, `mv`
      what happens around the call, and `rest` what is left of the script for the wait. */
  datatype LastCall =
    | GivesUp(why: Error)
    | Creates(log: Log, obj: Object, mv: Move, rest: List<Move>)
    | Updates(log: Log, obj: Object, rv: nat, mv: Move, rest: List<Move>)

  /** The call went through. */
  predicate Succeeds(c: LastCall) {
    match c
    case GivesUp(_) => false
    case Creates(log, _, mv, _) => mv.fault == NoFault && Current(log).None?
    case Updates(log, _, rv, mv, _) => mv.fault == NoFault && Current(log).Some? && rv == |log|
  }

  /** It was refused with an error that is swallowed: the object to create exists, the one to update is
      gone. */
  predicate InVain(c: LastCall) {
    match c
    case GivesUp(_) => false
    case Creates(log, _, mv, _) => !mv.fault.Dropped? && Current(log).Some?
    case Updates(log, _, _, mv, _) => !mv.fault.Dropped? && Current(log).None?
  }

  /** What it should leave behind is there: always after a success, never after a vain Update, and after a
      vain Create if the object it ran into is by chance the wanted one. */
  ghost predicate IsRight(c: LastCall, want: Object, ca: nat) {
    match c
    case GivesUp(_) => false
    case Creates(log, _, _, _) => Current(log).None? || Stored(want, log, ca)
    case Updates(log, _, _, _, _) => Current(log).Some?
  }

  /** What the closure returns. */
  function ClosureError(c: LastCall, tag: Tag): Option<Error> {
    match c
    case GivesUp(why) => Some(why)
    case Creates(log, obj, mv, _) => Create(log, obj, tag, mv).err
    case Updates(log, obj, rv, mv, _) => Update(log, obj, rv, tag, mv).err
  }

  /** The log that the call leaves behind. */
  function LogAfter(c: LastCall, tag: Tag): Log {
    match c
    case GivesUp(_) => []
    case Creates(log, obj, mv, _) => Create(log, obj, tag, mv).log
    case Updates(log, obj, rv, mv, _) => Update(log, obj, rv, tag, mv).log
  }

  /** Polling for the old StatefulSet to vanish, and the Create that follows. */
  function AfterVanishing(kind: Kind, log: Log, want: Object, script: List<Move>): LastCall
    decreases script
  {
    var mv := Head(script);
    var now := Interfere(kind, log, mv.env);
    if Get(now, mv).Absent? then Creating(kind, now, want, Tail(script))
    else if mv.timeout then GivesUp(Error(Other, Because(WaitingForDeletion, TimedOut)))
    else AfterVanishing(kind, now, want, Tail(script))
  }

  function Creating(kind: Kind, log: Log, want: Object, script: List<Move>): LastCall {
    Creates(Interfere(kind, log, Head(script).env), want, Head(script), Tail(script))
  }

  /** The log that the lister answers from. */
  function AtRead(l: Local, script: List<Move>): Log {
    Interfere(l.g.key.kind, l.own, Head(script).env)
  }

  function Answer(l: Local, script: List<Move>): Lookup {
    Get(AtRead(l, script), Head(script))
  }

  /** The log that the next call finds. */
  function AtWrite(l: Local, script: List<Move>): Log {
    Interfere(l.g.key.kind, AtRead(l, script), Head(Tail(script)).env)
  }

  function LastCallOf(l: Local, want: Object, script: List<Move>, tag: Tag): LastCall {
    var kind, mv := l.g.key.kind, Head(Tail(script));
    match Answer(l, script)
    case Broken(e) => GivesUp(e)
    case Absent => Creating(kind, AtRead(l, script), want, Tail(script))
    case Found(o, rv) =>
      if !IsManaged(o.meta.labels) then GivesUp(Error(Other, NotManaged))
      else if Adopt(want, o, tag.ca).Some? then
        Updates(AtWrite(l, script), Adopt(want, o, tag.ca).value, rv, mv, Tail(Tail(script)))
      else
        var r := Delete(AtWrite(l, script), true, tag, mv);
        if r.err.Some? then GivesUp(Error(Other, Because(DeletingOld, r.err.value.msg)))
        else AfterVanishing(kind, r.log, want, Tail(Tail(script)))
  }

  // ---------- The closure returns ----------

  predicate IsBenign(err: Option<Error>) {
    err.None? || err.value.reason in BENIGN
  }

  /** The closure, which began with `aux`, ends as its last call decides. */
  ghost predicate EndsWith(r: Thread, c: LastCall, want: Object, waits: Waits, aux: Log, tag: Tag) {
    && r.l.g.err == ClosureError(c, tag) && r.l.g.waits == waits
    && (IsBenign(r.l.g.err) <==> Succeeds(c) || InVain(c))
    && (IsBenign(r.l.g.err) ==>
          && (Stored(want, r.l.own, tag.ca) <==> IsRight(c, want, tag.ca))
          && r.l.own == LogAfter(c, tag) && r.l.aux == aux && r.script == c.rest
          && r.l.g.plan.Keep? && r.l.g.plan.want == c.obj)
  }

  lemma CreateEnds(t: Thread, want: Object, tag: Tag)
    requires t.l.g.pc == Make && t.l.g.plan == Keep(want, 0) && t.l.g.key.kind == KindOf(want.body)
    requires Wellmade(want, tag.ca)
    ensures EndsWith(RunUntil(t, tag, 3), Creating(t.l.g.key.kind, t.l.own, want, t.script), want, t.l.g.waits, t.l.aux, tag)
  {
    var mv := Head(t.script);
    CreatedMatches(want, mv.ip, tag.ca);
    ReconcileUnrolls(t, tag);
    ReconcileUnrolls(Advance(t, tag), tag);
    var r := Create(Interfere(t.l.g.key.kind, t.l.own, mv.env), want, tag, mv);
    assert Advance(t, tag).l == t.l.(g := Return(t.l.g, r.err), own := r.log);
  }

  /** An Update that goes through replaces the version that was adopted. */
  lemma UpdateReply(log: Log, want: Object, seen: Object, rv: nat, tag: Tag, mv: Move)
    requires KindOf(want.body) == KindOf(seen.body) && Wellmade(want, tag.ca) && Adopt(want, seen, tag.ca).Some?
    requires 0 < rv <= |log| && Seen(log, rv) == Some(seen)
    ensures var r := Update(log, Adopt(want, seen, tag.ca).value, rv, tag, mv);
            var c := Updates(log, Adopt(want, seen, tag.ca).value, rv, mv, Nil);
            && (IsBenign(r.err) <==> Succeeds(c) || InVain(c))
            && (IsBenign(r.err) ==> (Stored(want, r.log, tag.ca) <==> Current(log).Some?))
  {
    UpdatedMatches(want, seen, tag.ca);
  }

  lemma UpdateEnds(t: Thread, want: Object, seen: Object, tag: Tag)
    requires t.l.g.pc == Write && t.l.g.plan.Keep? && KindOf(want.body) == KindOf(seen.body)
    requires Adopt(want, seen, tag.ca) == Some(t.l.g.plan.want) && Wellmade(want, tag.ca)
    requires 0 < t.l.g.plan.rv <= |t.l.own| && Seen(t.l.own, t.l.g.plan.rv) == Some(seen)
    ensures var log := Interfere(t.l.g.key.kind, t.l.own, Head(t.script).env);
            var c := Updates(log, t.l.g.plan.want, t.l.g.plan.rv, Head(t.script), Tail(t.script));
            EndsWith(RunUntil(t, tag, 3), c, want, t.l.g.waits, t.l.aux, tag)
  {
    var mv, rv := Head(t.script), t.l.g.plan.rv;
    var log := Interfere(t.l.g.key.kind, t.l.own, mv.env);
    assert log[rv - 1] == t.l.own[rv - 1];
    UpdateReply(log, want, seen, rv, tag, mv);
    ReconcileUnrolls(t, tag);
    ReconcileUnrolls(Advance(t, tag), tag);
    var r := Update(log, t.l.g.plan.want, rv, tag, mv);
    assert Advance(t, tag).l == t.l.(g := Return(t.l.g, r.err), own := r.log);
  }

  lemma {:induction false} VanishEnds(t: Thread, want: Object, tag: Tag)
    requires t.l.g.pc == Vanish && t.l.g.plan == Keep(want, 0) && t.l.g.key.kind == KindOf(want.body)
    requires Wellmade(want, tag.ca)
    ensures var c := AfterVanishing(t.l.g.key.kind, t.l.own, want, t.script);
            EndsWith(RunUntil(t, tag, 3), c, want, t.l.g.waits, t.l.aux, tag)
    decreases t.script
  {
    var mv := Head(t.script);
    var u := Advance(t, tag);
    ReconcileUnrolls(t, tag);
    ReconcileUnrolls(u, tag);
    if Get(Interfere(t.l.g.key.kind, t.l.own, mv.env), mv).Absent? {
      CreateEnds(u, want, tag);
    } else if !mv.timeout {
      VanishEnds(u, want, tag);
    }
  }

  lemma ReplaceEnds(t: Thread, want: Object, tag: Tag)
    requires t.l.g.pc == Purge && t.l.g.plan == Keep(want, 0) && t.l.g.key.kind == KindOf(want.body)
    requires Wellmade(want, tag.ca)
    ensures var mv := Head(t.script);
            var r := Delete(Interfere(t.l.g.key.kind, t.l.own, mv.env), true, tag, mv);
            var c := if r.err.Some? then GivesUp(Error(Other, Because(DeletingOld, r.err.value.msg)))
                     else AfterVanishing(t.l.g.key.kind, r.log, want, Tail(t.script));
            EndsWith(RunUntil(t, tag, 3), c, want, t.l.g.waits, t.l.aux, tag)
  {
    var mv := Head(t.script);
    var u := Advance(t, tag);
    var r := Delete(Interfere(t.l.g.key.kind, t.l.own, mv.env), true, tag, mv);
    ReconcileUnrolls(t, tag);
    ReconcileUnrolls(u, tag);
    if r.err.None? {
      VanishEnds(u, want, tag);
    }
  }

  /** Every reconciler that keeps an object, of every kind, whatever it waits for afterwards. */
  ghost predicate Begins(l: Local, want: Object, ca: nat) {
    Starts(l, want, ca) && Typed(l.g.key.kind, l.own)
  }

  lemma ReadEnds(l: Local, want: Object, script: List<Move>, tag: Tag)
    requires Begins(l, want, tag.ca)
    ensures EndsWith(RunUntil(Thread(l, script), tag, 3), LastCallOf(l, want, script, tag), want, l.g.waits, l.aux, tag)
  {
    var t := Thread(l, script);
    var u := Advance(t, tag);
    var found := Answer(l, script);
    InterfereTyped(l.g.key.kind, l.own, Head(script).env);
    ReconcileUnrolls(t, tag);
    ReconcileUnrolls(u, tag);
    assert u == Thread(l.(g := OnRead(l.g, found, tag.ca), own := AtRead(l, script)), Tail(script));
    match found
    case Broken(_) =>
    case Absent => CreateEnds(u, want, tag);
    case Found(o, rv) =>
      if IsManaged(o.meta.labels) {
        if Adopt(want, o, tag.ca).Some? {
          UpdateEnds(u, want, o, tag);
        } else {
          ReplaceEnds(u, want, tag);
        }
      }
  }

  /** A reconcile closure returns the error of its last call, or what made it give up. That is nil, or an error
      that is swallowed, exactly if the last call went through or was in vain. */
  lemma NilMeansWrittenOrInVain(l: Local, want: Object, script: List<Move>, tag: Tag)
    requires Begins(l, want, tag.ca)
    ensures RunUntil(Thread(l, script), tag, 3).l.g.err == ClosureError(LastCallOf(l, want, script, tag), tag)
    ensures var c := LastCallOf(l, want, script, tag);
            IsBenign(RunUntil(Thread(l, script), tag, 3).l.g.err) <==> Succeeds(c) || InVain(c)
  {
    ReadEnds(l, want, script, tag);
  }

  /** ... and then the stored object is what was wanted exactly if the call was not in vain, or the Create
      ran into an object that is by chance the wanted one. */
  lemma ConvergedUnlessInVain(l: Local, want: Object, script: List<Move>, tag: Tag)
    requires Begins(l, want, tag.ca)
    requires IsBenign(RunUntil(Thread(l, script), tag, 3).l.g.err)
    ensures var c := LastCallOf(l, want, script, tag);
            Stored(want, RunUntil(Thread(l, script), tag, 3).l.own, tag.ca) <==>
              !InVain(c) || (c.Creates? && Stored(want, c.log, tag.ca))
  {
    ReadEnds(l, want, script, tag);
  }

  // ---------- The goroutine ends ----------

  predicate Satisfied(waits: Waits, target: int, found: Lookup) {
    match waits
    case Nothing => true
    case ForReady => IsReady(found, target)
    case ForSecret(_) => found.Found?
  }

  /** What is waited for arrives, as far as the lister shows, before the attempts run out. */
  predicate Arrives(waits: Waits, target: int, kind: Kind, log: Log, script: List<Move>)
    decreases script
  {
    var mv := Head(script);
    var now := Interfere(kind, log, mv.env);
    Satisfied(waits, target, Get(now, mv)) || (!mv.timeout && Arrives(waits, target, kind, now, Tail(script)))
  }

  /** The wait that begins where the closure has returned. */
  predicate WaitSucceeds(r: Thread) {
    match r.l.g.waits
    case Nothing => true
    case ForReady => Arrives(ForReady, Target(r.l.g.plan), r.l.g.key.kind, r.l.own, r.script)
    case ForSecret(k) => Arrives(ForSecret(k), 0, SecretKind, r.l.aux, r.script)
  }

  /** The same wait, foreseen: it starts from the log that the last call leaves, and looks for as many
      replicas as the shared object then asks for, or for the issuer's secret. */
  predicate WaitAfter(l: Local, c: LastCall, tag: Tag)
    requires !c.GivesUp?
  {
    match l.g.waits
    case Nothing => true
    case ForReady => Arrives(ForReady, Target(Keep(c.obj, 0)), l.g.key.kind, LogAfter(c, tag), c.rest)
    case ForSecret(k) => Arrives(ForSecret(k), 0, SecretKind, l.aux, c.rest)
  }

  /** Others write no more than the status. */
  predicate StatusWrites(log: Log, env: List<Option<Object>>)
    decreases env
  {
    match env
    case Nil => true
    case Cons(o, rest) =>
      && o.Some? && Current(log).Some? && o.value.body.StatefulSetBody? && Current(log).value.body.StatefulSetBody?
      && o.value == Current(log).value.(body := Current(log).value.body.(ready := o.value.body.ready))
      && StatusWrites(Append(log, o, Environment), rest)
  }

  predicate StatusScript(log: Log, script: List<Move>)
    decreases script
  {
    match script
    case Nil => true
    case Cons(mv, rest) => StatusWrites(log, mv.env) && StatusScript(Interfere(StatefulSetKind, log, mv.env), rest)
  }

  /** The status has nothing to do with whether the object is the wanted one. */
  lemma {:induction false} StatusKeepsStored(log: Log, env: List<Option<Object>>, want: Object, ca: nat)
    requires StatusWrites(log, env) && want.body.StatefulSetBody?
    ensures Stored(want, Interfere(StatefulSetKind, log, env), ca) <==> Stored(want, log, ca)
    decreases env
  {
    match env
    case Nil =>
    case Cons(o, rest) => StatusKeepsStored(Append(log, o, Environment), rest, want, ca);
  }

  lemma {:induction false} WaitEnds(t: Thread, tag: Tag)
    requires Sound(t.l.g) && t.l.g.pc == Waiting && t.l.g.waits != Nothing
    ensures var e := Finish(t, tag).l;
            && e.g.err == (if WaitSucceeds(t) then None else Some(GIVEN_UP))
            && (t.l.g.waits.ForSecret? ==> e.own == t.l.own)
    decreases t.script
  {
    FinishUnrolls(t, tag);
    var u := Advance(t, tag);
    if u.l.g.pc == Waiting {
      WaitEnds(u, tag);
    }
  }

  lemma OnePollKeepsStored(t: Thread, want: Object, tag: Tag)
    requires t.l.g.pc == Waiting && t.l.g.waits == ForReady && t.l.g.key.kind == StatefulSetKind
    requires want.body.StatefulSetBody? && StatusScript(t.l.own, t.script)
    ensures var u := Advance(t, tag);
            && (Stored(want, u.l.own, tag.ca) <==> Stored(want, t.l.own, tag.ca))
            && StatusScript(u.l.own, u.script)
            && u.l.g.key == t.l.g.key && u.l.g.waits == ForReady && (u.l.g.pc == Waiting || u.l.g.pc == Done)
            && (t.script.Nil? ==> u.l.g.pc == Done)
  {
    StatusKeepsStored(t.l.own, Head(t.script).env, want, tag.ca);
    assert Advance(t, tag).l.own == Interfere(StatefulSetKind, t.l.own, Head(t.script).env);
  }

  lemma {:induction false} WaitKeepsStored(t: Thread, want: Object, tag: Tag)
    requires Sound(t.l.g) && t.l.g.pc == Waiting && t.l.g.waits == ForReady && t.l.g.key.kind == StatefulSetKind
    requires want.body.StatefulSetBody? && StatusScript(t.l.own, t.script)
    ensures Stored(want, Finish(t, tag).l.own, tag.ca) <==> Stored(want, t.l.own, tag.ca)
    decreases t.script
  {
    FinishUnrolls(t, tag);
    OnePollKeepsStored(t, want, tag);
    if Advance(t, tag).l.g.pc == Waiting {
      WaitKeepsStored(Advance(t, tag), want, tag);
    }
  }

  /** The error slot: the message of the closure's error unless that is swallowed, and then of the wait. */
  function SlotError(err: Option<Error>, waited: bool): Option<Error> {
    if !IsBenign(err) then Some(Error(Other, Joined([err.value.msg])))
    else if waited then None
    else Some(Error(Other, TimedOut))
  }

  lemma SettlesTo(r: Thread, tag: Tag)
    requires Sound(r.l.g) && r.l.g.pc == Returned
    ensures var e := Finish(r, tag).l;
            && e.g.err == SlotError(r.l.g.err, WaitSucceeds(r))
            && (r.l.g.waits != ForReady ==> e.own == r.l.own)
  {
    JoinOne(r.l.g.err, BENIGN);
    SettleIsNext(r, tag);
    var next := Thread(r.l.(g := Settle(r.l.g)), r.script);
    if next.l.g.pc == Waiting {
      WaitEnds(next, tag);
    }
  }

  lemma SettlesStored(r: Thread, want: Object, tag: Tag)
    requires Sound(r.l.g) && r.l.g.pc == Returned && r.l.g.waits == ForReady && r.l.g.key.kind == StatefulSetKind
    requires want.body.StatefulSetBody? && StatusScript(r.l.own, r.script)
    ensures Stored(want, Finish(r, tag).l.own, tag.ca) <==> Stored(want, r.l.own, tag.ca)
  {
    SettleIsNext(r, tag);
    var next := Thread(r.l.(g := Settle(r.l.g)), r.script);
    if next.l.g.pc == Waiting {
      WaitKeepsStored(next, want, tag);
    }
  }

  /** The error slot of the whole goroutine is nil exactly if its last call went through or was in vain, and
      its wait, if it has one, succeeded; otherwise it tells what failed. */
  lemma NilSlot(l: Local, want: Object, script: List<Move>, tag: Tag)
    requires Begins(l, want, tag.ca)
    ensures var c := LastCallOf(l, want, script, tag);
            Finish(Thread(l, script), tag).l.g.err
            == SlotError(ClosureError(c, tag), (Succeeds(c) || InVain(c)) && WaitAfter(l, c, tag))
    ensures var c := LastCallOf(l, want, script, tag);
            Finish(Thread(l, script), tag).l.g.err.None? <==> (Succeeds(c) || InVain(c)) && WaitAfter(l, c, tag)
  {
    var t := Thread(l, script);
    ReconcileReturns(t, tag);
    SettlesTo(RunUntil(t, tag, 3), tag);
    ReadEnds(l, want, script, tag);
  }

  /** When the goroutine has ended without an error, its object is as wanted under the same condition as when
      the closure returned; for a StatefulSet if, during the wait, others write no more than the status. */
  lemma SettledUnlessInVain(l: Local, want: Object, script: List<Move>, tag: Tag)
    requires Begins(l, want, tag.ca) && Finish(Thread(l, script), tag).l.g.err.None?
    requires var c := LastCallOf(l, want, script, tag);
             want.body.StatefulSetBody? && !c.GivesUp? ==> StatusScript(LogAfter(c, tag), c.rest)
    ensures var c := LastCallOf(l, want, script, tag);
            Stored(want, Finish(Thread(l, script), tag).l.own, tag.ca) <==>
              !InVain(c) || (c.Creates? && Stored(want, c.log, tag.ca))
  {
    var t := Thread(l, script);
    var r := RunUntil(t, tag, 3);
    ReconcileReturns(t, tag);
    SettlesTo(r, tag);
    ReadEnds(l, want, script, tag);
    if want.body.StatefulSetBody? {
      SettlesStored(r, want, tag);
    }
  }

  // ---------- Examples ----------

  /** A lister that lags by one entry does not show a foreign Service. The reconciler tries to create its
      own, is told AlreadyExists, and returns nil; the foreign Service is still there. */
  lemma StaleCreateReturnsNil(n: Nb, foreign: Object, tag: Tag)
    requires Readable(n) && !n.meta.terminating
    requires foreign.body.ServiceBody? && !IsManaged(foreign.meta.labels)
    ensures var g := ReconcilerFor(n, ServiceKind, tag);
            var log := [Entry(Some(foreign), Environment)];
            var stale := QUIET.(lag := 1);
            var e := Finish(Thread(Local(g, log, []), Cons(stale, Nil)), tag).l;
            e.g.err.None? && !Stored(CalculateService(n), e.own, tag.ca)
  {
    var l := Local(ReconcilerFor(n, ServiceKind, tag), [Entry(Some(foreign), Environment)], []);
    var script := Cons(QUIET.(lag := 1), Nil);
    var want := CalculateService(n);
    NotebookLabelsAreManaged(n.name);
    assert AtRead(l, script) == l.own && AtWrite(l, script) == l.own;
    assert LastCallOf(l, want, script, tag) == Creates(l.own, want, QUIET, Nil);
    NilSlot(l, want, script, tag);
    SettledUnlessInVain(l, want, script, tag);
  }

  /** The Delete inside the replacement of a StatefulSet is different: its error is wrapped before anyone
      looks for NotFound, so a StatefulSet that has vanished meanwhile fails the sync. */
  lemma WrappedNotFoundIsNotSwallowed(t: Thread, tag: Tag)
    requires Sound(t.l.g) && t.l.g.pc == Purge
    requires Current(Interfere(t.l.g.key.kind, t.l.own, Head(t.script).env)).None?
    ensures Finish(t, tag).l.g.err.Some?
  {
    FinishUnrolls(t, tag);
    var u := Advance(t, tag);
    assert u.l.g.pc == Returned && u.l.g.err.Some? && u.l.g.err.value.reason == Other;
    SettlesTo(u, tag);
  }
}
