/** One reconciler when nobody interferes: the lister is fresh, no call fails, foreground deletions are
    complete, and what it waits for arrives (the StatefulSet controller reports the replicas of the spec,
    the ACME issuer stores its secret). */
module Settling {
  import opened Basics
  import opened Naming
  import opened Kube
  import opened Goroutine

  /** What the issuer stores; nobody looks inside. */
  const ISSUED := Object(Meta(map[], map[], [], false), SecretBody(map[]))

  /** The helpers act just before the wait looks. */
  function Help(l: Local): List<Option<Object>> {
    if l.g.pc != Waiting then Nil
    else if l.g.waits.ForSecret? then
      if Current(l.aux).Some? then Nil else Cons(Some(ISSUED), Nil)
    else
      match Current(l.own)
      case Some(o) =>
        if o.body.StatefulSetBody? then Cons(Some(o.(body := o.body.(ready := Target(l.g.plan)))), Nil) else Nil
      case None => Nil
  }

  function FriendlyMove(l: Local, ip: string): Move {
    Move(Help(l), 0, NoFault, true, true, ip, 0)
  }

  function FriendlyStep(l: Local, ip: string, tag: Tag): Local {
    StepOnce(l, FriendlyMove(l, ip), tag)
  }

  function FriendlyScript(l: Local, ip: string, tag: Tag): List<Move>
    requires Sound(l.g)
    decreases Rank(l.g.pc)
  {
    if l.g.pc == Done then Nil
    else
      StepProgress(l, FriendlyMove(l, ip), tag);
      var rest := FriendlyScript(FriendlyStep(l, ip, tag), ip, tag);
      if l.g.pc == Returned then rest else Cons(FriendlyMove(l, ip), rest)
  }

  function FriendlyEnd(l: Local, ip: string, tag: Tag): (r: Local)
    requires Sound(l.g)
    ensures r.g.pc == Done && r.g.key == l.g.key
    decreases Rank(l.g.pc)
  {
    if l.g.pc == Done then l
    else
      StepProgress(l, FriendlyMove(l, ip), tag);
      FriendlyEnd(FriendlyStep(l, ip, tag), ip, tag)
  }

  lemma FriendlyUnrolls(l: Local, ip: string, tag: Tag)
    requires Sound(l.g)
    ensures Sound(FriendlyStep(l, ip, tag).g)
    ensures FriendlyEnd(l, ip, tag) == if l.g.pc == Done then l else FriendlyEnd(FriendlyStep(l, ip, tag), ip, tag)
  {
    StepProgress(l, FriendlyMove(l, ip), tag);
  }

  lemma {:induction false} FriendlyRun(l: Local, ip: string, tag: Tag)
    requires Sound(l.g)
    ensures Finish(Thread(l, FriendlyScript(l, ip, tag)), tag).l == FriendlyEnd(l, ip, tag)
    decreases Rank(l.g.pc)
  {
    if l.g.pc != Done {
      StepProgress(l, FriendlyMove(l, ip), tag);
      FriendlyRun(FriendlyStep(l, ip, tag), ip, tag);
      var t := Thread(l, FriendlyScript(l, ip, tag));
      assert Advance(t, tag) == Thread(FriendlyStep(l, ip, tag), FriendlyScript(FriendlyStep(l, ip, tag), ip, tag));
    }
  }

  // ---------- Where it settles ----------

  /** Adopting the object again would change nothing, and it is as ready as its spec asks. */
  predicate Matches(want: Object, o: Object, ca: nat) {
    && Adopt(want, o, ca).Some?
    && Merge(Adopt(want, o, ca).value, o) == o
    && (o.body.StatefulSetBody? ==> o.body.ready == o.body.spec.replicas)
  }

  predicate Settled(want: Option<Object>, own: Log, ca: nat) {
    match want
    case Some(w) => Current(own).Some? && Matches(w, Current(own).value, ca)
    case None => Current(own).None?
  }

  /** Nothing stands in the way: the name is free, or taken by an object of ours. */
  predicate Open(kind: Kind, own: Log) {
    Current(own).Some? ==> KindOf(Current(own).value.body) == kind && IsManaged(Current(own).value.meta.labels)
  }

  predicate Wellmade(want: Object, ca: nat) {
    && IsManaged(want.meta.labels) && !want.meta.terminating
    && (want.body.SecretBody? && TlsCert in want.body.data ==>
          want.body.data[TlsCert].Certificate? && want.body.data[TlsCert].ca == ca && TlsKey in want.body.data)
  }

  lemma KeepIsIdempotent(made: map<DataKey, Bytes>, stored: map<DataKey, Bytes>, ca: nat)
    requires TlsCert in made ==> made[TlsCert].Certificate? && made[TlsCert].ca == ca && TlsKey in made
    ensures KeepCertificate(made, KeepCertificate(made, stored, ca), ca) == KeepCertificate(made, stored, ca)
  {}

  /** What an update of an adopted object leaves behind would be adopted unchanged. */
  lemma UpdatedMatches(want: Object, seen: Object, ca: nat)
    requires KindOf(want.body) == KindOf(seen.body) && Wellmade(want, ca) && Adopt(want, seen, ca).Some?
    ensures var o := Merge(Adopt(want, seen, ca).value, seen);
            && KindOf(o.body) == KindOf(want.body) && IsManaged(o.meta.labels)
            && Adopt(want, o, ca).Some? && Merge(Adopt(want, o, ca).value, o) == o
  {
    if want.body.SecretBody? {
      KeepIsIdempotent(want.body.data, seen.body.data, ca);
    }
  }

  lemma CreatedMatches(want: Object, ip: string, ca: nat)
    requires Wellmade(want, ca)
    ensures var o := Admit(want, ip);
            && KindOf(o.body) == KindOf(want.body) && IsManaged(o.meta.labels)
            && Adopt(want, o, ca).Some? && Merge(Adopt(want, o, ca).value, o) == o
  {}

  // ---------- Step by step ----------

  /** The stored object is what `want` asks for, except that its replicas may still be coming up. */
  ghost predicate Stored(want: Object, own: Log, ca: nat) {
    && Current(own).Some? && KindOf(Current(own).value.body) == KindOf(want.body)
    && IsManaged(Current(own).value.meta.labels)
    && Adopt(want, Current(own).value, ca).Some?
    && Merge(Adopt(want, Current(own).value, ca).value, Current(own).value) == Current(own).value
  }

  lemma OneWrite(kind: Kind, log: Log, o: Object)
    requires KindOf(o.body) == kind
    ensures Interfere(kind, log, Cons(Some(o), Nil)) == Append(log, Some(o), Environment)
  {
    assert Interfere(kind, Append(log, Some(o), Environment), Nil) == Append(log, Some(o), Environment);
  }

  /** The replicas come up, and the wait sees it at once. */
  lemma ReadyWait(l: Local, ip: string, tag: Tag)
    requires l.g.pc == Waiting && l.g.waits == ForReady && l.g.key.kind == StatefulSetKind
    requires Current(l.own).Some? && Current(l.own).value.body.StatefulSetBody?
    ensures var o := Current(l.own).value;
            var e := FriendlyStep(l, ip, tag);
            && e.g == l.g.(pc := Done, err := None, polled := |e.own|) && e.aux == l.aux
            && e.own == Append(l.own, Some(o.(body := o.body.(ready := Target(l.g.plan)))), Environment)
            && Current(e.own) == Some(o.(body := o.body.(ready := Target(l.g.plan))))
  {
    var o := Current(l.own).value;
    var up := o.(body := o.body.(ready := Target(l.g.plan)));
    OneWrite(StatefulSetKind, l.own, up);
    var log := Append(l.own, Some(up), Environment);
    assert Current(log) == Some(up);
    assert Get(log, FriendlyMove(l, ip)) == Found(up, |log|);
  }

  lemma SecretWait(l: Local, ip: string, tag: Tag)
    requires l.g.pc == Waiting && l.g.waits.ForSecret?
    ensures var e := FriendlyStep(l, ip, tag);
            && e.g == l.g.(pc := Done, err := None, polled := |e.aux|) && e.own == l.own && Current(e.aux).Some?
            && (Current(l.aux).Some? ==> e.aux == l.aux)
  {
    var mv := FriendlyMove(l, ip);
    if Current(l.aux).Some? {
      assert Interfere(SecretKind, l.aux, Nil) == l.aux;
      assert Get(l.aux, mv) == Found(Current(l.aux).value, |l.aux|);
    } else {
      OneWrite(SecretKind, l.aux, ISSUED);
      var log := Append(l.aux, Some(ISSUED), Environment);
      assert Get(log, mv) == Found(ISSUED, |log|);
    }
  }

  lemma RaisedMatches(want: Object, o: Object, ca: nat)
    requires want.body.StatefulSetBody? && o.body.StatefulSetBody?
    requires Adopt(want, o, ca).Some? && Merge(Adopt(want, o, ca).value, o) == o
    ensures var up := o.(body := o.body.(ready := o.body.spec.replicas));
            Matches(want, up, ca) && (Matches(want, o, ca) ==> up == o)
  {}

  /** The reconcile closure has returned nil: benign errors aside, the wait is all that is left. */
  lemma ReturnedEnds(l: Local, want: Object, ip: string, tag: Tag)
    requires Sound(l.g) && l.g.pc == Returned && l.g.err.None? && l.g.key.kind == KindOf(want.body)
    requires Stored(want, l.own, tag.ca)
    requires want.body.StatefulSetBody? <==> l.g.waits == ForReady
    requires want.body.StatefulSetBody? ==> Target(l.g.plan) == Current(l.own).value.body.spec.replicas
    ensures var e := FriendlyEnd(l, ip, tag);
            && e.g.err.None? && Settled(Some(want), e.own, tag.ca)
            && (Matches(want, Current(l.own).value, tag.ca) ==> e.own == l.own)
            && (l.g.waits.ForSecret? ==> Current(e.aux).Some?)
            && (!l.g.waits.ForSecret? || Current(l.aux).Some? ==> e.aux == l.aux)
  {
    var w := FriendlyStep(l, ip, tag);
    assert w == l.(g := Settle(l.g));
    FriendlyUnrolls(l, ip, tag);
    FriendlyUnrolls(w, ip, tag);
    if l.g.waits == ForReady {
      ReadyWait(w, ip, tag);
      RaisedMatches(want, Current(l.own).value, tag.ca);
    } else if l.g.waits.ForSecret? {
      SecretWait(w, ip, tag);
    }
  }

  // ---------- From the start ----------

  /** A reconciler about to start that wants `want`. */
  predicate Starts(l: Local, want: Object, ca: nat) {
    && l.g.pc == Read && l.g.plan == Keep(want, 0) && l.g.err.None?
    && l.g.key.kind == KindOf(want.body) && Wellmade(want, ca)
    && (want.body.StatefulSetBody? <==> l.g.waits == ForReady)
    && (l.g.waits.ForSecret? ==> !want.body.StatefulSetBody?)
  }

  lemma FreshRead(kind: Kind, log: Log, mv: Move)
    requires mv.env == Nil && mv.lag == 0 && mv.fault == NoFault
    ensures Interfere(kind, log, mv.env) == log
    ensures Get(log, mv) == (if Current(log).Some? then Found(Current(log).value, |log|) else Absent)
  {}

  lemma MakeEnds(l: Local, want: Object, ip: string, tag: Tag)
    requires l.g.pc == Make && l.g.plan == Keep(want, 0) && Current(l.own).None?
    requires Starts(l.(g := l.g.(pc := Read)), want, tag.ca)
    ensures var e := FriendlyEnd(l, ip, tag);
            && e.g.err.None? && Settled(Some(want), e.own, tag.ca)
            && (l.g.waits.ForSecret? ==> Current(e.aux).Some?)
            && (!l.g.waits.ForSecret? || Current(l.aux).Some? ==> e.aux == l.aux)
  {
    var mv := FriendlyMove(l, ip);
    FreshRead(l.g.key.kind, l.own, mv);
    CreatedMatches(want, ip, tag.ca);
    FriendlyUnrolls(l, ip, tag);
    var r := FriendlyStep(l, ip, tag);
    assert r.own == l.own + [Entry(Some(Admit(want, ip)), Operator(tag, Created))];
    ReturnedEnds(r, want, ip, tag);
  }

  lemma WriteEnds(l: Local, want: Object, seen: Object, ip: string, tag: Tag)
    requires Current(l.own) == Some(seen) && KindOf(seen.body) == KindOf(want.body) && IsManaged(seen.meta.labels)
    requires Adopt(want, seen, tag.ca).Some?
    requires l.g.pc == Write && l.g.plan == Keep(Adopt(want, seen, tag.ca).value, |l.own|)
    requires Starts(l.(g := l.g.(pc := Read, plan := Keep(want, 0))), want, tag.ca)
    ensures var e := FriendlyEnd(l, ip, tag);
            && e.g.err.None? && Settled(Some(want), e.own, tag.ca)
            && (Matches(want, seen, tag.ca) ==> e.own == l.own)
            && (l.g.waits.ForSecret? ==> Current(e.aux).Some?)
            && (!l.g.waits.ForSecret? || Current(l.aux).Some? ==> e.aux == l.aux)
  {
    var mv := FriendlyMove(l, ip);
    FreshRead(l.g.key.kind, l.own, mv);
    UpdatedMatches(want, seen, tag.ca);
    FriendlyUnrolls(l, ip, tag);
    var r := FriendlyStep(l, ip, tag);
    var o := Merge(Adopt(want, seen, tag.ca).value, seen);
    assert r.own == Append(l.own, Some(o), Operator(tag, Updated(|l.own|))) && Current(r.own) == Some(o);
    ReturnedEnds(r, want, ip, tag);
  }

  /** A StatefulSet whose template differs is deleted, seen to be gone, and created anew. */
  lemma PurgeEnds(l: Local, want: Object, ip: string, tag: Tag)
    requires l.g.pc == Purge && l.g.plan == Keep(want, 0) && Current(l.own).Some?
    requires Starts(l.(g := l.g.(pc := Read)), want, tag.ca) && want.body.StatefulSetBody?
    ensures var e := FriendlyEnd(l, ip, tag);
            e.g.err.None? && Settled(Some(want), e.own, tag.ca) && e.aux == l.aux
  {
    FriendlyUnrolls(l, ip, tag);
    var v := FriendlyStep(l, ip, tag);
    FriendlyUnrolls(v, ip, tag);
    FreshRead(l.g.key.kind, l.own, FriendlyMove(l, ip));
    assert v.own == l.own + [Entry(None, Operator(tag, Deleted))] && v.g.pc == Vanish;
    var m := FriendlyStep(v, ip, tag);
    FreshRead(l.g.key.kind, v.own, FriendlyMove(v, ip));
    assert m.own == v.own && m.g.pc == Make;
    MakeEnds(m, want, ip, tag);
  }

  /** A reconciler that finds its name open leaves behind what it wants, and writes nothing if that was
      already there. */
  lemma KeepEnds(l: Local, want: Object, ip: string, tag: Tag)
    requires Starts(l, want, tag.ca) && Open(KindOf(want.body), l.own)
    ensures var e := FriendlyEnd(l, ip, tag);
            && e.g.err.None? && Settled(Some(want), e.own, tag.ca)
            && (Settled(Some(want), l.own, tag.ca) ==> e.own == l.own)
            && (l.g.waits.ForSecret? ==> Current(e.aux).Some?)
            && (!l.g.waits.ForSecret? || Current(l.aux).Some? ==> e.aux == l.aux)
  {
    FreshRead(l.g.key.kind, l.own, FriendlyMove(l, ip));
    FriendlyUnrolls(l, ip, tag);
    var r := FriendlyStep(l, ip, tag);
    if Current(l.own).None? {
      MakeEnds(r, want, ip, tag);
    } else {
      var seen := Current(l.own).value;
      if Adopt(want, seen, tag.ca).Some? {
        WriteEnds(r, want, seen, ip, tag);
      } else {
        PurgeEnds(r, want, ip, tag);
      }
    }
  }

  /** A reconciler that finds an object it does not manage leaves it as it is and fails. */
  lemma ForeignEnds(l: Local, want: Object, ip: string, tag: Tag)
    requires Starts(l, want, tag.ca)
    requires Current(l.own).Some? && !IsManaged(Current(l.own).value.meta.labels)
    ensures var e := FriendlyEnd(l, ip, tag);
            e.g.err.Some? && e.own == l.own && e.aux == l.aux
  {
    FreshRead(l.g.key.kind, l.own, FriendlyMove(l, ip));
    var r := FriendlyStep(l, ip, tag);
    FriendlyUnrolls(l, ip, tag);
    FriendlyUnrolls(r, ip, tag);
    assert r.g == Return(l.g, Some(Error(Other, NotManaged)));
    JoinErrorsNil([r.g.err], BENIGN);
    assert FriendlyStep(r, ip, tag).g.pc == Done;
  }

  /** An object that should not exist is gone afterwards; NotFound is no error. */
  lemma DiscardEnds(l: Local, ip: string, tag: Tag)
    requires l.g.pc == Erase && l.g.plan == Discard && l.g.waits == Nothing && l.g.err.None?
    ensures var e := FriendlyEnd(l, ip, tag);
            && e.g.err.None? && Settled(None, e.own, tag.ca) && e.aux == l.aux
            && (Settled(None, l.own, tag.ca) ==> e.own == l.own)
  {
    FreshRead(l.g.key.kind, l.own, FriendlyMove(l, ip));
    var r := FriendlyStep(l, ip, tag);
    FriendlyUnrolls(l, ip, tag);
    FriendlyUnrolls(r, ip, tag);
    assert r.g.pc == Returned;
    JoinErrorsNil([r.g.err], BENIGN);
    assert FriendlyStep(r, ip, tag).g.pc == Done;
  }

  // ---------- Selectors ----------

  /** What the server demands of a StatefulSet: its selector matches its own pods. */
  predicate SelectsItself(o: Option<Object>) {
    o.Some? && o.value.body.StatefulSetBody?
    ==> Selects(o.value.body.spec.selector, o.value.body.spec.template.labels)
  }

  predicate PlanSelectsItself(p: Plan) {
    p.Keep? ==> SelectsItself(Some(p.want))
  }

  lemma HelpSelects(kind: Kind, log: Log, o: Object)
    requires SelectsItself(Current(log)) && SelectsItself(Some(o))
    ensures SelectsItself(Current(Interfere(kind, log, Cons(Some(o), Nil))))
  {
    if KindOf(o.body) == kind {
      OneWrite(kind, log, o);
    } else {
      assert Interfere(kind, log, Nil) == log;
    }
  }

  lemma StepSelects(l: Local, ip: string, tag: Tag)
    requires Sound(l.g) && SelectsItself(Current(l.own)) && PlanSelectsItself(l.g.plan)
    ensures var e := FriendlyStep(l, ip, tag); SelectsItself(Current(e.own)) && PlanSelectsItself(e.g.plan)
  {
    var mv := FriendlyMove(l, ip);
    if l.g.pc == Waiting {
      if mv.env.Cons? && !l.g.waits.ForSecret? {
        HelpSelects(l.g.key.kind, l.own, mv.env.head.value);
      }
    } else {
      FreshRead(l.g.key.kind, l.own, mv);
    }
  }

  /** Adopted or made anew, the StatefulSet goes on selecting its pods. */
  lemma {:induction false} EndSelects(l: Local, ip: string, tag: Tag)
    requires Sound(l.g) && SelectsItself(Current(l.own)) && PlanSelectsItself(l.g.plan)
    ensures SelectsItself(Current(FriendlyEnd(l, ip, tag).own))
    decreases Rank(l.g.pc)
  {
    if l.g.pc != Done {
      StepProgress(l, FriendlyMove(l, ip), tag);
      FriendlyUnrolls(l, ip, tag);
      StepSelects(l, ip, tag);
      EndSelects(FriendlyStep(l, ip, tag), ip, tag);
    }
  }
}
