/** The functions of pkg/k8sutil that call the API server, in the imperative form of the source. Each is
    proved to do exactly what the goroutine machine does when it runs alone against the same script of
    interference, staleness and faults. */
module Resources {
  import opened Basics
  import opened NotebookTypes
  import opened Naming
  import opened Kube
  import opened Goroutine

  /** The API server and the informer caches. `script` holds what the adversary does around each call. */
  class Server {
    var logs: Logs
    var script: List<Move>

    constructor (logs: Logs, script: List<Move>)
      ensures this.logs == logs && this.script == script
    {
      this.logs := logs;
      this.script := script;
    }

    /** Others get their turn on `key`. */
    method Yield(key: Key) returns (mv: Move)
      modifies this
      ensures mv == Head(old(script)) && script == Tail(old(script))
      ensures logs == old(logs)[key := Interfere(key.kind, LogOf(old(logs), key), mv.env)]
    {
      mv := Head(script);
      script := Tail(script);
      logs := logs[key := Interfere(key.kind, LogOf(logs, key), mv.env)];
    }

    /** A lister read; `timeout` tells a polling loop that this was its last attempt. */
    method Lookup(key: Key) returns (found: Lookup, timeout: bool)
      modifies this
      ensures var mv := Head(old(script));
              var log := Interfere(key.kind, LogOf(old(logs), key), mv.env);
              && logs == old(logs)[key := log] && script == Tail(old(script))
              && found == Get(log, mv) && timeout == mv.timeout
      ensures Typed(key.kind, LogOf(old(logs), key)) && found.Found? ==> KindOf(found.obj.body) == key.kind
    {
      if Typed(key.kind, LogOf(logs, key)) {
        InterfereTyped(key.kind, LogOf(logs, key), Head(script).env);
      }
      var mv := Yield(key);
      found, timeout := Get(LogOf(logs, key), mv), mv.timeout;
    }

    method Create(key: Key, o: Object, tag: Tag) returns (err: Option<Error>)
      modifies this
      ensures var mv := Head(old(script));
              var r := Kube.Create(Interfere(key.kind, LogOf(old(logs), key), mv.env), o, tag, mv);
              logs == old(logs)[key := r.log] && script == Tail(old(script)) && err == r.err
    {
      var mv := Yield(key);
      var r := Kube.Create(LogOf(logs, key), o, tag, mv);
      logs, err := logs[key := r.log], r.err;
    }

    method Update(key: Key, o: Object, rv: nat, tag: Tag) returns (err: Option<Error>)
      modifies this
      ensures var mv := Head(old(script));
              var r := Kube.Update(Interfere(key.kind, LogOf(old(logs), key), mv.env), o, rv, tag, mv);
              logs == old(logs)[key := r.log] && script == Tail(old(script)) && err == r.err
    {
      var mv := Yield(key);
      var r := Kube.Update(LogOf(logs, key), o, rv, tag, mv);
      logs, err := logs[key := r.log], r.err;
    }

    method UpdateStatus(key: Key, phase: Phase, rv: nat, tag: Tag) returns (err: Option<Error>)
      modifies this
      ensures var mv := Head(old(script));
              var r := Kube.UpdateStatus(Interfere(key.kind, LogOf(old(logs), key), mv.env), phase, rv, tag, mv);
              logs == old(logs)[key := r.log] && script == Tail(old(script)) && err == r.err
    {
      var mv := Yield(key);
      var r := Kube.UpdateStatus(LogOf(logs, key), phase, rv, tag, mv);
      logs, err := logs[key := r.log], r.err;
    }

    method Delete(key: Key, foreground: bool, tag: Tag) returns (err: Option<Error>)
      modifies this
      ensures var mv := Head(old(script));
              var r := Kube.Delete(Interfere(key.kind, LogOf(old(logs), key), mv.env), foreground, tag, mv);
              logs == old(logs)[key := r.log] && script == Tail(old(script)) && err == r.err
    {
      var mv := Yield(key);
      var r := Kube.Delete(LogOf(logs, key), foreground, tag, mv);
      logs, err := logs[key := r.log], r.err;
    }
  }

  /** The calculated object that reconcile and wait share through a pointer; `rv` is its ResourceVersion,
      0 while unset. */
  class Request {
    var obj: Object
    var rv: nat

    constructor (obj: Object)
      ensures this.obj == obj && rv == 0
    {
      this.obj, this.rv := obj, 0;
    }
  }

  function Beginning(key: Key, plan: Plan, waits: Waits, pc: Pc, logs: Logs, script: List<Move>): Thread {
    Thread(Local(Goro(key, plan, waits, pc, None, 0), LogOf(logs, key), []), script)
  }

  /** The cluster that a goroutine started in, as the machine state `t` has left it by now. */
  ghost predicate Tracks(s: Server, before: Logs, key: Key, t: Thread)
    reads s
  {
    s.logs == before[key := t.l.own] && s.script == t.script
  }

  /** `t` lies on the run of the reconcile closure that began as `t0`. */
  ghost predicate OnTheWay(t0: Thread, t: Thread, tag: Tag)
    requires Sound(t0.l.g)
  {
    Sound(t.l.g) && RunUntil(t0, tag, 3) == RunUntil(t, tag, 3)
  }

  lemma Onward(t0: Thread, t: Thread, tag: Tag)
    requires Sound(t0.l.g) && OnTheWay(t0, t, tag) && Rank(t.l.g.pc) > 3
    ensures OnTheWay(t0, Advance(t, tag), tag)
  {
    StepProgress(t.l, Head(t.script), tag);
  }

  /** The log that the next call of `t` finds. */
  function Now(t: Thread): Log {
    Interfere(t.l.g.key.kind, t.l.own, Head(t.script).env)
  }

  function Moved(t: Thread, g: Goro, own: Log): Thread {
    Thread(Local(g, own, t.l.aux), Tail(t.script))
  }

  lemma AfterRead(t0: Thread, t: Thread, tag: Tag)
    requires Sound(t0.l.g) && OnTheWay(t0, t, tag) && t.l.g.pc == Read
    ensures OnTheWay(t0, Moved(t, OnRead(t.l.g, Get(Now(t), Head(t.script)), tag.ca), Now(t)), tag)
  {
    Onward(t0, t, tag);
  }

  lemma AfterCreate(t0: Thread, t: Thread, tag: Tag) returns (end: Thread)
    requires Sound(t0.l.g) && OnTheWay(t0, t, tag) && t.l.g.pc == Make
    ensures var r := Create(Now(t), t.l.g.plan.want, tag, Head(t.script));
            end == Moved(t, Return(t.l.g, r.err), r.log) && end == RunUntil(t0, tag, 3)
  {
    end := Advance(t, tag);
    Onward(t0, t, tag);
  }

  lemma AfterUpdate(t0: Thread, t: Thread, tag: Tag) returns (end: Thread)
    requires Sound(t0.l.g) && OnTheWay(t0, t, tag) && t.l.g.pc == Write
    ensures var r := Update(Now(t), t.l.g.plan.want, t.l.g.plan.rv, tag, Head(t.script));
            end == Moved(t, Return(t.l.g, r.err), r.log) && end == RunUntil(t0, tag, 3)
  {
    end := Advance(t, tag);
    Onward(t0, t, tag);
  }

  /** `c.Create(obj)`, whose error is the function's. */
  method ReturnCreate(s: Server, key: Key, req: Request, tag: Tag, ghost before: Logs, ghost t0: Thread, ghost t: Thread)
    returns (err: Option<Error>, ghost end: Thread)
    requires Sound(t0.l.g) && OnTheWay(t0, t, tag) && t.l.g.pc == Make && t.l.g.key == key
    requires Tracks(s, before, key, t) && t.l.g.plan == Keep(req.obj, req.rv)
    modifies s
    ensures end == RunUntil(t0, tag, 3)
    ensures Tracks(s, before, key, end) && end.l.g == Return(t.l.g, err)
  {
    end := AfterCreate(t0, t, tag);
    err := s.Create(key, req.obj, tag);
  }

  /** `c.Update(obj)`, whose error is the function's. */
  method ReturnUpdate(s: Server, key: Key, req: Request, tag: Tag, ghost before: Logs, ghost t0: Thread, ghost t: Thread)
    returns (err: Option<Error>, ghost end: Thread)
    requires Sound(t0.l.g) && OnTheWay(t0, t, tag) && t.l.g.pc == Write && t.l.g.key == key
    requires Tracks(s, before, key, t) && t.l.g.plan == Keep(req.obj, req.rv)
    modifies s
    ensures end == RunUntil(t0, tag, 3)
    ensures Tracks(s, before, key, end) && end.l.g == Return(t.l.g, err)
  {
    end := AfterUpdate(t0, t, tag);
    err := s.Update(key, req.obj, req.rv, tag);
  }

  method CreateOrUpdateService(s: Server, key: Key, svc: Request, tag: Tag, ghost waits: Waits)
    returns (err: Option<Error>, ghost end: Thread)
    requires key.kind == ServiceKind && svc.obj.body.ServiceBody? && Typed(ServiceKind, LogOf(s.logs, key))
    modifies s, svc
    ensures var start := Beginning(key, Keep(old(svc.obj), old(svc.rv)), waits, Read, old(s.logs), old(s.script));
            end == RunUntil(start, tag, 3)
    ensures Tracks(s, old(s.logs), key, end) && end.l.g.err == err && end.l.g.plan == Keep(svc.obj, svc.rv)
  {
    ghost var t0 := Beginning(key, Keep(svc.obj, svc.rv), waits, Read, s.logs, s.script);
    AfterRead(t0, t0, tag);
    var found, _ := s.Lookup(key);
    end := Moved(t0, OnRead(t0.l.g, found, tag.ca), Now(t0));
    assert Tracks(s, old(s.logs), key, end);
    if found.Broken? {
      err := Some(found.err);
    } else if found.Absent? {
      err, end := ReturnCreate(s, key, svc, tag, old(s.logs), t0, end);
    } else if !IsManaged(found.obj.meta.labels) {
      err := Some(Error(Other, NotManaged));
    } else {
      svc.rv := found.rv;
      svc.obj := svc.obj.(body := svc.obj.body.(clusterIP := found.obj.body.clusterIP));
      assert end.l.g.pc == Write && end.l.g.plan == Keep(svc.obj, svc.rv);
      err, end := ReturnUpdate(s, key, svc, tag, old(s.logs), t0, end);
    }
  }

  /** Keeps a certificate that parses and that this CA has signed, with its key. */
  method KeepStoredCertificate(secret: Request, stored: map<DataKey, Bytes>, ca: nat)
    requires secret.obj.body.SecretBody?
    modifies secret`obj
    ensures secret.obj == old(secret.obj).(body := SecretBody(KeepCertificate(old(secret.obj).body.data, stored, ca)))
  {
    var data := secret.obj.body.data;
    if TlsCert in stored && TlsCert in data && data[TlsCert] != NoBytes {
      if stored[TlsCert].Certificate? && stored[TlsCert].ca == ca {
        data := data[TlsCert := stored[TlsCert]];
        data := data[TlsKey := if TlsKey in stored then stored[TlsKey] else NoBytes];
      }
    }
    secret.obj := secret.obj.(body := SecretBody(data));
  }

  method CreateOrUpdateSecret(s: Server, key: Key, secret: Request, tag: Tag, ghost waits: Waits)
    returns (err: Option<Error>, ghost end: Thread)
    requires key.kind == SecretKind && secret.obj.body.SecretBody? && Typed(SecretKind, LogOf(s.logs, key))
    modifies s, secret
    ensures var start := Beginning(key, Keep(old(secret.obj), old(secret.rv)), waits, Read, old(s.logs), old(s.script));
            end == RunUntil(start, tag, 3)
    ensures Tracks(s, old(s.logs), key, end) && end.l.g.err == err && end.l.g.plan == Keep(secret.obj, secret.rv)
  {
    ghost var t0 := Beginning(key, Keep(secret.obj, secret.rv), waits, Read, s.logs, s.script);
    AfterRead(t0, t0, tag);
    var found, _ := s.Lookup(key);
    end := Moved(t0, OnRead(t0.l.g, found, tag.ca), Now(t0));
    assert Tracks(s, old(s.logs), key, end);
    if found.Broken? {
      err := Some(found.err);
    } else if found.Absent? {
      err, end := ReturnCreate(s, key, secret, tag, old(s.logs), t0, end);
    } else if !IsManaged(found.obj.meta.labels) {
      err := Some(Error(Other, NotManaged));
    } else {
      KeepStoredCertificate(secret, found.obj.body.data, tag.ca);
      secret.rv := found.rv;
      assert end.l.g.pc == Write && end.l.g.plan == Keep(secret.obj, secret.rv);
      err, end := ReturnUpdate(s, key, secret, tag, old(s.logs), t0, end);
    }
  }

  method CreateOrUpdateIngress(s: Server, key: Key, ing: Request, tag: Tag, ghost waits: Waits)
    returns (err: Option<Error>, ghost end: Thread)
    requires key.kind == IngressKind && ing.obj.body.IngressBody?
    modifies s, ing
    ensures var start := Beginning(key, Keep(old(ing.obj), old(ing.rv)), waits, Read, old(s.logs), old(s.script));
            end == RunUntil(start, tag, 3)
    ensures Tracks(s, old(s.logs), key, end) && end.l.g.err == err && end.l.g.plan == Keep(ing.obj, ing.rv)
  {
    ghost var t0 := Beginning(key, Keep(ing.obj, ing.rv), waits, Read, s.logs, s.script);
    AfterRead(t0, t0, tag);
    var found, _ := s.Lookup(key);
    end := Moved(t0, OnRead(t0.l.g, found, tag.ca), Now(t0));
    assert Tracks(s, old(s.logs), key, end);
    if found.Broken? {
      err := Some(found.err);
    } else if found.Absent? {
      err, end := ReturnCreate(s, key, ing, tag, old(s.logs), t0, end);
    } else if !IsManaged(found.obj.meta.labels) {
      err := Some(Error(Other, NotManaged));
    } else {
      ing.rv := found.rv;
      assert end.l.g.pc == Write && end.l.g.plan == Keep(ing.obj, ing.rv);
      err, end := ReturnUpdate(s, key, ing, tag, old(s.logs), t0, end);
    }
  }

  lemma AfterPurge(t0: Thread, t: Thread, tag: Tag) returns (next: Thread)
    requires Sound(t0.l.g) && OnTheWay(t0, t, tag) && t.l.g.pc == Purge
    ensures var r := Delete(Now(t), true, tag, Head(t.script));
            && next == Moved(t, if r.err.Some? then Return(t.l.g, Some(Error(Other, Because(DeletingOld, r.err.value.msg))))
                                else t.l.g.(pc := Vanish), r.log)
            && OnTheWay(t0, next, tag)
  {
    Onward(t0, t, tag);
    next := Advance(t, tag);
  }

  lemma AfterVanish(t0: Thread, t: Thread, tag: Tag) returns (next: Thread)
    requires Sound(t0.l.g) && OnTheWay(t0, t, tag) && t.l.g.pc == Vanish
    ensures var found := Get(Now(t), Head(t.script));
            && next == Moved(t, if found.Absent? then t.l.g.(pc := Make)
                                else if Head(t.script).timeout
                                then Return(t.l.g, Some(Error(Other, Because(WaitingForDeletion, TimedOut))))
                                else t.l.g, Now(t))
            && OnTheWay(t0, next, tag)
  {
    Onward(t0, t, tag);
    next := Advance(t, tag);
  }

  /** Polls until the lister has lost the StatefulSet. `t` is where the caller's run stands. */
  method WaitForStatefulSetDeleted(s: Server, key: Key, tag: Tag, ghost before: Logs, ghost t0: Thread, ghost t: Thread)
    returns (err: Option<Error>, ghost end: Thread)
    requires Sound(t0.l.g) && OnTheWay(t0, t, tag) && t.l.g.pc == Vanish && t.l.g.key == key
    requires Tracks(s, before, key, t)
    modifies s
    ensures Tracks(s, before, key, end) && OnTheWay(t0, end, tag)
    ensures err.None? ==> end.l.g == t.l.g.(pc := Make)
    ensures err.Some? ==> end.l.g == Return(t.l.g, Some(Error(Other, Because(WaitingForDeletion, err.value.msg))))
  {
    end := t;
    while true
      invariant Tracks(s, before, key, end) && OnTheWay(t0, end, tag) && end.l.g == t.l.g
      decreases s.script
    {
      ghost var last := end;
      end := AfterVanish(t0, last, tag);
      ghost var script := s.script;
      var found, timeout := s.Lookup(key);
      assert Tracks(s, before, key, end);
      if found.Absent? {
        return None, end;
      }
      if timeout {
        return Some(GIVEN_UP), end;
      }
      assert script.Cons?;
    }
  }

  method CreateOrUpdateStatefulSet(s: Server, key: Key, sts: Request, tag: Tag, ghost waits: Waits)
    returns (err: Option<Error>, ghost end: Thread)
    requires key.kind == StatefulSetKind && sts.obj.body.StatefulSetBody? && Typed(StatefulSetKind, LogOf(s.logs, key))
    modifies s, sts
    ensures var start := Beginning(key, Keep(old(sts.obj), old(sts.rv)), waits, Read, old(s.logs), old(s.script));
            end == RunUntil(start, tag, 3)
    ensures Tracks(s, old(s.logs), key, end) && end.l.g.err == err && end.l.g.plan == Keep(sts.obj, sts.rv)
  {
    ghost var t0 := Beginning(key, Keep(sts.obj, sts.rv), waits, Read, s.logs, s.script);
    AfterRead(t0, t0, tag);
    var found, _ := s.Lookup(key);
    end := Moved(t0, OnRead(t0.l.g, found, tag.ca), Now(t0));
    assert Tracks(s, old(s.logs), key, end);
    if found.Broken? {
      err := Some(found.err);
    } else if found.Absent? {
      err, end := ReturnCreate(s, key, sts, tag, old(s.logs), t0, end);
    } else if !IsManaged(found.obj.meta.labels) {
      err := Some(Error(Other, NotManaged));
    } else if sts.obj.body.spec.template == found.obj.body.spec.template {
      sts.rv := found.rv;
      sts.obj := sts.obj.(body := sts.obj.body.(spec := found.obj.body.spec));
      assert end.l.g.pc == Write && end.l.g.plan == Keep(sts.obj, sts.rv);
      err, end := ReturnUpdate(s, key, sts, tag, old(s.logs), t0, end);
    } else {
      assert end.l.g.pc == Purge && end.l.g.plan == Keep(sts.obj, sts.rv);
      err, end := Replace(s, key, sts, tag, old(s.logs), t0, end);
    }
  }

  /** The foreground deletion of the old StatefulSet. */
  method DeleteOld(s: Server, key: Key, tag: Tag, ghost before: Logs, ghost t0: Thread, ghost t: Thread)
    returns (err: Option<Error>, ghost end: Thread)
    requires Sound(t0.l.g) && OnTheWay(t0, t, tag) && t.l.g.pc == Purge && t.l.g.key == key && Tracks(s, before, key, t)
    modifies s
    ensures Tracks(s, before, key, end) && OnTheWay(t0, end, tag)
    ensures end.l.g == if err.Some? then Return(t.l.g, err) else t.l.g.(pc := Vanish)
  {
    end := AfterPurge(t0, t, tag);
    err := s.Delete(key, true, tag);
    if err.Some? {
      err := Some(Error(Other, Because(DeletingOld, err.value.msg)));
    }
  }

  /** The template differs: delete the old StatefulSet, wait until it is gone, create the new one. */
  method Replace(s: Server, key: Key, sts: Request, tag: Tag, ghost before: Logs, ghost t0: Thread, ghost t: Thread)
    returns (err: Option<Error>, ghost end: Thread)
    requires Sound(t0.l.g) && OnTheWay(t0, t, tag) && t.l.g.pc == Purge && t.l.g.key == key
    requires Tracks(s, before, key, t) && t.l.g.plan == Keep(sts.obj, sts.rv)
    modifies s
    ensures end == RunUntil(t0, tag, 3)
    ensures Tracks(s, before, key, end) && end.l.g.err == err && end.l.g.plan == t.l.g.plan
  {
    err, end := DeleteOld(s, key, tag, before, t0, t);
    if err.Some? {
      return;
    }
    err, end := WaitForStatefulSetDeleted(s, key, tag, before, t0, end);
    if err.Some? {
      return Some(Error(Other, Because(WaitingForDeletion, err.value.msg))), end;
    }
    err, end := ReturnCreate(s, key, sts, tag, before, t0, end);
  }

  // ---------- Waiting ----------

  lemma AfterPoll(t: Thread, tag: Tag) returns (next: Thread)
    requires Sound(t.l.g) && t.l.g.pc == Waiting
    ensures next == Advance(t, tag) && next.script == Tail(t.script)
    ensures Sound(next.l.g) && RunUntil(t, tag, 0) == RunUntil(next, tag, 0)
    ensures t.l.g.waits.ForSecret? ==>
              var aux := Interfere(SecretKind, t.l.aux, Head(t.script).env);
              var found := Get(aux, Head(t.script));
              next.l == t.l.(g := OnPoll(t.l.g, found.Found?, found, Head(t.script)), aux := aux)
    ensures !t.l.g.waits.ForSecret? ==>
              var found := Get(Now(t), Head(t.script));
              next.l == t.l.(g := OnPoll(t.l.g, IsReady(found, Target(t.l.g.plan)), found, Head(t.script)), own := Now(t))
  {
    StepProgress(t.l, Head(t.script), tag);
    next := Advance(t, tag);
  }

  /** Reads the target from the object that CreateOrUpdateStatefulSet may have overwritten. */
  method WaitForStatefulSet(s: Server, key: Key, sts: Request, tag: Tag)
    returns (err: Option<Error>, ghost end: Thread)
    requires key.kind == StatefulSetKind && sts.obj.body.StatefulSetBody?
    modifies s
    ensures end == RunUntil(Beginning(key, Keep(sts.obj, sts.rv), ForReady, Waiting, old(s.logs), old(s.script)), tag, 0)
    ensures s.logs == old(s.logs)[key := end.l.own] && s.script == end.script && end.l.g.err == err
    ensures err.None? ==>
              var p := end.l.g.polled;
              && p <= |end.l.own| && Seen(end.l.own, p).Some?
              && Seen(end.l.own, p).value.body.StatefulSetBody?
              && Seen(end.l.own, p).value.body.ready == sts.obj.body.spec.replicas
  {
    ghost var t0 := Beginning(key, Keep(sts.obj, sts.rv), ForReady, Waiting, s.logs, s.script);
    ghost var before := s.logs;
    end := t0;
    while true
      invariant Sound(end.l.g) && RunUntil(t0, tag, 0) == RunUntil(end, tag, 0) && end.l.g == t0.l.g
      invariant LogOf(s.logs, key) == end.l.own && s.script == end.script
      invariant s.logs == before || s.logs == before[key := end.l.own]
      decreases s.script
    {
      ghost var last := end;
      end := AfterPoll(last, tag);
      var found, timeout := s.Lookup(key);
      assert s.logs == before[key := end.l.own];
      if IsReady(found, sts.obj.body.spec.replicas) {
        assert Seen(end.l.own, found.rv) == Some(found.obj);
        return None, end;
      }
      if timeout {
        return Some(GIVEN_UP), end;
      }
    }
  }

  /** An Ingress reconciler of `own` that starts to wait for the secret `key`. */
  function Polling(own: Key, plan: Plan, key: Key, logs: Logs, script: List<Move>): Thread {
    Thread(Local(Goro(own, plan, ForSecret(key), Waiting, None, 0), LogOf(logs, own), LogOf(logs, key)), script)
  }

  method WaitForIngressTlsSecret(s: Server, key: Key, ghost plan: Plan, ghost own: Key, tag: Tag)
    returns (err: Option<Error>, ghost end: Thread)
    requires key.kind == SecretKind
    modifies s
    ensures end == RunUntil(Polling(own, plan, key, old(s.logs), old(s.script)), tag, 0)
    ensures s.logs == old(s.logs)[key := end.l.aux] && s.script == end.script && end.l.g.err == err
    ensures end.l.own == LogOf(old(s.logs), own)
  {
    ghost var t0 := Polling(own, plan, key, s.logs, s.script);
    ghost var before := s.logs;
    end := t0;
    while true
      invariant Sound(end.l.g) && RunUntil(t0, tag, 0) == RunUntil(end, tag, 0)
      invariant end.l.g == t0.l.g && end.l.own == t0.l.own
      invariant LogOf(s.logs, key) == end.l.aux && s.script == end.script
      invariant s.logs == before || s.logs == before[key := end.l.aux]
      decreases s.script
    {
      ghost var last := end;
      end := AfterPoll(last, tag);
      var found, timeout := s.Lookup(key);
      assert s.logs == before[key := end.l.aux];
      if found.Found? {
        return None, end;
      }
      if timeout {
        return Some(GIVEN_UP), end;
      }
    }
  }
}
