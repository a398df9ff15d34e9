/** One reconciler goroutine as a machine that makes one API call or one lister read per step: the
    closures of pkg/controller/reconcilers.go run by the goroutine of pkg/controller/handlers.go:23-45,
    over the CreateOrUpdate, Delete and WaitFor functions of pkg/k8sutil. */
module Goroutine {
  import opened Basics
  import opened NotebookTypes
  import opened Naming
  import opened Kube
  import opened Calculate

  /** `Purge`, `Vanish`, `Make`: delete the old StatefulSet, poll until the lister has lost it, create
      the new one. `Returned`: the reconcile closure has returned; `Done`: so has the goroutine. */
  datatype Pc = Read | Write | Make | Purge | Vanish | Erase | Returned | Waiting | Done

  /** `want` and `rv` are the fields of the object that the closures share and overwrite. */
  datatype Plan = Keep(want: Object, rv: nat) | Discard

  datatype Waits = Nothing | ForReady | ForSecret(key: Key)

  /** `polled` is the ResourceVersion that a successful wait got from the lister. */
  datatype Goro = Goro(key: Key, plan: Plan, waits: Waits, pc: Pc, err: Option<Error>, polled: nat)

  /** A goroutine with the two logs it can touch: its own object's, and the ACME secret's if it waits
      for one. */
  datatype Local = Local(g: Goro, own: Log, aux: Log)

  // ---------- joinErrors ----------

  function Messages(errs: seq<Option<Error>>, ignore: set<Reason>): seq<Message> {
    if errs == [] then []
    else
      (if errs[0].Some? && errs[0].value.reason !in ignore then [errs[0].value.msg] else [])
      + Messages(errs[1..], ignore)
  }

  function JoinErrors(errs: seq<Option<Error>>, ignore: set<Reason>): Option<Error> {
    var parts := Messages(errs, ignore);
    if parts == [] then None else Some(Error(Other, Joined(parts)))
  }

  /** The joined error is nil exactly when every error is nil or ignored. */
  lemma {:induction false} JoinErrorsNil(errs: seq<Option<Error>>, ignore: set<Reason>)
    ensures JoinErrors(errs, ignore).None?
       <==> forall i :: 0 <= i < |errs| ==> errs[i].None? || errs[i].value.reason in ignore
  {
    if errs != [] {
      JoinErrorsNil(errs[1..], ignore);
      assert forall i :: 0 < i < |errs| ==> errs[i] == errs[1..][i - 1];
    }
  }

  /** Each error that is not ignored has its message in the joined one, in order, and no other has. */
  lemma {:induction false} MessagesAre(errs: seq<Option<Error>>, e: Option<Error>, ignore: set<Reason>)
    ensures Messages(errs + [e], ignore)
         == Messages(errs, ignore) + (if e.Some? && e.value.reason !in ignore then [e.value.msg] else [])
  {
    if errs == [] {
      assert [e][1..] == [];
    } else {
      assert (errs + [e])[1..] == errs[1..] + [e];
      MessagesAre(errs[1..], e, ignore);
    }
  }

  lemma JoinOne(e: Option<Error>, ignore: set<Reason>)
    ensures JoinErrors([e], ignore)
         == if e.Some? && e.value.reason !in ignore then Some(Error(Other, Joined([e.value.msg]))) else None
  {
    assert [e][1..] == [];
    assert Messages([e], ignore) == if e.Some? && e.value.reason !in ignore then [e.value.msg] else [];
  }

  const BENIGN := {NotFound, AlreadyExists}

  /** A joined error is never ignored itself, so it may be joined again. */
  lemma JoinedIsNotBenign(errs: seq<Option<Error>>, ignore: set<Reason>)
    ensures JoinErrors([JoinErrors(errs, ignore)], BENIGN).None? <==> JoinErrors(errs, ignore).None?
  {
    JoinErrorsNil([JoinErrors(errs, ignore)], BENIGN);
  }

  // ---------- Adoption ----------

  /** A stored certificate of this CA replaces the fresh one, key included. */
  function KeepCertificate(made: map<DataKey, Bytes>, stored: map<DataKey, Bytes>, ca: nat): map<DataKey, Bytes> {
    if TlsCert in stored && TlsCert in made && made[TlsCert] != NoBytes
       && stored[TlsCert].Certificate? && stored[TlsCert].ca == ca
    then made[TlsCert := stored[TlsCert]]
      [TlsKey := if TlsKey in stored then stored[TlsKey] else NoBytes]
    else made
  }

  /** What the operator writes over an object it adopts; None if it must be replaced instead. */
  function Adopt(want: Object, seen: Object, ca: nat): Option<Object> {
    match (want.body, seen.body)
    case (ServiceBody(_, _, _), ServiceBody(_, _, ip)) =>
      Some(want.(body := want.body.(clusterIP := ip)))
    case (SecretBody(made), SecretBody(stored)) =>
      Some(want.(body := SecretBody(KeepCertificate(made, stored, ca))))
    case (StatefulSetBody(s, _), StatefulSetBody(t, _)) =>
      if s.template == t.template then Some(want.(body := want.body.(spec := t))) else None
    case _ => Some(want)
  }

  /** Whatever is stored, only certificate and key can be kept; everything else, the password in particular,
      is as calculated. Both are kept if the stored certificate is of this CA and one is wanted, else neither. */
  lemma OnlyCertificateIsKept(made: map<DataKey, Bytes>, stored: map<DataKey, Bytes>, ca: nat)
    requires TlsCert in made ==> made[TlsCert].Certificate? && TlsKey in made
    ensures var kept := KeepCertificate(made, stored, ca);
            && kept - {TlsCert, TlsKey} == made - {TlsCert, TlsKey} && kept.Keys == made.Keys
            && (TlsCert in made ==>
                  if TlsCert in stored && stored[TlsCert].Certificate? && stored[TlsCert].ca == ca
                  then kept[TlsCert] == stored[TlsCert]
                       && kept[TlsKey] == (if TlsKey in stored then stored[TlsKey] else NoBytes)
                  else kept[TlsCert] == made[TlsCert] && kept[TlsKey] == made[TlsKey])
            && (TlsCert !in made ==> kept == made)
  {}

  /** What adoption changes of the object that is wanted: of a Service the cluster IP, of a StatefulSet the
      spec, of a Secret certificate and key, of an Ingress nothing; and never the metadata. */
  lemma AdoptionIs(want: Object, seen: Object, ca: nat)
    requires KindOf(want.body) == KindOf(seen.body)
    ensures Adopt(want, seen, ca).None? <==>
              want.body.StatefulSetBody? && want.body.spec.template != seen.body.spec.template
    ensures Adopt(want, seen, ca).Some? ==>
              var o := Adopt(want, seen, ca).value;
              && o.meta == want.meta
              && (want.body.ServiceBody? ==>
                    o.body == ServiceBody(want.body.port, want.body.selector, seen.body.clusterIP))
              && (want.body.IngressBody? ==> o == want)
              && (want.body.StatefulSetBody? ==> o.body.StatefulSetBody? && o.body.spec == seen.body.spec)
              && (want.body.SecretBody? ==>
                    o.body.SecretBody? && o.body.data - {TlsCert, TlsKey} == want.body.data - {TlsCert, TlsKey})
  {}

  // ---------- Steps ----------

  function Return(g: Goro, err: Option<Error>): Goro {
    g.(pc := Returned, err := err)
  }

  function OnRead(g: Goro, found: Lookup, ca: nat): Goro {
    match (found, g.plan)
    case (Broken(e), _) => Return(g, Some(e))
    case (Absent, _) => g.(pc := Make)
    case (Found(s, rv), Keep(want, _)) =>
      if !IsManaged(s.meta.labels) then
        Return(g, Some(Error(Other, NotManaged)))
      else
        var adopted := Adopt(want, s, ca);
        if adopted.Some? then g.(plan := Keep(adopted.value, rv), pc := Write) else g.(pc := Purge)
    case (Found(_, _), Discard) => g
  }

  /** The goroutine after the reconcile closure: benign errors are dropped, then it waits. */
  function Settle(g: Goro): Goro {
    var err := if g.err.None? then None else JoinErrors([g.err], BENIGN);
    if err.Some? || g.waits.Nothing? then g.(pc := Done, err := err) else g.(pc := Waiting, err := None)
  }

  /** What a retry that is given up ends with, whatever its last attempt said. */
  const GIVEN_UP := Error(Other, TimedOut)

  function OnPoll(g: Goro, ok: bool, found: Lookup, mv: Move): Goro {
    if ok then g.(pc := Done, err := None, polled := if found.Found? then found.rv else 0)
    else if mv.timeout then g.(pc := Done, err := Some(GIVEN_UP))
    else g
  }

  /** `*sts.Spec.Replicas` of the shared object. */
  function Target(p: Plan): int {
    if p.Keep? && p.want.body.StatefulSetBody? then p.want.body.spec.replicas else 0
  }

  predicate IsReady(found: Lookup, target: int) {
    found.Found? && found.obj.body.StatefulSetBody? && found.obj.body.ready == target
  }

  /** An action on the goroutine's own object, whose log is `log`. */
  function Act(g: Goro, log: Log, mv: Move, tag: Tag): (Goro, Log) {
    match (g.pc, g.plan)
    case (Read, _) => (OnRead(g, Get(log, mv), tag.ca), log)
    case (Write, Keep(want, rv)) =>
      var r := Update(log, want, rv, tag, mv);
      (Return(g, r.err), r.log)
    case (Make, Keep(want, _)) =>
      var r := Create(log, want, tag, mv);
      (Return(g, r.err), r.log)
    case (Purge, _) =>
      var r := Delete(log, true, tag, mv);
      if r.err.Some? then
        (Return(g, Some(Error(Other, Because(DeletingOld, r.err.value.msg)))), r.log)
      else (g.(pc := Vanish), r.log)
    case (Vanish, _) =>
      if Get(log, mv).Absent? then (g.(pc := Make), log)
      else if mv.timeout then
        (Return(g, Some(Error(Other, Because(WaitingForDeletion, TimedOut)))), log)
      else (g, log)
    case (Erase, _) =>
      var r := Delete(log, false, tag, mv);
      (Return(g, r.err), r.log)
    case (Waiting, plan) =>
      var found := Get(log, mv);
      (OnPoll(g, IsReady(found, Target(plan)), found, mv), log)
    case (_, _) => (g, log)
  }

  function StepOnce(l: Local, mv: Move, tag: Tag): Local {
    var g := l.g;
    if g.pc == Returned then l.(g := Settle(g))
    else if g.pc == Done then l
    else if g.pc == Waiting && g.waits.ForSecret? then
      var aux := Interfere(SecretKind, l.aux, mv.env);
      var found := Get(aux, mv);
      l.(g := OnPoll(g, found.Found?, found, mv), aux := aux)
    else
      var (g', own) := Act(g, Interfere(g.key.kind, l.own, mv.env), mv, tag);
      l.(g := g', own := own)
  }

  // ---------- Running alone ----------

  /** When a script is used up: nobody interferes, nothing fails, the cache is fresh, polling times out. */
  const QUIET := Move(Nil, 0, NoFault, true, true, "", 0)

  datatype Thread = Thread(l: Local, script: List<Move>)

  function Head(script: List<Move>): Move {
    if script.Nil? then QUIET else script.head
  }

  function Tail(script: List<Move>): List<Move> {
    if script.Nil? then Nil else script.tail
  }

  /** The step out of `Returned` is local: it makes no call and uses up no move. */
  function Advance(t: Thread, tag: Tag): Thread {
    if t.l.g.pc == Done then t
    else if t.l.g.pc == Returned then Thread(StepOnce(t.l, QUIET, tag), t.script)
    else Thread(StepOnce(t.l, Head(t.script), tag), Tail(t.script))
  }

  function Rank(pc: Pc): nat {
    match pc
    case Read => 7
    case Purge => 6
    case Vanish => 5
    case Make => 4
    case Write => 4
    case Erase => 4
    case Returned => 3
    case Waiting => 2
    case Done => 0
  }

  /** A plan that fits its program counter; other machines are never built. */
  predicate Sound(g: Goro) {
    && (g.plan.Discard? ==> g.pc == Erase || g.pc == Returned || g.pc == Waiting || g.pc == Done)
  }

  ghost predicate Progress(g: Goro, g': Goro, timeout: bool) {
    && Sound(g')
    && g'.key == g.key && g'.waits == g.waits
    && (Rank(g'.pc) < Rank(g.pc) || (!timeout && g'.pc == g.pc))
  }

  lemma ReadProgress(g: Goro, found: Lookup, ca: nat)
    requires Sound(g) && g.pc == Read
    ensures Progress(g, OnRead(g, found, ca), true)
  {}

  lemma SettleProgress(g: Goro)
    requires g.pc == Returned
    ensures Progress(g, Settle(g), true)
  {}

  lemma PollProgress(g: Goro, ok: bool, found: Lookup, mv: Move)
    requires g.pc == Waiting
    ensures Progress(g, OnPoll(g, ok, found, mv), mv.timeout)
  {}

  lemma ActProgress(g: Goro, log: Log, mv: Move, tag: Tag)
    requires Sound(g) && g.pc != Returned && g.pc != Done
    ensures Progress(g, Act(g, log, mv, tag).0, mv.timeout)
  {
    if g.pc == Read {
      ReadProgress(g, Get(log, mv), tag.ca);
    } else if g.pc == Waiting {
      var found := Get(log, mv);
      PollProgress(g, IsReady(found, Target(g.plan)), found, mv);
    }
  }

  lemma StepProgress(l: Local, mv: Move, tag: Tag)
    requires Sound(l.g)
    ensures Sound(StepOnce(l, mv, tag).g)
    ensures StepOnce(l, mv, tag).g.key == l.g.key && StepOnce(l, mv, tag).g.waits == l.g.waits
    ensures l.g.pc != Done ==>
              || Rank(StepOnce(l, mv, tag).g.pc) < Rank(l.g.pc)
              || (!mv.timeout && StepOnce(l, mv, tag).g.pc == l.g.pc)
  {
    var g := l.g;
    if g.pc == Returned {
      SettleProgress(g);
    } else if g.pc == Waiting && g.waits.ForSecret? {
      var found := Get(Interfere(SecretKind, l.aux, mv.env), mv);
      PollProgress(g, found.Found?, found, mv);
    } else if g.pc != Done {
      ActProgress(g, Interfere(g.key.kind, l.own, mv.env), mv, tag);
    }
  }

  /** Runs a goroutine until its rank is at most `floor`: 3 for the reconcile closure, 0 for all of it. */
  function RunUntil(t: Thread, tag: Tag, floor: nat): (r: Thread)
    requires Sound(t.l.g)
    ensures Sound(r.l.g) && Rank(r.l.g.pc) <= floor
    ensures r.l.g.key == t.l.g.key && r.l.g.waits == t.l.g.waits
    decreases t.script, Rank(t.l.g.pc)
  {
    if Rank(t.l.g.pc) <= floor then t
    else
      StepProgress(t.l, Head(t.script), tag);
      StepProgress(t.l, QUIET, tag);
      RunUntil(Advance(t, tag), tag, floor)
  }

  function Finish(t: Thread, tag: Tag): (r: Thread)
    requires Sound(t.l.g)
    ensures Sound(r.l.g) && r.l.g.pc == Done
    ensures r.l.g.key == t.l.g.key && r.l.g.waits == t.l.g.waits
  {
    RunUntil(t, tag, 0)
  }

  // ---------- The four reconcilers ----------

  function OwnKey(kind: Kind, ns: string, name: string): Key {
    Key(kind, ns, ResourceName(name))
  }

  function Reconciler(key: Key, want: Option<Object>, waits: Waits): Goro {
    if want.Some? then Goro(key, Keep(want.value, 0), waits, Read, None, 0)
    else Goro(key, Discard, Nothing, Erase, None, 0)
  }

  /** Every pointer that a live notebook's calculators read is set. */
  predicate Readable(n: Nb) {
    n.meta.terminating || (n.spec.flavor.Some? && n.spec.serviceAccount.Some?)
  }

  function Wanted(n: Nb, kind: Kind, tag: Tag): Option<Object>
    requires Readable(n)
  {
    match kind
    case ServiceKind => if ServiceShouldExist(n) then Some(CalculateService(n)) else None
    case SecretKind => if SecretShouldExist(n) then Some(CalculateSecret(n, tag)) else None
    case StatefulSetKind => if StatefulSetShouldExist(n) then Some(CalculateStatefulSet(n)) else None
    case IngressKind => if IngressShouldExist(n) then Some(CalculateIngress(n)) else None
    case NotebookKind => None
  }

  function WaitsOf(n: Nb, kind: Kind): Waits {
    match kind
    case StatefulSetKind => ForReady
    case IngressKind =>
      if n.spec.tls == Some(Acme) then ForSecret(Key(SecretKind, n.ns, IngressTlsSecretName(n.name))) else Nothing
    case _ => Nothing
  }

  function ReconcilerFor(n: Nb, kind: Kind, tag: Tag): (g: Goro)
    requires Readable(n)
    ensures Sound(g)
  {
    Reconciler(OwnKey(kind, n.ns, n.name), Wanted(n, kind, tag), WaitsOf(n, kind))
  }

  /** An Ingress waits for its issuer's secret exactly under ACME, a StatefulSet for its replicas, and what is
      to be deleted for nothing. */
  lemma WaitsMean(n: Nb, tag: Tag)
    requires Readable(n)
    ensures ReconcilerFor(n, IngressKind, tag).waits
         == if ShouldExist(n, IngressKind) && n.spec.tls == Some(Acme)
            then ForSecret(Key(SecretKind, n.ns, IngressTlsSecretName(n.name))) else Nothing
    ensures ReconcilerFor(n, StatefulSetKind, tag).waits == if n.meta.terminating then Nothing else ForReady
    ensures ReconcilerFor(n, ServiceKind, tag).waits == Nothing && ReconcilerFor(n, SecretKind, tag).waits == Nothing
  {}

  const KINDS := [ServiceKind, SecretKind, StatefulSetKind, IngressKind]

  function Reconcilers(n: Nb, tag: Tag): (gs: seq<Goro>)
    requires Readable(n)
    ensures |gs| == 4 && forall i :: 0 <= i < 4 ==> Sound(gs[i]) && gs[i].key == OwnKey(KINDS[i], n.ns, n.name)
  {
    [ReconcilerFor(n, ServiceKind, tag), ReconcilerFor(n, SecretKind, tag),
     ReconcilerFor(n, StatefulSetKind, tag), ReconcilerFor(n, IngressKind, tag)]
  }
}
