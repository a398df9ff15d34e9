/** Certificates over whole runs: CalculateSecret signs a new one in every sync, and CreateOrUpdateSecret
    keeps the stored one while it is signed by the controller's CA (pkg/k8sutil/secret.go:54-81). Others may
    do to the Secret what they like; the guarantees are about stretches of its log in which they do not. */
module Certificates {
  import opened Basics
  import opened NotebookTypes
  import opened Kube
  import opened Goroutine
  import opened Interleaving
  import opened Sync
  import opened System
  import opened Safety

  type Data = map<DataKey, Bytes>

  function DataOf(o: Object): Data {
    if o.body.SecretBody? then o.body.data else map[]
  }

  predicate HasCert(o: Option<Object>) {
    o.Some? && TlsCert in DataOf(o.value)
  }

  /** Certificate and key come from one signing event, or both are missing. */
  predicate Paired(d: Data) {
    if TlsCert in d then
      TlsKey in d && d[TlsCert].Certificate? && d[TlsKey] == PrivateKey(d[TlsCert].serial)
    else TlsKey !in d
  }

  /** How a sync that finds `before` may write `after`: a certificate of its own CA stays, any other one
      gives way to the one signed in this sync. */
  predicate Renews(before: Data, after: Data, tag: Tag) {
    TlsCert in after ==>
      && after[TlsCert].Certificate? && after[TlsCert].ca == tag.ca
      && (if TlsCert in before && before[TlsCert].Certificate? && before[TlsCert].ca == tag.ca
          then after[TlsCert] == before[TlsCert] else after[TlsCert].serial == tag.sync)
  }

  function StoredData(o: Option<Object>): Data {
    if o.Some? then DataOf(o.value) else map[]
  }

  // ---------- Invariant ----------

  /** Others may write what they like. A sync renews or keeps the certificate of the version that it
      replaces, and never parts a certificate from its key. */
  ghost predicate CertEntryOk(before: Option<Object>, e: Entry) {
    e.author.Operator? && e.obj.Some? ==>
      && Renews(StoredData(before), DataOf(e.obj.value), e.author.tag)
      && (Paired(StoredData(before)) ==> Paired(DataOf(e.obj.value)))
  }

  ghost predicate CertLogOk(log: Log) {
    forall i :: 0 <= i < |log| ==> CertEntryOk(Seen(log, i), log[i])
  }

  ghost predicate NotAfter(log: Log, i: nat, j: nat) {
    i < j < |log| && log[i].author.Operator? && log[j].author.Operator? ==> log[i].author.tag.ca <= log[j].author.tag.ca
  }

  /** CA lifetimes follow one another. */
  ghost predicate Ordered(log: Log) {
    forall i, j :: NotAfter(log, i, j)
  }

  /** The Secret a goroutine is about to write, against the version it has read. */
  ghost predicate CertGoro(g: Goro, own: Log, tag: Tag) {
    g.plan.Keep? ==>
      && g.plan.want.body.SecretBody?
      && g.plan.rv <= |own|
      && (Paired(StoredData(Seen(own, g.plan.rv))) ==> Paired(g.plan.want.body.data))
      && (TlsCert in g.plan.want.body.data && g.plan.rv == 0 ==> g.plan.want.body.data[TlsCert] != NoBytes)
      && Renews(StoredData(Seen(own, g.plan.rv)), g.plan.want.body.data, tag)
      && (g.pc == Write ==> g.plan.rv > 0)
      && (g.pc == Read || g.pc == Make ==> g.plan.rv == 0)
  }

  ghost predicate CertJob(job: Job, own: Log, key: Key, tag: Tag) {
    job.Working? ==> forall i :: 0 <= i < |job.gs| && job.gs[i].key == key ==> CertGoro(job.gs[i], own, tag)
  }

  ghost predicate CertInv(s: State, key: Key) {
    && CertLogOk(LogOf(s.logs, key)) && Ordered(LogOf(s.logs, key))
    && forall w :: w in s.workers ==> CertJob(s.workers[w].job, LogOf(s.logs, key), key, s.workers[w].tag)
  }

  lemma CertLogAppend(log: Log, e: Entry)
    requires CertLogOk(log) && CertEntryOk(Current(log), e)
    ensures CertLogOk(log + [e])
  {
    var after := log + [e];
    forall i | 0 <= i < |after|
      ensures CertEntryOk(Seen(after, i), after[i])
    {
      assert i < |log| ==> Seen(after, i) == Seen(log, i);
      assert Seen(after, |log|) == Current(log);
    }
  }

  lemma CertGoroGrows(g: Goro, own: Log, own': Log, tag: Tag)
    requires CertGoro(g, own, tag) && own <= own'
    ensures CertGoro(g, own', tag)
  {
    if g.plan.Keep? && g.plan.rv > 0 {
      assert own'[g.plan.rv - 1] == own[g.plan.rv - 1];
    }
  }

  lemma CertJobGrows(job: Job, own: Log, own': Log, key: Key, tag: Tag)
    requires CertJob(job, own, key, tag) && own <= own'
    ensures CertJob(job, own', key, tag)
  {
    if job.Working? {
      forall i | 0 <= i < |job.gs| && job.gs[i].key == key
        ensures CertGoro(job.gs[i], own', tag)
      {
        CertGoroGrows(job.gs[i], own, own', tag);
      }
    }
  }

  lemma KeepCertificateRenews(made: Data, stored: Data, tag: Tag)
    requires Paired(made)
    requires TlsCert in made ==> made[TlsCert].Certificate? && made[TlsCert].ca == tag.ca && made[TlsCert].serial == tag.sync
    ensures var kept := KeepCertificate(made, stored, tag.ca);
            Renews(stored, kept, tag) && (Paired(stored) ==> Paired(kept))
  {}

  lemma CertOnRead(g: Goro, own: Log, mv: Move, tag: Tag)
    requires g.pc == Read && CertGoro(g, own, tag) && CertLogOk(own) && Typed(SecretKind, own)
    ensures CertGoro(OnRead(g, Get(own, mv), tag.ca), own, tag)
  {
    var found := Get(own, mv);
    if found.Found? && g.plan.Keep? {
      assert Seen(own, found.rv) == Some(found.obj);
      KeepCertificateRenews(g.plan.want.body.data, found.obj.body.data, tag);
    }
  }

  lemma CertAct(g: Goro, own: Log, mv: Move, tag: Tag)
    requires CertGoro(g, own, tag) && CertLogOk(own) && Typed(SecretKind, own) && Sound(g) && g.key.kind == SecretKind
    requires g.pc != Purge && g.pc != Vanish && g.pc != Returned && g.pc != Done
    ensures var (g', own') := Act(g, own, mv, tag);
            own <= own' ==> CertGoro(g', own', tag) && CertLogOk(own')
  {
    var (g', own') := Act(g, own, mv, tag);
    if g.pc == Read {
      CertOnRead(g, own, mv, tag);
    } else if own' != own {
      var e := own'[|own|];
      assert own' == own + [e];
      CertLogAppend(own, e);
      if own <= own' {
        CertGoroGrows(g, own, own', tag);
      }
    }
  }

  lemma CertStep(l: Local, mv: Move, tag: Tag)
    requires GoroOk(l.g, l.own, tag) && LogOk(l.g.key, l.own) && l.g.key.kind == SecretKind && mv.env == Nil
    requires CertGoro(l.g, l.own, tag) && CertLogOk(l.own)
    ensures CertGoro(StepOnce(l, mv, tag).g, StepOnce(l, mv, tag).own, tag) && CertLogOk(StepOnce(l, mv, tag).own)
  {
    StepOnceOk(l, mv, tag);
    if l.g.pc != Returned && l.g.pc != Done && l.g.pc != Purge && l.g.pc != Vanish {
      CertAct(l.g, l.own, mv, tag);
    }
  }

  lemma CertReconcilers(n: Nb, key: Key, own: Log, tag: Tag)
    requires Readable(n) && key.kind == SecretKind
    ensures forall i :: 0 <= i < 4 && Reconcilers(n, tag)[i].key == key ==> CertGoro(Reconcilers(n, tag)[i], own, tag)
  {
    assert Reconcilers(n, tag)[1] == ReconcilerFor(n, SecretKind, tag);
  }

  // ---------- Runs ----------

  lemma OrderedAppend(log: Log, log': Log, tag: Tag)
    requires Ordered(log) && Adds(log, log', tag)
    requires forall i :: 0 <= i < |log| && log[i].author.Operator? ==> log[i].author.tag.ca <= tag.ca
    ensures Ordered(log')
  {
    forall i: nat, j: nat
      ensures NotAfter(log', i, j)
    {
      assert NotAfter(log, i, j);
    }
  }

  lemma CertOthers(s: State, c: Choice, key: Key)
    requires Inv(s) && CertInv(s, key) && c.Others?
    ensures CertInv(Next(s, c), key)
  {
    var s' := Next(s, c);
    var log, log' := LogOf(s.logs, key), LogOf(s'.logs, key);
    if c.key == key {
      OthersWrite(key.kind, log, c.write);
      if log' != log {
        assert log' == log + [Entry(c.write, Environment)];
        CertLogAppend(log, Entry(c.write, Environment));
        forall i: nat, j: nat
          ensures NotAfter(log', i, j)
        {
          assert NotAfter(log, i, j);
        }
      }
    }
    forall w | w in s'.workers
      ensures CertJob(s'.workers[w].job, log', key, s'.workers[w].tag)
    {
      CertJobGrows(s.workers[w].job, log, log', key, s.workers[w].tag);
    }
  }

  lemma CertGoroutineStep(n: Nb, gone: bool, gs: seq<Goro>, i: nat, logs: Logs, mv: Move, key: Key, tag: Tag)
    requires JobOk(Working(n, gone, gs), logs, tag) && mv.env == Nil && i < 4 && key.kind == SecretKind
    requires LogOk(gs[i].key, LogOf(logs, gs[i].key))
    requires CertJob(Working(n, gone, gs), LogOf(logs, key), key, tag) && CertLogOk(LogOf(logs, key))
    ensures var l := StepOnce(ViewOf(Runner(gs[i], Nil), logs).l, mv, tag);
            var log' := LogOf(Store(logs, l), key);
            CertJob(Working(n, gone, gs[i := l.g]), log', key, tag) && CertLogOk(log')
  {
    var g := gs[i];
    assert GoroOk(g, LogOf(logs, g.key), tag);
    var l := ViewOf(Runner(g, Nil), logs).l;
    StepOnceOk(l, mv, tag);
    var l' := StepOnce(l, mv, tag);
    StoreChangesOwn(g, logs, l', tag);
    if g.key == key {
      CertStep(l, mv, tag);
    }
    CertJobGrows(Working(n, gone, gs), LogOf(logs, key), LogOf(Store(logs, l'), key), key, tag);
  }

  lemma CertJobStep(job: Job, logs: Logs, mv: Move, key: Key, tag: Tag)
    requires JobOk(job, logs, tag) && Proper(job) && mv.env == Nil && key.kind == SecretKind
    requires forall k :: LogOk(k, LogOf(logs, k))
    requires CertJob(job, LogOf(logs, key), key, tag) && CertLogOk(LogOf(logs, key))
    ensures var (job', logs') := JobStep(job, logs, mv, tag);
            CertJob(job', LogOf(logs', key), key, tag) && CertLogOk(LogOf(logs', key))
  {
    match job
    case Announcing(n) => CertReconcilers(n.(phase := Pending), key, LogOf(logs, key), tag);
    case Working(n, gone, gs) =>
      if !AllGoroutinesDone(gs) && mv.who < 4 && gs[mv.who].pc != Done {
        assert LogOk(gs[mv.who].key, LogOf(logs, gs[mv.who].key));
        CertGoroutineStep(n, gone, gs, mv.who, logs, mv, key, tag);
      }
    case _ =>
  }

  lemma CertWork(s: State, w: nat, mv: Move, key: Key)
    requires Inv(s) && CertInv(s, key) && key.kind == SecretKind && w in s.workers
    ensures CertInv(Next(s, Work(w, mv)), key)
  {
    var s' := Next(s, Work(w, mv));
    var Worker(tag, job) := s.workers[w];
    var log, log' := LogOf(s.logs, key), LogOf(s'.logs, key);
    assert WorkerOk(s.workers[w], s) && Stamped(log, s.next, s.ca);
    CertJobStep(job, s.logs, Calm(mv), key, tag);
    JobStepIsOk(job, s.logs, Calm(mv), tag);
    OrderedAppend(log, log', tag);
    forall u | u in s'.workers
      ensures CertJob(s'.workers[u].job, log', key, s'.workers[u].tag)
    {
      if u != w {
        CertJobGrows(s.workers[u].job, log, log', key, s.workers[u].tag);
      }
    }
  }

  lemma CertBegin(s: State, c: Choice, key: Key)
    requires Inv(s) && CertInv(s, key) && key.kind == SecretKind && c.Begin?
    ensures CertInv(Next(s, c), key)
  {
    if Idle(s, c.worker) {
      var Worker(tag, job) := Next(s, c).workers[c.worker];
      if job.Working? {
        assert Readable(job.n);
        CertReconcilers(job.n, key, LogOf(s.logs, key), tag);
      }
    }
  }

  lemma CertNext(s: State, c: Choice, key: Key)
    requires Inv(s) && CertInv(s, key) && key.kind == SecretKind
    ensures CertInv(Next(s, c), key)
  {
    match c
    case Others(_, _) => CertOthers(s, c, key);
    case Restart =>
    case Begin(_, _, _, _, _) => CertBegin(s, c, key);
    case Work(w, mv) =>
      if w in s.workers {
        CertWork(s, w, mv, key);
      }
  }

  lemma {:induction false} RunKeepsCertInv(choices: seq<Choice>, key: Key)
    requires key.kind == SecretKind
    ensures CertInv(Run(choices), key)
    decreases |choices|
  {
    if choices != [] {
      var before := choices[..|choices| - 1];
      RunKeepsCertInv(before, key);
      RunKeepsInv(before);
      CertNext(Run(before), choices[|choices| - 1], key);
    }
  }

  // ---------- Windows ----------

  /** Somebody else's entry `m` keeps the data that it finds, or deletes the Secret. */
  predicate KeepsData(log: Log, m: nat)
    requires m < |log|
  {
    log[m].author == Environment && log[m].obj.Some? ==>
      Seen(log, m).Some? && DataOf(log[m].obj.value) == DataOf(Seen(log, m).value)
  }

  /** Nobody but the operator edits or creates the Secret between positions `p` and `q`. */
  ghost predicate QuietBetween(log: Log, p: nat, q: nat)
    requires q <= |log|
  {
    forall m :: p <= m < q ==> KeepsData(log, m)
  }

  lemma {:induction false} StaysPaired(log: Log, p: nat, q: nat)
    requires CertLogOk(log) && p <= q <= |log| && QuietBetween(log, p, q) && Paired(StoredData(Seen(log, p)))
    ensures Paired(StoredData(Seen(log, q)))
    decreases q
  {
    if p < q {
      StaysPaired(log, p, q - 1);
      assert KeepsData(log, q - 1) && CertEntryOk(Seen(log, q - 1), log[q - 1]);
    }
  }

  /** Pairing: if certificate and private key of some version come from the same signing event, or both are
      absent, it is so in every later version until somebody else edits the Secret. What was absent is
      paired, so a Secret that only the operator writes is always paired. */
  lemma CertificateMatchesKey(choices: seq<Choice>, key: Key, p: nat, q: nat)
    requires key.kind == SecretKind && p <= q <= |LogOf(Run(choices).logs, key)|
    requires QuietBetween(LogOf(Run(choices).logs, key), p, q)
    requires Paired(StoredData(Seen(LogOf(Run(choices).logs, key), p)))
    ensures Paired(StoredData(Seen(LogOf(Run(choices).logs, key), q)))
  {
    RunKeepsCertInv(choices, key);
    StaysPaired(LogOf(Run(choices).logs, key), p, q);
  }

  /** TLS stays on: every version from `i` to `j` has a certificate. */
  predicate TlsOn(log: Log, i: nat, j: nat)
    requires i <= j < |log|
  {
    forall m :: i <= m <= j ==> HasCert(log[m].obj)
  }

  function CertAt(log: Log, i: nat): Bytes
    requires i < |log| && HasCert(log[i].obj)
  {
    DataOf(log[i].obj.value)[TlsCert]
  }

  /** From `i` to `j`, the only operator writes are those of CA lifetime `ca`. */
  ghost predicate OnlyBy(log: Log, i: nat, j: nat, ca: nat)
    requires i <= j < |log|
  {
    forall m :: i <= m <= j && log[m].author.Operator? ==> log[m].author.tag.ca == ca
  }

  ghost predicate SameLifetime(log: Log, i: nat, j: nat) {
    i <= j < |log| && log[i].author.Operator? && log[j].author.Operator? && log[i].author.tag.ca == log[j].author.tag.ca
  }

  lemma BetweenEqualLifetimes(log: Log, i: nat, j: nat)
    requires Ordered(log) && SameLifetime(log, i, j)
    ensures OnlyBy(log, i, j, log[i].author.tag.ca)
  {
    forall m: nat | i <= m <= j && log[m].author.Operator?
      ensures log[m].author.tag.ca == log[i].author.tag.ca
    {
      assert NotAfter(log, i, m) && NotAfter(log, m, j);
    }
  }

  /** Once a sync of CA lifetime `ca` has written the certificate, it stays while only that lifetime writes. */
  lemma {:induction false} StaysWithinLifetime(log: Log, i: nat, j: nat, ca: nat)
    requires CertLogOk(log) && i <= j < |log| && TlsOn(log, i, j) && QuietBetween(log, i + 1, j + 1)
    requires log[i].author.Operator? && log[i].author.tag.ca == ca
    requires OnlyBy(log, i, j, ca)
    ensures CertAt(log, j) == CertAt(log, i) && CertAt(log, j).Certificate? && CertAt(log, j).ca == ca
    decreases j
  {
    assert CertEntryOk(Seen(log, i), log[i]);
    assert HasCert(log[i].obj);
    if j > i {
      assert TlsOn(log, i, j - 1) && OnlyBy(log, i, j - 1, ca) && QuietBetween(log, i + 1, j);
      StaysWithinLifetime(log, i, j - 1, ca);
      assert HasCert(log[j].obj) && HasCert(log[j - 1].obj) && KeepsData(log, j);
      assert CertEntryOk(Seen(log, j), log[j]);
      assert Seen(log, j) == log[j - 1].obj;
    }
  }

  lemma StableInLog(log: Log, i: nat, j: nat)
    requires CertLogOk(log) && Ordered(log) && SameLifetime(log, i, j) && TlsOn(log, i, j)
    requires QuietBetween(log, i + 1, j + 1)
    ensures HasCert(log[i].obj) && HasCert(log[j].obj) && CertAt(log, i) == CertAt(log, j)
  {
    BetweenEqualLifetimes(log, i, j);
    StaysWithinLifetime(log, i, j, log[i].author.tag.ca);
  }

  /** Stability: although every sync signs a new certificate, all that the syncs of one CA lifetime write
      into a Secret is one and the same certificate, however stale their caches, as long as TLS stays on and
      nobody else edits the Secret in between. */
  lemma CertificateStable(choices: seq<Choice>, key: Key, i: nat, j: nat)
    requires key.kind == SecretKind
    requires var log := LogOf(Run(choices).logs, key);
             SameLifetime(log, i, j) && TlsOn(log, i, j) && QuietBetween(log, i + 1, j + 1)
    ensures var log := LogOf(Run(choices).logs, key);
            HasCert(log[i].obj) && HasCert(log[j].obj) && CertAt(log, i) == CertAt(log, j)
  {
    RunKeepsCertInv(choices, key);
    StableInLog(LogOf(Run(choices).logs, key), i, j);
  }

  ghost predicate Changes(log: Log, i: nat) {
    0 < i < |log| && HasCert(log[i].obj) && HasCert(log[i - 1].obj) && CertAt(log, i) != CertAt(log, i - 1)
  }

  /** Where others keep the data, a certificate changes only by an operator write, and then to one of the
      writer's own CA. */
  lemma ChangeIsRenewal(log: Log, i: nat)
    requires CertLogOk(log) && Changes(log, i) && KeepsData(log, i)
    ensures log[i].author.Operator? && CertAt(log, i).Certificate? && CertAt(log, i).ca == log[i].author.tag.ca
    ensures !(CertAt(log, i - 1).Certificate? && CertAt(log, i - 1).ca == log[i].author.tag.ca)
  {
    assert CertEntryOk(Seen(log, i), log[i]);
    assert Seen(log, i) == log[i - 1].obj;
  }

  lemma OneChangeInLog(log: Log, i: nat, j: nat)
    requires CertLogOk(log) && Ordered(log) && i < j < |log| && QuietBetween(log, i, j + 1)
    requires TlsOn(log, i, j) && Changes(log, i) && Changes(log, j)
    ensures log[i].author.Operator? && log[j].author.Operator?
    ensures log[i].author.tag.ca < log[j].author.tag.ca
  {
    assert KeepsData(log, i) && KeepsData(log, j);
    ChangeIsRenewal(log, i);
    ChangeIsRenewal(log, j);
    var ca := log[j].author.tag.ca;
    assert NotAfter(log, i, j);
    if log[i].author.tag.ca == ca {
      BetweenEqualLifetimes(log, i, j);
      assert TlsOn(log, i, j - 1) && OnlyBy(log, i, j - 1, ca) && QuietBetween(log, i + 1, j);
      StaysWithinLifetime(log, i, j - 1, ca);
    }
  }

  /** At most one change per CA lifetime: of two changes in a window in which TLS stays on and nobody else
      edits the Secret, the later one is made under a later CA. */
  lemma OneChangePerLifetime(choices: seq<Choice>, key: Key, i: nat, j: nat)
    requires key.kind == SecretKind
    requires var log := LogOf(Run(choices).logs, key);
             && i < j < |log| && TlsOn(log, i, j) && QuietBetween(log, i, j + 1)
             && Changes(log, i) && Changes(log, j)
    ensures var log := LogOf(Run(choices).logs, key);
            && log[i].author.Operator? && log[j].author.Operator?
            && log[i].author.tag.ca < log[j].author.tag.ca
  {
    RunKeepsCertInv(choices, key);
    OneChangeInLog(LogOf(Run(choices).logs, key), i, j);
  }
}
