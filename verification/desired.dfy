/** What is stored at rest, in terms of the notebook's spec alone. A reconciler is settled when adopting the
    stored object again would change nothing; here it is shown that this means the object is just as the spec
    asks for it, and what an edit of the spec therefore brings about. */
module Desired {
  import opened Basics
  import opened NotebookTypes
  import opened Naming
  import opened Kube
  import opened Calculate
  import opened Goroutine
  import opened Interleaving
  import opened Sync
  import opened Settling
  import opened Quiescence
  import opened Rounds

  // ---------- Each object ----------

  predicate ServiceFits(o: Object, n: Nb) {
    && IsFor(o.meta, n) && o.meta.annotations == map[TolerateUnreadyEndpoints := "true"]
    && o.body.ServiceBody? && o.body.port == 8888 && o.body.selector == map[NotebookLabel := n.name]
  }

  /** The password of the spec, and a certificate of this CA with a key, each exactly if asked for. */
  predicate SecretFits(o: Object, n: Nb, ca: nat) {
    && IsFor(o.meta, n) && o.meta.annotations == map[] && o.body.SecretBody?
    && var data := o.body.data;
    && (PasswordKey in data <==> AsksForPassword(n.spec))
    && (AsksForPassword(n.spec) ==> data[PasswordKey] == Text(n.spec.password.value))
    && (TlsCert in data <==> AsksForTls(n.spec)) && (TlsKey in data <==> AsksForTls(n.spec))
    && (AsksForTls(n.spec) ==> data[TlsCert].Certificate? && data[TlsCert].ca == ca)
    && data.Keys <= {PasswordKey, TlsCert, TlsKey}
  }

  ghost predicate StatefulSetFits(o: Object, n: Nb) {
    && IsFor(o.meta, n) && o.meta.annotations == map[] && o.body.StatefulSetBody?
    && Runs(o.body.spec.template, n.name, n.spec) && o.body.ready == o.body.spec.replicas
  }

  ghost predicate IngressFits(o: Object, n: Nb) {
    IsFor(o.meta, n) && o.body.IngressBody? && Routes(o.meta, o.body.host, o.body.backend, o.body.tls, n.name, n.spec)
  }

  function StoredUnder(logs: Logs, kind: Kind, n: Nb): Option<Object> {
    Current(LogOf(logs, OwnKey(kind, n.ns, n.name)))
  }

  ghost predicate Fits(o: Object, kind: Kind, n: Nb, ca: nat) {
    match kind
    case ServiceKind => ServiceFits(o, n)
    case SecretKind => SecretFits(o, n, ca)
    case StatefulSetKind => StatefulSetFits(o, n)
    case IngressKind => IngressFits(o, n)
    case NotebookKind => false
  }

  /** There is an object exactly if one is wanted, and it fits. */
  ghost predicate KindFits(n: Nb, kind: Kind, logs: Logs, ca: nat) {
    var o := StoredUnder(logs, kind, n);
    && (o.Some? <==> IsAskedFor(n, kind))
    && (o.Some? ==> Fits(o.value, kind, n, ca))
  }

  /** The issuer has stored its secret, if the Ingress asks for one. */
  predicate IssuerHasStored(n: Nb, logs: Logs) {
    IsAskedFor(n, IngressKind) && n.spec.tls == Some(Acme) ==>
      Current(LogOf(logs, Key(SecretKind, n.ns, IngressTlsSecretName(n.name)))).Some?
  }

  ghost predicate AllFits(n: Nb, logs: Logs, ca: nat) {
    && KindFits(n, ServiceKind, logs, ca) && KindFits(n, SecretKind, logs, ca)
    && KindFits(n, StatefulSetKind, logs, ca) && KindFits(n, IngressKind, logs, ca)
    && IssuerHasStored(n, logs)
  }

  // ---------- Settled means as the spec asks ----------

  lemma ServiceMatches(n: Nb, o: Object, ca: nat)
    ensures Matches(CalculateService(n), o, ca) <==> ServiceFits(o, n)
  {
    ServiceIs(n);
    MetaIsFor(n, map[TolerateUnreadyEndpoints := "true"]);
  }

  lemma SecretMatches(n: Nb, o: Object, tag: Tag)
    ensures Matches(CalculateSecret(n, tag), o, tag.ca) <==> SecretFits(o, n, tag.ca)
  {
    MetaIsFor(n, map[]);
    if o.body.SecretBody? {
      SecretKeeps(n, o.body.data, tag);
    }
  }

  lemma SecretKeeps(n: Nb, data: map<DataKey, Bytes>, tag: Tag)
    ensures KeepCertificate(CalculateSecret(n, tag).body.data, data, tag.ca) == data <==>
              && (PasswordKey in data <==> AsksForPassword(n.spec))
              && (AsksForPassword(n.spec) ==> data[PasswordKey] == Text(n.spec.password.value))
              && (TlsCert in data <==> AsksForTls(n.spec)) && (TlsKey in data <==> AsksForTls(n.spec))
              && (AsksForTls(n.spec) ==> data[TlsCert].Certificate? && data[TlsCert].ca == tag.ca)
              && data.Keys <= {PasswordKey, TlsCert, TlsKey}
  {
    var made := CalculateSecret(n, tag).body.data;
    SecretIs(n, tag);
    FreshCertificateIs(n, tag);
    OnlyCertificateIsKept(made, data, tag.ca);
    var kept := KeepCertificate(made, data, tag.ca);
    if kept == data {
      assert data.Keys == made.Keys;
      assert AsksForPassword(n.spec) ==> PasswordKey in kept - {TlsCert, TlsKey} && PasswordKey in made - {TlsCert, TlsKey};
    } else if data.Keys <= {PasswordKey, TlsCert, TlsKey} && kept.Keys == data.Keys {
      var k :| k in data && kept[k] != data[k];
      assert k == PasswordKey ==> PasswordKey in kept - {TlsCert, TlsKey} && PasswordKey in made - {TlsCert, TlsKey};
    }
  }

  lemma StatefulSetMatches(n: Nb, o: Object, ca: nat)
    requires n.spec.flavor.Some? && n.spec.serviceAccount.Some?
    ensures Matches(CalculateStatefulSet(n), o, ca) <==> StatefulSetFits(o, n)
  {
    MetaIsFor(n, map[]);
    if o.body.StatefulSetBody? {
      TemplateRuns(n, o.body.spec.template);
    }
  }

  lemma IngressMatches(n: Nb, o: Object, ca: nat)
    requires n.spec.host.Some?
    ensures Matches(CalculateIngress(n), o, ca) <==> IngressFits(o, n)
  {
    IngressRoutes(n);
    MetaIsFor(n, CalculateIngress(n).meta.annotations);
  }

  lemma KindSettledMeans(n: Nb, kind: Kind, logs: Logs, tag: Tag)
    requires Readable(n) && kind in KINDS
    ensures Settled(Wanted(n, kind, tag), LogOf(logs, OwnKey(kind, n.ns, n.name)), tag.ca)
       <==> KindFits(n, kind, logs, tag.ca)
  {
    var o := StoredUnder(logs, kind, n);
    WantedMeans(n, kind);
    if ShouldExist(n, kind) && o.Some? {
      match kind
      case ServiceKind => ServiceMatches(n, o.value, tag.ca);
      case SecretKind => SecretMatches(n, o.value, tag);
      case StatefulSetKind => StatefulSetMatches(n, o.value, tag.ca);
      case IngressKind => IngressMatches(n, o.value, tag.ca);
    }
  }

  /** All four reconcilers are settled exactly if each object that the spec asks for is stored as the spec asks
      for it, none that it does not ask for is stored, and the issuer has done its part. */
  lemma SettledMeans(n: Nb, logs: Logs, tag: Tag)
    requires Readable(n)
    ensures AllSettled(n, logs, tag) <==> AllFits(n, logs, tag.ca)
  {
    WaitsMean(n, tag);
    WantedMeans(n, IngressKind);
    KindSettledMeans(n, ServiceKind, logs, tag);
    KindSettledMeans(n, SecretKind, logs, tag);
    KindSettledMeans(n, StatefulSetKind, logs, tag);
    KindSettledMeans(n, IngressKind, logs, tag);
  }

  // ---------- After a reconcile, and at rest ----------

  /** An undisturbed reconcile, whatever was stored before, leaves what the spec asks for. */
  lemma ReconcileBringsWhatIsAsked(n: Nb, logs: Logs, ip: string, tag: Tag)
    requires Readable(n) && AllOpen(n, logs)
    ensures var r := Reconciled(n, logs, FriendlyScripts(n, logs, ip, tag), tag);
            r.err.None? && AllFits(n, r.logs, tag.ca)
  {
    FriendlyReconcile(n, logs, ip, tag);
    SettledMeans(n, Reconciled(n, logs, FriendlyScripts(n, logs, ip, tag), tag).logs, tag);
  }

  /** Rest is this: a valid notebook with all fields set, Running, and what its spec asks for is stored. */
  lemma RestMeans(logs: Logs, decoded: bool, tag: Tag)
    ensures AtRest(logs, decoded, tag) <==>
              && SpecIs(logs, tag, true) && StoredNotebook(logs, tag).body.phase == Running
              && AllFits(Prepared(Fresh(logs, decoded, tag)), logs, tag.ca)
  {
    if SpecIs(logs, tag, true) {
      SettledMeans(Prepared(Fresh(logs, decoded, tag)), logs, tag);
    }
  }

  /** TLS, where everything is as the spec asks: unless it is set to "none", the Secret holds a certificate and a
      key, the pod serves with them, and the Ingress has a TLS block; if it is, there is nothing of the kind. */
  lemma TlsIsServedIffAskedFor(n: Nb, logs: Logs, ca: nat)
    requires AllFits(n, logs, ca) && !n.meta.terminating && n.spec.host.Some? && n.spec.host.value != ""
    ensures var secret, sts, ing := StoredUnder(logs, SecretKind, n), StoredUnder(logs, StatefulSetKind, n), StoredUnder(logs, IngressKind, n);
            && (secret.Some? <==> n.spec.tls != Some(NoTls) || (n.spec.password.Some? && n.spec.password.value != ""))
            && (secret.Some? ==> secret.value.body.SecretBody?)
            && sts.Some? && sts.value.body.StatefulSetBody? && ing.Some? && ing.value.body.IngressBody?
            && var pod := sts.value.body.spec.template;
            if n.spec.tls != Some(NoTls) then
              && TlsCert in secret.value.body.data && TlsKey in secret.value.body.data
              && CertFile in pod.args && KeyFile in pod.args
              && pod.files == [SecretKeyRef(ResourceName(n.name), TlsCert), SecretKeyRef(ResourceName(n.name), TlsKey)]
              && ing.value.body.tls.Some?
            else
              && (secret.Some? ==> TlsCert !in secret.value.body.data && TlsKey !in secret.value.body.data)
              && CertFile !in pod.args && KeyFile !in pod.args && pod.files == []
              && ing.value.body.tls.None?
  {
    var args := StoredUnder(logs, StatefulSetKind, n).value.body.spec.template.args;
    assert AsksForTls(n.spec) ==> args[|args| - 2] == CertFile && args[|args| - 1] == KeyFile;
  }

  // ---------- Edits of the spec ----------

  /** Somebody gives the stored notebook another spec. */
  function WithSpec(logs: Logs, spec: NotebookSpec, tag: Tag): Logs
    requires Exists(logs, tag)
  {
    var o := StoredNotebook(logs, tag);
    logs[NotebookKey(tag.ns, tag.name) :=
         NotebookLog(logs, tag) + [Entry(Some(o.(body := o.body.(nbspec := spec))), Environment)]]
  }

  predicate IsFullSpec(s: NotebookSpec) {
    Valid(s) && s.host.Some? && Complete(s)
  }

  lemma EditedIs(logs: Logs, decoded: bool, spec: NotebookSpec, tag: Tag)
    requires Exists(logs, tag) && IsFullSpec(spec)
    ensures var edited := WithSpec(logs, spec, tag);
            && SpecIs(edited, tag, true) && OnlyNotebookDiffers(logs, edited, tag)
            && StoredNotebook(edited, tag) == StoredNotebook(logs, tag).(body := StoredNotebook(logs, tag).body.(nbspec := spec))
            && Prepared(Fresh(edited, decoded, tag)).spec == spec
  {
    DefaultedIffComplete(spec);
  }

  /** An edit takes effect: a notebook at rest that is given any other full spec, whose objects' names are not
      taken by foreign objects, is at rest again after one sync, with what the new spec asks for: a changed
      password is in the Secret, a changed flavor in the pod, and so on. */
  lemma EditTakesEffect(logs: Logs, decoded: bool, spec: NotebookSpec, ip: string, tag: Tag)
    requires AtRest(logs, decoded, tag) && IsFullSpec(spec)
    requires IsOpen(WithSpec(logs, spec, tag), decoded, tag)
    ensures var after := Round(WithSpec(logs, spec, tag), decoded, ip, tag).logs;
            && AtRest(after, decoded, tag) && StoredNotebook(after, tag).body.nbspec == spec
            && AllFits(Prepared(Fresh(after, decoded, tag)), after, tag.ca)
  {
    EditedIs(logs, decoded, spec, tag);
    LiveRound(WithSpec(logs, spec, tag), decoded, ip, tag);
    RestMeans(Round(WithSpec(logs, spec, tag), decoded, ip, tag).logs, decoded, tag);
  }

  // ---------- Replacement of the StatefulSet ----------

  /** The old StatefulSet was deleted and the new one created, in this order, right after `own`. */
  predicate IsReplaced(own: Log, after: Log, want: Object, ip: string, tag: Tag) {
    && |after| >= |own| + 2 && own <= after
    && after[|own|] == Entry(None, Operator(tag, Deleted))
    && after[|own| + 1] == Entry(Some(Admit(want, ip)), Operator(tag, Created))
  }

  lemma EndGrows(l: Local, ip: string, tag: Tag)
    requires Sound(l.g) && l.g.pc == Returned
    ensures l.own <= FriendlyEnd(l, ip, tag).own
  {
    var w := FriendlyStep(l, ip, tag);
    FriendlyUnrolls(l, ip, tag);
    FriendlyUnrolls(w, ip, tag);
    if w.g.pc == Waiting {
      FriendlyUnrolls(FriendlyStep(w, ip, tag), ip, tag);
    }
  }

  lemma ReplacementEnds(l: Local, want: Object, ip: string, tag: Tag)
    requires Starts(l, want, tag.ca) && want.body.StatefulSetBody? && Open(StatefulSetKind, l.own)
    requires Current(l.own).Some? && Adopt(want, Current(l.own).value, tag.ca).None?
    ensures IsReplaced(l.own, FriendlyEnd(l, ip, tag).own, want, ip, tag)
  {
    FreshRead(l.g.key.kind, l.own, FriendlyMove(l, ip));
    FriendlyUnrolls(l, ip, tag);
    var p := FriendlyStep(l, ip, tag);
    assert p.g == l.g.(pc := Purge) && p.own == l.own;
    DeletionFollows(p, want, ip, tag);
  }

  lemma DeletionFollows(p: Local, want: Object, ip: string, tag: Tag)
    requires p.g.pc == Purge && p.g.plan == Keep(want, 0) && Current(p.own).Some?
    ensures IsReplaced(p.own, FriendlyEnd(p, ip, tag).own, want, ip, tag)
  {
    FriendlyUnrolls(p, ip, tag);
    FreshRead(p.g.key.kind, p.own, FriendlyMove(p, ip));
    var v := FriendlyStep(p, ip, tag);
    assert v.g == p.g.(pc := Vanish) && v.own == p.own + [Entry(None, Operator(tag, Deleted))];
    VanishingFollows(v, want, ip, tag);
  }

  lemma VanishingFollows(v: Local, want: Object, ip: string, tag: Tag)
    requires v.g.pc == Vanish && v.g.plan == Keep(want, 0) && v.own != [] && Current(v.own).None?
    ensures v.own + [Entry(Some(Admit(want, ip)), Operator(tag, Created))] <= FriendlyEnd(v, ip, tag).own
  {
    FriendlyUnrolls(v, ip, tag);
    FreshRead(v.g.key.kind, v.own, FriendlyMove(v, ip));
    var m := FriendlyStep(v, ip, tag);
    assert m.g == v.g.(pc := Make) && m.own == v.own;
    CreationFollows(m, want, ip, tag);
  }

  lemma CreationFollows(m: Local, want: Object, ip: string, tag: Tag)
    requires Sound(m.g) && m.g.pc == Make && m.g.plan == Keep(want, 0) && m.own != [] && Current(m.own).None?
    ensures m.own + [Entry(Some(Admit(want, ip)), Operator(tag, Created))] <= FriendlyEnd(m, ip, tag).own
  {
    FreshRead(m.g.key.kind, m.own, FriendlyMove(m, ip));
    FriendlyUnrolls(m, ip, tag);
    var r := FriendlyStep(m, ip, tag);
    assert r.own == m.own + [Entry(Some(Admit(want, ip)), Operator(tag, Created))] && r.g.pc == Returned;
    EndGrows(r, ip, tag);
  }

  function StatefulSetLog(logs: Logs, n: Nb): Log {
    LogOf(logs, OwnKey(StatefulSetKind, n.ns, n.name))
  }

  /** Where the StatefulSet was as one spec asks, and another is asked for now: it is replaced exactly if the
      two ask for different pods; otherwise nothing is written to it. */
  lemma ReconcileReplaces(n: Nb, m: Nb, logs: Logs, ip: string, tag: Tag)
    requires Readable(n) && Readable(m) && !n.meta.terminating && !m.meta.terminating
    requires n.ns == m.ns && MetaFor(n, map[]) == MetaFor(m, map[]) && n.name == m.name
    requires ZoneSettled(n, StatefulSetKind, logs, tag)
    ensures var after := StatefulSetLog(Reconciled(m, logs, FriendlyScripts(m, logs, ip, tag), tag).logs, m);
            && (SamePod(n, m) ==> after == StatefulSetLog(logs, m))
            && (!SamePod(n, m) ==> IsReplaced(StatefulSetLog(logs, m), after, CalculateStatefulSet(m), ip, tag))
  {
    TemplatesAgree(n, m);
    CalculatedWellmade(n, StatefulSetKind, tag);
    CalculatedWellmade(m, StatefulSetKind, tag);
    var l := StartOf(m, StatefulSetKind, logs, tag);
    var scripts := FriendlyScripts(m, logs, ip, tag);
    FriendlyZoneEnd(m, logs, scripts, ip, tag, 2, StatefulSetKind);
    if SamePod(n, m) {
      assert CalculateStatefulSet(n) == CalculateStatefulSet(m);
      KeepEnds(l, CalculateStatefulSet(m), ip, tag);
    } else {
      ReplacementEnds(l, CalculateStatefulSet(m), ip, tag);
    }
  }

  /** The same for the sync of a Running notebook. */
  lemma LiveReplaces(n: Nb, m: Nb, logs: Logs, ip: string, tag: Tag)
    requires Readable(n) && Readable(m) && !n.meta.terminating && !m.meta.terminating && m.phase == Running
    requires n.ns == m.ns && MetaFor(n, map[]) == MetaFor(m, map[]) && n.name == m.name
    requires ZoneSettled(n, StatefulSetKind, logs, tag)
    ensures var luck := Luck(Nil, FriendlyScripts(Announced(m), logs, ip, tag));
            var after := StatefulSetLog(Live(m, logs, luck, tag).logs, m);
            && (SamePod(n, m) ==> after == StatefulSetLog(logs, m))
            && (!SamePod(n, m) ==> IsReplaced(StatefulSetLog(logs, m), after, CalculateStatefulSet(m), ip, tag))
  {
    var scripts := FriendlyScripts(m, logs, ip, tag);
    LiveElsewhere(m, logs, Luck(Nil, scripts), tag, OwnKey(StatefulSetKind, m.ns, m.name));
    ReconcileReplaces(n, m, logs, ip, tag);
  }

  /** The notebook at rest, and with its new spec. */
  lemma EditedRest(logs: Logs, decoded: bool, spec: NotebookSpec, tag: Tag)
    requires AtRest(logs, decoded, tag) && IsFullSpec(spec) && !StoredNotebook(logs, tag).meta.terminating
    ensures var edited := WithSpec(logs, spec, tag);
            var n, m := Prepared(Fresh(logs, decoded, tag)), Prepared(Fresh(edited, decoded, tag));
            && n.spec == StoredNotebook(logs, tag).body.nbspec && m.spec == spec
            && SpecIs(edited, tag, true) && m.phase == Running
            && n.name == tag.name && m.name == tag.name && n.ns == tag.ns && m.ns == tag.ns
            && !n.meta.terminating && !m.meta.terminating && MetaFor(n, map[]) == MetaFor(m, map[])
            && ZoneSettled(n, StatefulSetKind, edited, tag)
            && StatefulSetLog(edited, n) == StatefulSetLog(logs, n)
  {
    EditedIs(logs, decoded, spec, tag);
    DefaultedIffComplete(StoredNotebook(logs, tag).body.nbspec);
    ZoneIgnoresNotebook(Prepared(Fresh(logs, decoded, tag)), StatefulSetKind, logs, WithSpec(logs, spec, tag), tag);
  }

  /** A notebook at rest is given another full spec. The next sync deletes and recreates the StatefulSet exactly
      if the flavor, the packages, the GPU, the service account, having a password or having TLS has changed;
      any other edit does not touch it. */
  lemma EditReplacesThePod(logs: Logs, decoded: bool, spec: NotebookSpec, ip: string, tag: Tag)
    requires AtRest(logs, decoded, tag) && IsFullSpec(spec) && !StoredNotebook(logs, tag).meta.terminating
    ensures var edited := WithSpec(logs, spec, tag);
            var n, m := Prepared(Fresh(logs, decoded, tag)), Prepared(Fresh(edited, decoded, tag));
            var before, after := StatefulSetLog(logs, n), StatefulSetLog(Round(edited, decoded, ip, tag).logs, n);
            && n.spec == StoredNotebook(logs, tag).body.nbspec && m.spec == spec
            && (SamePod(n, m) ==> after == before)
            && (!SamePod(n, m) ==> IsReplaced(before, after, CalculateStatefulSet(m), ip, tag))
  {
    EditedRest(logs, decoded, spec, tag);
    var edited := WithSpec(logs, spec, tag);
    RoundIsLive(edited, decoded, ip, tag);
    LiveReplaces(Prepared(Fresh(logs, decoded, tag)), Prepared(Fresh(edited, decoded, tag)), edited, ip, tag);
  }
}
