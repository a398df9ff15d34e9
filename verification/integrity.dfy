/** What the four stored objects of a settled notebook have to do with one another. */
module Integrity {
  import opened Basics
  import opened NotebookTypes
  import opened Naming
  import opened Kube
  import opened Calculate
  import opened Goroutine
  import opened Interleaving
  import opened Sync
  import opened Settling
  import opened Quiescence
  import opened Rounds
  import opened Certificates
  import opened Deletion

  function StoredObject(logs: Logs, kind: Kind, n: Nb): Option<Object> {
    Current(LogOf(logs, OwnKey(kind, n.ns, n.name)))
  }

  /** Every Secret entry that the stored pod template reads is in the stored Secret, and there is a Secret
      exactly if the template reads any. */
  ghost predicate TemplateIsServed(logs: Logs, n: Nb) {
    var sts, secret := StoredObject(logs, StatefulSetKind, n), StoredObject(logs, SecretKind, n);
    && sts.Some? && sts.value.body.StatefulSetBody?
    && var refs := RefsOf(sts.value.body.spec.template);
    && (secret.Some? <==> refs != [])
    && forall r :: r in refs ==>
         && r.secret == OwnKey(SecretKind, n.ns, n.name).name
         && secret.Some? && secret.value.body.SecretBody? && r.key in secret.value.body.data
  }

  /** The stored Service routes to the pods of the stored StatefulSet, and to those of no other notebook. */
  ghost predicate ServiceReachesPods(logs: Logs, n: Nb) {
    var svc, sts := StoredObject(logs, ServiceKind, n), StoredObject(logs, StatefulSetKind, n);
    && svc.Some? && svc.value.body.ServiceBody? && sts.Some? && sts.value.body.StatefulSetBody?
    && Selects(svc.value.body.selector, sts.value.body.spec.template.labels)
    && forall other: Nb :: Readable(other) && !other.meta.terminating && other.name != n.name ==>
         !Selects(svc.value.body.selector, CalculateTemplate(other).labels)
  }

  /** The stored Ingress leads to the stored Service, at a port it serves, unless the notebook names a
      backend of its own. */
  predicate IngressReachesService(logs: Logs, n: Nb) {
    var ing, svc := StoredObject(logs, IngressKind, n), StoredObject(logs, ServiceKind, n);
    && ing.Some? && ing.value.body.IngressBody? && svc.Some? && svc.value.body.ServiceBody?
    && (n.spec.ingress.None? ==>
          && ing.value.body.backend.service == OwnKey(ServiceKind, n.ns, n.name).name
          && ing.value.body.backend.port == IntPort(svc.value.body.port))
    && (n.spec.ingress.Some? ==> ing.value.body.backend == n.spec.ingress.value)
  }

  /** The stored StatefulSet selects the pods it makes. */
  predicate StatefulSetSelectsPods(logs: Logs, n: Nb) {
    var sts := StoredObject(logs, StatefulSetKind, n);
    && sts.Some? && sts.value.body.StatefulSetBody?
    && Selects(sts.value.body.spec.selector, sts.value.body.spec.template.labels)
  }

  /** The four objects refer to one another, and to the pods, as they should. */
  ghost predicate FitTogether(logs: Logs, n: Nb) {
    && TemplateIsServed(logs, n) && ServiceReachesPods(logs, n) && IngressReachesService(logs, n)
    && StatefulSetSelectsPods(logs, n)
  }

  lemma StoredTemplate(n: Nb, logs: Logs, tag: Tag)
    requires Readable(n) && !n.meta.terminating && AllSettled(n, logs, tag)
    ensures var sts := StoredObject(logs, StatefulSetKind, n);
            sts.Some? && sts.value.body.StatefulSetBody? && sts.value.body.spec.template == CalculateTemplate(n)
  {
    assert ZoneSettled(n, StatefulSetKind, logs, tag);
  }

  /** Certificates are kept or replaced, but no entry is lost. */
  lemma StoredSecret(n: Nb, logs: Logs, tag: Tag)
    requires Readable(n) && !n.meta.terminating && AllSettled(n, logs, tag)
    ensures var secret := StoredObject(logs, SecretKind, n);
            && (secret.Some? <==> SecretShouldExist(n))
            && (secret.Some? ==>
                  && secret.value.body.SecretBody?
                  && secret.value.body.data == KeepCertificate(CalculateSecret(n, tag).body.data, secret.value.body.data, tag.ca)
                  && forall k :: k in CalculateSecret(n, tag).body.data ==> k in secret.value.body.data)
  {
    assert ZoneSettled(n, SecretKind, logs, tag);
  }

  lemma SettledServesTemplate(n: Nb, logs: Logs, tag: Tag)
    requires Readable(n) && !n.meta.terminating && AllSettled(n, logs, tag)
    ensures TemplateIsServed(logs, n)
  {
    StoredTemplate(n, logs, tag);
    StoredSecret(n, logs, tag);
    TemplateAndSecretAgree(n, tag);
  }

  lemma SettledServiceReachesPods(n: Nb, logs: Logs, tag: Tag)
    requires Readable(n) && !n.meta.terminating && AllSettled(n, logs, tag)
    ensures ServiceReachesPods(logs, n)
  {
    StoredTemplate(n, logs, tag);
    assert ZoneSettled(n, ServiceKind, logs, tag);
    MatchLabelsSelectOneNotebook(n.name, n.name);
    forall other: Nb | Readable(other) && !other.meta.terminating && other.name != n.name
      ensures !Selects(AddMatchLabels(map[], n.name), CalculateTemplate(other).labels)
    {
      MatchLabelsSelectOneNotebook(n.name, other.name);
    }
  }

  lemma SettledIngressReachesService(n: Nb, logs: Logs, tag: Tag)
    requires Readable(n) && !n.meta.terminating && HasHost(n) && AllSettled(n, logs, tag)
    ensures IngressReachesService(logs, n)
  {
    assert ZoneSettled(n, IngressKind, logs, tag) && ZoneSettled(n, ServiceKind, logs, tag);
  }

  lemma SettledFits(n: Nb, logs: Logs, tag: Tag)
    requires Readable(n) && !n.meta.terminating && HasHost(n) && AllSettled(n, logs, tag)
    requires SelectsItself(StoredObject(logs, StatefulSetKind, n))
    ensures FitTogether(logs, n)
  {
    SettledServesTemplate(n, logs, tag);
    SettledServiceReachesPods(n, logs, tag);
    SettledIngressReachesService(n, logs, tag);
    StoredTemplate(n, logs, tag);
  }

  /** A reconcile hands on what the server once checked: a StatefulSet that selects its own pods. */
  lemma ReconcileSelects(n: Nb, logs: Logs, ip: string, tag: Tag)
    requires Readable(n) && SelectsItself(StoredObject(logs, StatefulSetKind, n))
    ensures SelectsItself(StoredObject(Reconciled(n, logs, FriendlyScripts(n, logs, ip, tag), tag).logs, StatefulSetKind, n))
  {
    var l := StartOf(n, StatefulSetKind, logs, tag);
    if ShouldExist(n, StatefulSetKind) {
      MatchLabelsSelectOneNotebook(n.name, n.name);
    }
    EndSelects(l, ip, tag);
    FriendlyZoneEnd(n, logs, FriendlyScripts(n, logs, ip, tag), ip, tag, 2, StatefulSetKind);
  }

  /** Referential integrity: after a friendly reconcile, whatever was stored before, the four objects refer
      to one another as they should. An adopted StatefulSet keeps its selector, which the server has checked
      against its pods. */
  lemma ReconcileFitsTogether(n: Nb, logs: Logs, ip: string, tag: Tag)
    requires Readable(n) && !n.meta.terminating && HasHost(n) && AllOpen(n, logs)
    requires SelectsItself(StoredObject(logs, StatefulSetKind, n))
    ensures var r := Reconciled(n, logs, FriendlyScripts(n, logs, ip, tag), tag);
            r.err.None? && FitTogether(r.logs, n)
  {
    FriendlyReconcile(n, logs, ip, tag);
    ReconcileSelects(n, logs, ip, tag);
    SettledFits(n, Reconciled(n, logs, FriendlyScripts(n, logs, ip, tag), tag).logs, tag);
  }

  // ---------- ... and over rounds ----------

  function StoredStatefulSet(logs: Logs, tag: Tag): Option<Object> {
    Current(LogOf(logs, OwnKey(StatefulSetKind, tag.ns, tag.name)))
  }

  lemma AnnouncedSelects(n: Nb, before: Logs, logs: Logs, ip: string, tag: Tag)
    requires Readable(n) && OnlyNotebookDiffers(before, logs, tag)
    requires SelectsItself(StoredObject(before, StatefulSetKind, n))
    ensures SelectsItself(StoredObject(Reconciled(n, logs, FriendlyScripts(n, before, ip, tag), tag).logs, StatefulSetKind, n))
  {
    ScriptsIgnoreNotebook(n, before, logs, ip, tag);
    assert StoredObject(before, StatefulSetKind, n) == StoredObject(logs, StatefulSetKind, n);
    ReconcileSelects(n, logs, ip, tag);
  }

  lemma SetPhaseElsewhere(n: Nb, logs: Logs, tag: Tag)
    ensures OnlyNotebookDiffers(logs, SetPhase(logs, Nil, n.rv, n.phase, Announced(n).phase, tag).logs, tag)
  {}

  lemma LiveSelects(n: Nb, logs: Logs, ip: string, tag: Tag)
    requires Readable(n) && n.ns == tag.ns && n.name == tag.name && SelectsItself(StoredStatefulSet(logs, tag))
    ensures var r := Live(n, logs, Luck(Nil, FriendlyScripts(Announced(n), logs, ip, tag)), tag);
            SelectsItself(StoredStatefulSet(r.logs, tag))
  {
    var scripts := FriendlyScripts(Announced(n), logs, ip, tag);
    var w := SetPhase(logs, Nil, n.rv, n.phase, Announced(n).phase, tag);
    SetPhaseElsewhere(n, logs, tag);
    AnnouncedSelects(Announced(n), logs, w.logs, ip, tag);
    LiveElsewhere(n, logs, Luck(Nil, scripts), tag, OwnKey(StatefulSetKind, tag.ns, tag.name));
  }

  lemma RoundSelects(logs: Logs, decoded: bool, ip: string, tag: Tag)
    requires SpecIs(logs, tag, false) && SelectsItself(StoredStatefulSet(logs, tag))
    ensures SelectsItself(StoredStatefulSet(Round(logs, decoded, ip, tag).logs, tag))
  {
    if Complete(StoredNotebook(logs, tag).body.nbspec) {
      RoundIsLive(logs, decoded, ip, tag);
      LiveSelects(Prepared(Fresh(logs, decoded, tag)), logs, ip, tag);
    } else {
      DefaultsRound(logs, decoded, ip, tag);
    }
  }

  lemma {:induction false} RoundsSelect(logs: Logs, decoded: bool, ip: string, tags: seq<Tag>)
    requires tags != [] && SameSubjects(tags)
    requires SpecIs(logs, tags[0], false) && IsOpen(logs, decoded, tags[0])
    requires SelectsItself(StoredStatefulSet(logs, tags[0]))
    ensures SelectsItself(StoredStatefulSet(AfterRounds(logs, decoded, ip, tags), tags[0]))
    decreases |tags|
  {
    var before, last := tags[..|tags| - 1], tags[|tags| - 1];
    var mid := AfterRounds(logs, decoded, ip, before);
    if before != [] {
      RoundsSelect(logs, decoded, ip, before);
      QuiescentAfterThree(logs, decoded, ip, before);
      assert before[0] == tags[0];
      assert SpecIs(mid, tags[0], false);
    }
    assert SameSubject(tags[0], last);
    RoundSelects(mid, decoded, ip, last);
  }

  /** After three syncs at the latest the stored objects fit together, whatever was stored before. */
  lemma RestFitsTogether(logs: Logs, decoded: bool, ip: string, tags: seq<Tag>)
    requires |tags| >= 3 && SameSubjects(tags)
    requires SpecIs(logs, tags[0], false) && IsOpen(logs, decoded, tags[0])
    requires SelectsItself(StoredStatefulSet(logs, tags[0]))
    ensures var rest := AfterRounds(logs, decoded, ip, tags);
            && AtRest(rest, decoded, tags[0])
            && (!StoredNotebook(rest, tags[0]).meta.terminating ==>
                  FitTogether(rest, Prepared(Fresh(rest, decoded, tags[0]))))
  {
    QuiescentAfterThree(logs, decoded, ip, tags);
    RoundsSelect(logs, decoded, ip, tags);
    var rest := AfterRounds(logs, decoded, ip, tags);
    RestFits(rest, decoded, tags[0]);
  }

  lemma RestFits(logs: Logs, decoded: bool, tag: Tag)
    requires AtRest(logs, decoded, tag) && SelectsItself(StoredStatefulSet(logs, tag))
    ensures !StoredNotebook(logs, tag).meta.terminating ==> FitTogether(logs, Prepared(Fresh(logs, decoded, tag)))
  {
    if !StoredNotebook(logs, tag).meta.terminating {
      SettledFits(Prepared(Fresh(logs, decoded, tag)), logs, tag);
    }
  }

  // ---------- Certificates of a settled notebook ----------

  /** If the stored Secret is paired, as it is while nobody edits it, what the pod mounts is a certificate
      of this controller's CA together with its own key. */
  lemma SettledCertificateIsOurs(n: Nb, logs: Logs, tag: Tag)
    requires Readable(n) && !n.meta.terminating && AllSettled(n, logs, tag) && ShouldHaveCerts(n)
    requires var secret := StoredObject(logs, SecretKind, n); secret.Some? ==> Paired(DataOf(secret.value))
    ensures var secret := StoredObject(logs, SecretKind, n);
            && secret.Some? && HasCert(secret)
            && var d := DataOf(secret.value);
            && d[TlsCert].Certificate? && d[TlsCert].ca == tag.ca
            && TlsKey in d && d[TlsKey] == PrivateKey(d[TlsCert].serial)
  {
    StoredSecret(n, logs, tag);
  }

  function Cert(o: Object): Option<Bytes> {
    if HasCert(Some(o)) then Some(DataOf(o)[TlsCert]) else None
  }

  predicate IsOfCa(cert: Option<Bytes>, ca: nat) {
    cert.Some? && cert.value.Certificate? && cert.value.ca == ca
  }

  /** A stored certificate of this CA stays whatever the notebook asks for, any other one is replaced by the
      fresh one. So after the write the certificate is for the notebook's host exactly if it was reissued or
      was for that host before: a mere change of the host does not reissue it. */
  lemma HostChangeKeepsCertificate(n: Nb, stored: Object, tag: Tag)
    requires ShouldHaveCerts(n) && stored.body.SecretBody?
    ensures var written := Adopt(CalculateSecret(n, tag), stored, tag.ca);
            && written.Some? && IsOfCa(Cert(written.value), tag.ca)
            && Cert(written.value)
               == (if IsOfCa(Cert(stored), tag.ca) then Cert(stored) else Some(FreshCertificate(n, tag)))
            && (Cert(written.value).value.dnsNames == FreshCertificate(n, tag).dnsNames
                <==> !IsOfCa(Cert(stored), tag.ca)
                     || Cert(stored).value.dnsNames == FreshCertificate(n, tag).dnsNames)
  {}

  /** Somebody gives the stored notebook another host. */
  function WithHost(logs: Logs, host: string, tag: Tag): Logs
    requires Exists(logs, tag)
  {
    var o := StoredNotebook(logs, tag);
    var edited := o.(body := o.body.(nbspec := o.body.nbspec.(host := Some(host))));
    logs[NotebookKey(tag.ns, tag.name) := NotebookLog(logs, tag) + [Entry(Some(edited), Environment)]]
  }

  function SecretLog(logs: Logs, tag: Tag): Log {
    LogOf(logs, OwnKey(SecretKind, tag.ns, tag.name))
  }

  lemma LiveKeepsSecret(n: Nb, logs: Logs, ip: string, tag: Tag)
    requires Readable(n) && n.ns == tag.ns && n.name == tag.name && n.phase == Running
    requires AllOpen(n, logs) && ZoneSettled(n, SecretKind, logs, tag)
    ensures SecretLog(Live(n, logs, Luck(Nil, FriendlyScripts(n, logs, ip, tag)), tag).logs, tag) == SecretLog(logs, tag)
  {
    var scripts := FriendlyScripts(n, logs, ip, tag);
    var key := OwnKey(SecretKind, tag.ns, tag.name);
    LiveElsewhere(n, logs, Luck(Nil, scripts), tag, key);
    ZoneUnchanged(n, logs, scripts, ip, tag, 1, SecretKind, key);
  }

  /** A live round leaves a Secret alone that is settled for the notebook. */
  lemma RoundKeepsSecret(logs: Logs, decoded: bool, ip: string, tag: Tag)
    requires SpecIs(logs, tag, true) && IsOpen(logs, decoded, tag)
    requires StoredNotebook(logs, tag).body.phase == Running
    requires ZoneSettled(Prepared(Fresh(logs, decoded, tag)), SecretKind, logs, tag)
    ensures SecretLog(Round(logs, decoded, ip, tag).logs, tag) == SecretLog(logs, tag)
  {
    RoundIsLive(logs, decoded, ip, tag);
    LiveKeepsSecret(Prepared(Fresh(logs, decoded, tag)), logs, ip, tag);
  }

  lemma EditIsValid(logs: Logs, host: string, tag: Tag)
    requires SpecIs(logs, tag, true) && IsDns1123Subdomain(host)
    ensures var edited := WithHost(logs, host, tag);
            && SpecIs(edited, tag, true)
            && StoredNotebook(edited, tag).body.phase == StoredNotebook(logs, tag).body.phase
            && StoredNotebook(edited, tag).body.nbspec.host == Some(host)
  {}

  /** At rest, and then another host: nothing stands in the way, ... */
  lemma EditIsOpen(logs: Logs, decoded: bool, host: string, tag: Tag)
    requires AtRest(logs, decoded, tag) && IsDns1123Subdomain(host)
    ensures Exists(WithHost(logs, host, tag), tag) && IsOpen(WithHost(logs, host, tag), decoded, tag)
  {
    var edited := WithHost(logs, host, tag);
    var n := Prepared(Fresh(logs, decoded, tag));
    SettledIsOpen(n, logs, tag);
    ZonesIgnoreNotebook(n, logs, edited, tag);
    EditIsValid(logs, host, tag);
    SameNamesOpen(n, Prepared(Fresh(edited, decoded, tag)), edited);
  }

  lemma SameNamesOpen(a: Nb, b: Nb, logs: Logs)
    requires a.ns == b.ns && a.name == b.name && AllOpen(a, logs)
    requires a.meta.terminating == b.meta.terminating && HasHost(a) == HasHost(b)
    requires HasPassword(a) == HasPassword(b) && ShouldHaveCerts(a) == ShouldHaveCerts(b)
    ensures AllOpen(b, logs)
  {}

  lemma SameSecretSettled(n: Nb, m: Nb, a: Logs, b: Logs, tag: Tag)
    requires Readable(n) && Readable(m) && SameSecret(n, m) && n.ns == m.ns && n.name == m.name
    requires SecretShouldExist(n) == SecretShouldExist(m) && ZoneSettled(n, SecretKind, a, tag)
    requires LogOf(b, OwnKey(SecretKind, n.ns, n.name)) == LogOf(a, OwnKey(SecretKind, n.ns, n.name))
    ensures ZoneSettled(m, SecretKind, b, tag)
  {
    if SecretShouldExist(n) {
      SecretSettledForAll(n, m, Current(LogOf(a, OwnKey(SecretKind, n.ns, n.name))).value, tag, tag);
    }
  }

  /** ... and the Secret is still as it should be. */
  lemma EditKeepsSecret(logs: Logs, decoded: bool, host: string, tag: Tag)
    requires AtRest(logs, decoded, tag) && IsDns1123Subdomain(host)
    ensures var edited := WithHost(logs, host, tag);
            && SecretLog(edited, tag) == SecretLog(logs, tag)
            && ZoneSettled(Prepared(Fresh(edited, decoded, tag)), SecretKind, edited, tag)
  {
    var edited := WithHost(logs, host, tag);
    EditIsValid(logs, host, tag);
    SameSecretSettled(Prepared(Fresh(logs, decoded, tag)), Prepared(Fresh(edited, decoded, tag)), logs, edited, tag);
  }

  /** At rest with the new host, and with the Secret of before. */
  predicate Unnoticed(logs: Logs, rest: Logs, decoded: bool, host: string, tag: Tag) {
    && AtRest(rest, decoded, tag) && StoredNotebook(rest, tag).body.nbspec.host == Some(host)
    && SecretLog(rest, tag) == SecretLog(logs, tag)
  }

  lemma FirstRoundAfterEdit(logs: Logs, decoded: bool, host: string, ip: string, tag: Tag)
    requires AtRest(logs, decoded, tag) && IsDns1123Subdomain(host)
    ensures Unnoticed(logs, Round(WithHost(logs, host, tag), decoded, ip, tag).logs, decoded, host, tag)
  {
    EditIsValid(logs, host, tag);
    EditIsOpen(logs, decoded, host, tag);
    EditKeepsSecret(logs, decoded, host, tag);
    var edited := WithHost(logs, host, tag);
    LiveRound(edited, decoded, ip, tag);
    RoundKeepsSecret(edited, decoded, ip, tag);
  }

  lemma UnnoticedForAll(logs: Logs, a: Logs, b: Logs, decoded: bool, host: string, tag: Tag)
    requires Unnoticed(logs, a, decoded, host, tag) && Same(a, b) && AtRest(b, decoded, tag)
    ensures Unnoticed(logs, b, decoded, host, tag)
  {
    assert NotebookLog(a, tag) == NotebookLog(b, tag) && SecretLog(a, tag) == SecretLog(b, tag);
  }

  /** A notebook at rest that is given another host is at rest again after one sync, and after any number of
      them, without any write to its Secret: the certificate it serves is still the one for the old host. */
  lemma HostChangeGoesUnnoticed(logs: Logs, decoded: bool, host: string, ip: string, first: Tag, more: seq<Tag>)
    requires AtRest(logs, decoded, first) && IsDns1123Subdomain(host)
    requires forall i :: 0 <= i < |more| ==> SameSubject(first, more[i])
    ensures var one := Round(WithHost(logs, host, first), decoded, ip, first).logs;
            Unnoticed(logs, AfterRounds(one, decoded, ip, more), decoded, host, first)
  {
    FirstRoundAfterEdit(logs, decoded, host, ip, first);
    var one := Round(WithHost(logs, host, first), decoded, ip, first).logs;
    RestLasts(one, decoded, ip, first, more);
    UnnoticedForAll(logs, one, AfterRounds(one, decoded, ip, more), decoded, host, first);
  }

  /** Under self-signed TLS the Ingress passes the connection through to the notebook, for the host that it
      routes; but the certificate is issued for the host of the spec, without the notebook's name. No
      certificate that was issued for the notebook's present host covers what the Ingress routes. */
  lemma PassthroughHostIsNotCovered(n: Nb, logs: Logs, tag: Tag)
    requires Readable(n) && !n.meta.terminating && HasHost(n) && ShouldHaveCerts(n) && AllSettled(n, logs, tag)
    ensures var ing, secret := StoredObject(logs, IngressKind, n), StoredObject(logs, SecretKind, n);
            && ing.Some? && ing.value.body.IngressBody? && secret.Some? && IsOfCa(Cert(secret.value), tag.ca)
            && (Cert(secret.value).value.dnsNames == FreshCertificate(n, tag).dnsNames ==>
                  ing.value.body.host !in Cert(secret.value).value.dnsNames)
            && (n.spec.tls != Some(Acme) ==> SslPassthrough in ing.value.meta.annotations)
  {
    StoredSecret(n, logs, tag);
    assert ZoneSettled(n, IngressKind, logs, tag);
    RoutedHostIsNotCertified(n, tag);
  }

  // ---------- Notebooks that are being deleted ----------

  lemma SettledTerminatingIsGone(n: Nb, logs: Logs, tag: Tag)
    requires Readable(n) && n.meta.terminating && n.ns == tag.ns && n.name == tag.name && AllSettled(n, logs, tag)
    ensures Gone(logs, tag)
  {}

  /** A sync of a complete notebook that still exists but carries a deletion timestamp removes its resources,
      foreign objects of those names included, and moves its phase on as if it were alive: to Running, or
      first to Pending. */
  lemma TerminatingRound(logs: Logs, decoded: bool, ip: string, tag: Tag)
    requires SpecIs(logs, tag, true) && StoredNotebook(logs, tag).meta.terminating
    ensures var r := Round(logs, decoded, ip, tag);
            && r.err.None? && Gone(r.logs, tag)
            && Exists(r.logs, tag)
            && StoredNotebook(r.logs, tag).body.phase == NextPhase(StoredNotebook(logs, tag).body.phase)
  {
    LiveRound(logs, decoded, ip, tag);
    var after := Round(logs, decoded, ip, tag).logs;
    SettledTerminatingIsGone(Prepared(Fresh(after, decoded, tag)), after, tag);
  }

  lemma RoundKeepsMeta(logs: Logs, decoded: bool, ip: string, tag: Tag)
    requires OnTrack(logs, decoded, tag)
    ensures var after := Round(logs, decoded, ip, tag).logs;
            Exists(after, tag) && StoredNotebook(after, tag).meta == StoredNotebook(logs, tag).meta
  {
    if Complete(StoredNotebook(logs, tag).body.nbspec) {
      LiveRound(logs, decoded, ip, tag);
    } else {
      DefaultsRound(logs, decoded, ip, tag);
    }
  }

  lemma {:induction false} RoundsKeepMeta(logs: Logs, decoded: bool, ip: string, tag: Tag, tags: seq<Tag>)
    requires OnTrack(logs, decoded, tag) && forall i :: 0 <= i < |tags| ==> SameSubject(tag, tags[i])
    ensures var after := AfterRounds(logs, decoded, ip, tags);
            Exists(after, tag) && StoredNotebook(after, tag).meta == StoredNotebook(logs, tag).meta
    decreases |tags|
  {
    if tags != [] {
      var before, last := tags[..|tags| - 1], tags[|tags| - 1];
      var mid := AfterRounds(logs, decoded, ip, before);
      NeededAfter(logs, decoded, ip, tag, before);
      RoundsKeepMeta(logs, decoded, ip, tag, before);
      NeededForAll(mid, decoded, tag, last);
      RoundKeepsMeta(mid, decoded, ip, last);
    }
  }

  /** So whatever its phase, and whatever is stored under its names, a notebook that is being deleted is
      marked Running with none of its resources left, after exactly as many syncs as a living one needs. */
  lemma TerminatingIsMarkedRunning(logs: Logs, decoded: bool, ip: string, tag: Tag, tags: seq<Tag>)
    requires SpecIs(logs, tag, false) && StoredNotebook(logs, tag).meta.terminating
    requires |tags| >= Needed(logs, decoded, tag) && forall i :: 0 <= i < |tags| ==> SameSubject(tag, tags[i])
    ensures var rest := AfterRounds(logs, decoded, ip, tags);
            && AtRest(rest, decoded, tag) && Gone(rest, tag)
            && StoredNotebook(rest, tag).meta.terminating && StoredNotebook(rest, tag).body.phase == Running
  {
    QuiescentExactlyAfter(logs, decoded, ip, tag, tags);
    RoundsKeepMeta(logs, decoded, ip, tag, tags);
    var rest := AfterRounds(logs, decoded, ip, tags);
    SettledTerminatingIsGone(Prepared(Fresh(rest, decoded, tag)), rest, tag);
  }
}
