/** The desired objects of a notebook (the Calculate functions of pkg/k8sutil and the ShouldExist
    predicates of pkg/controller/reconcilers.go). A `requires` is a pointer the source dereferences. */
module Calculate {
  import opened Basics
  import opened NotebookTypes
  import opened Naming
  import opened Kube

  const PORT := 8888

  predicate ShouldHaveCerts(n: Nb) {
    n.spec.tls != Some(NoTls)
  }

  predicate HasPassword(n: Nb) {
    n.spec.password.Some? && n.spec.password.value != ""
  }

  predicate HasHost(n: Nb) {
    n.spec.host.Some? && n.spec.host.value != ""
  }

  predicate ServiceShouldExist(n: Nb) { !n.meta.terminating }

  predicate StatefulSetShouldExist(n: Nb) { !n.meta.terminating }

  predicate SecretShouldExist(n: Nb) {
    !n.meta.terminating && (HasPassword(n) || ShouldHaveCerts(n))
  }

  predicate IngressShouldExist(n: Nb) {
    !n.meta.terminating && HasHost(n)
  }

  predicate ShouldExist(n: Nb, kind: Kind) {
    match kind
    case ServiceKind => ServiceShouldExist(n)
    case SecretKind => SecretShouldExist(n)
    case StatefulSetKind => StatefulSetShouldExist(n)
    case IngressKind => IngressShouldExist(n)
    case NotebookKind => false
  }

  function MetaFor(n: Nb, annotations: map<Annotation, string>): Meta {
    Meta(NotebookLabels(n.name), annotations, [AsOwner(n)], false)
  }

  function CalculateService(n: Nb): Object {
    Object(
      MetaFor(n, map[TolerateUnreadyEndpoints := "true"]),
      ServiceBody(PORT, AddMatchLabels(map[], n.name), ""))
  }

  /** The certificate is new in every sync: its serial is the number of the sync. */
  function FreshCertificate(n: Nb, tag: Tag): Bytes {
    Certificate(tag.ca, tag.sync, n.name, if HasHost(n) then [n.spec.host.value] else [])
  }

  function CalculateSecret(n: Nb, tag: Tag): Object {
    var certs := if ShouldHaveCerts(n)
                 then map[TlsCert := FreshCertificate(n, tag), TlsKey := PrivateKey(tag.sync)]
                 else map[];
    var data := if HasPassword(n) then certs[PasswordKey := Text(n.spec.password.value)] else certs;
    Object(MetaFor(n, map[]), SecretBody(data))
  }

  function CalculateTemplate(n: Nb): PodTemplate
    requires n.spec.flavor.Some? && n.spec.serviceAccount.Some?
  {
    var secret := ResourceName(n.name);
    PodTemplate(
      AddMatchLabels(map[], n.name),
      n.spec.flavor.value,
      [StartNotebook, NoToken]
      + (if HasPassword(n) then [PasswordFromEnv] else [])
      + (if ShouldHaveCerts(n) then [CertFile, KeyFile] else []),
      n.spec.packages,
      if HasPassword(n) then [SecretKeyRef(secret, PasswordKey)] else [],
      if ShouldHaveCerts(n) then [SecretKeyRef(secret, TlsCert), SecretKeyRef(secret, TlsKey)] else [],
      n.spec.gpu,
      n.spec.serviceAccount.value)
  }

  function CalculateStatefulSet(n: Nb): Object
    requires n.spec.flavor.Some? && n.spec.serviceAccount.Some?
  {
    Object(
      MetaFor(n, map[]),
      StatefulSetBody(
        StatefulSetSpec(1, AddMatchLabels(map[], n.name), ResourceName(n.name), CalculateTemplate(n)), 0))
  }

  function CalculateIngress(n: Nb): Object
    requires n.spec.host.Some?
  {
    var host := n.name + "." + n.spec.host.value;
    var acme := n.spec.tls == Some(Acme);
    var base := map[IngressClass := "nginx"];
    var backend := if n.spec.ingress.Some? then n.spec.ingress.value
                   else Backend(ResourceName(n.name), IntPort(PORT));
    if ShouldHaveCerts(n) then
      var issuer := if acme then base[TlsAcme := "true"]
                    else base[SslPassthrough := "true"];
      var annotations := issuer[BackendProtocol := "HTTPS"]
        [SslRedirect := "true"];
      Object(
        MetaFor(n, annotations),
        IngressBody(host, backend, Some(IngressTls([host], if acme then IngressTlsSecretName(n.name) else ""))))
    else
      Object(MetaFor(n, base), IngressBody(host, backend, None))
  }

  // ---------- The objects fit together ----------

  function RefsOf(t: PodTemplate): seq<SecretKeyRef> {
    t.env + t.files
  }

  /** The pod names exactly the keys that its Secret holds, and the Secret is wanted exactly when the
      pod names any. */
  lemma TemplateAndSecretAgree(n: Nb, tag: Tag)
    requires n.spec.flavor.Some? && n.spec.serviceAccount.Some?
    ensures forall r :: r in RefsOf(CalculateTemplate(n)) <==>
                        r.secret == ResourceName(n.name) && r.key in CalculateSecret(n, tag).body.data
    ensures !n.meta.terminating ==> (SecretShouldExist(n) <==> RefsOf(CalculateTemplate(n)) != [])
  {
    var t := CalculateTemplate(n);
    var secret := ResourceName(n.name);
    var password := if HasPassword(n) then [SecretKeyRef(secret, PasswordKey)] else [];
    var files := if ShouldHaveCerts(n) then [SecretKeyRef(secret, TlsCert), SecretKeyRef(secret, TlsKey)] else [];
    assert RefsOf(t) == password + files;
    var data := CalculateSecret(n, tag).body.data;
    assert forall k :: k in data <==>
      (HasPassword(n) && k == PasswordKey) || (ShouldHaveCerts(n) && (k == TlsCert || k == TlsKey));
    forall r: SecretKeyRef | r.secret == secret && r.key in data
      ensures r in RefsOf(t)
    {
      assert r == SecretKeyRef(secret, r.key);
      assert r in password || r in files;
    }
  }

  /** The StatefulSet selects its own pods and those of no other notebook, and is governed by the calculated
      Service; the pod is told about a password or a certificate exactly if it gets one. */
  lemma PodsAreSelected(n: Nb, other: Nb)
    requires n.spec.flavor.Some? && n.spec.serviceAccount.Some?
    requires other.spec.flavor.Some? && other.spec.serviceAccount.Some?
    ensures var s := CalculateStatefulSet(n).body.spec;
            && (Selects(s.selector, CalculateTemplate(other).labels) <==> n.name == other.name)
            && s.template == CalculateTemplate(n) && s.serviceName == ResourceName(n.name)
            && (PasswordFromEnv in s.template.args <==> s.template.env != [])
            && (CertFile in s.template.args <==> s.template.files != [])
            && (KeyFile in s.template.args <==> s.template.files != [])
  {
    MatchLabelsSelectOneNotebook(n.name, other.name);
    var args := CalculateTemplate(n).args;
    assert HasPassword(n) ==> args[2] == PasswordFromEnv;
    assert ShouldHaveCerts(n) ==> args[|args| - 2] == CertFile && args[|args| - 1] == KeyFile;
  }

  /** The Ingress terminates TLS for the host it routes, with a secret of its own exactly under ACME. */
  lemma IngressTlsFits(n: Nb)
    requires n.spec.host.Some?
    ensures var i := CalculateIngress(n);
            && (i.body.tls.Some? <==> ShouldHaveCerts(n))
            && (i.body.tls.Some? ==> i.body.tls.value.hosts == [i.body.host])
            && (TlsAcme in i.meta.annotations <==> i.body.tls.Some? && i.body.tls.value.secretName != "")
            && (SslPassthrough in i.meta.annotations <==> i.body.tls.Some? && i.body.tls.value.secretName == "")
            && (i.body.tls.Some? && i.body.tls.value.secretName != "" ==>
                  i.body.tls.value.secretName != ResourceName(n.name))
  {
    TlsSecretNameClash(n.name, n.name);
  }

  /** The certificate is for the host of the spec, the Ingress routes a subdomain of it: the one never covers
      the other. */
  lemma RoutedHostIsNotCertified(n: Nb, tag: Tag)
    requires n.spec.host.Some?
    ensures CalculateIngress(n).body.host !in FreshCertificate(n, tag).dnsNames
  {
    var host := n.spec.host.value;
    assert |n.name + "." + host| > |host|;
  }

  /** The Service is managed, belongs to its notebook alone, and reaches the pods of no other one. */
  lemma ServiceIsForItsNotebook(n: Nb, other: Nb)
    requires other.spec.flavor.Some? && other.spec.serviceAccount.Some?
    ensures var svc := CalculateService(n);
            && IsManaged(svc.meta.labels) && svc.meta.owners == [AsOwner(n)] && AsOwner(n).controller
            && svc.body.clusterIP == ""
            && (Selects(svc.body.selector, CalculateTemplate(other).labels) <==> n.name == other.name)
            && (n.spec.host.Some? && n.spec.ingress.None? ==>
                  CalculateIngress(n).body.backend.port == IntPort(svc.body.port))
  {
    NotebookLabelsAreManaged(n.name);
    MatchLabelsSelectOneNotebook(n.name, other.name);
  }

  // ---------- What the spec asks for ----------

  /** TLS is on unless it is set to "none"; a missing strategy counts as on. */
  predicate AsksForTls(s: NotebookSpec) {
    match s.tls
    case Some(NoTls) => false
    case _ => true
  }

  predicate AsksForPassword(s: NotebookSpec) {
    match s.password
    case None => false
    case Some(text) => text != ""
  }

  /** A Secret is asked for by a password or TLS, an Ingress by a host, a Service and a StatefulSet always; nothing
      is by a notebook that is being deleted. */
  predicate IsAskedFor(n: Nb, kind: Kind) {
    && !n.meta.terminating
    && match kind
       case ServiceKind => true
       case SecretKind => AsksForPassword(n.spec) || AsksForTls(n.spec)
       case StatefulSetKind => true
       case IngressKind => n.spec.host.Some? && n.spec.host.value != ""
       case NotebookKind => false
  }

  lemma WantedMeans(n: Nb, kind: Kind)
    ensures ShouldExist(n, kind) <==> IsAskedFor(n, kind)
  {}

  /** The fresh certificate: signed by this controller's CA in this sync, for the notebook and its host. */
  lemma FreshCertificateIs(n: Nb, tag: Tag)
    ensures var c := FreshCertificate(n, tag);
            && c.Certificate? && c.ca == tag.ca && c.serial == tag.sync && c.commonName == n.name
            && c.dnsNames == if n.spec.host.Some? && n.spec.host.value != "" then [n.spec.host.value] else []
  {}

  /** The Secret holds the password, and certificate and key of one signing event, exactly as asked for. */
  lemma SecretIs(n: Nb, tag: Tag)
    ensures var data := CalculateSecret(n, tag).body.data;
            && (PasswordKey in data <==> AsksForPassword(n.spec))
            && (AsksForPassword(n.spec) ==> data[PasswordKey] == Text(n.spec.password.value))
            && (TlsCert in data <==> AsksForTls(n.spec)) && (TlsKey in data <==> AsksForTls(n.spec))
            && (AsksForTls(n.spec) ==> data[TlsCert] == FreshCertificate(n, tag) && data[TlsKey] == PrivateKey(tag.sync))
            && (forall k :: k in data ==> k == PasswordKey || k == TlsCert || k == TlsKey)
  {}

  /** The pod runs what the spec asks for, and serves TLS, and asks for a password, exactly if it should. */
  ghost predicate Runs(t: PodTemplate, name: string, s: NotebookSpec) {
    && s.flavor == Some(t.flavor) && t.condaPackages == s.packages && t.gpu == s.gpu
    && s.serviceAccount == Some(t.serviceAccount) && t.labels == map[NotebookLabel := name]
    && t.args == [StartNotebook, NoToken] + (if AsksForPassword(s) then [PasswordFromEnv] else [])
                 + (if AsksForTls(s) then [CertFile, KeyFile] else [])
    && t.env == (if AsksForPassword(s) then [SecretKeyRef(ResourceName(name), PasswordKey)] else [])
    && t.files == (if AsksForTls(s) then [SecretKeyRef(ResourceName(name), TlsCert), SecretKeyRef(ResourceName(name), TlsKey)]
                   else [])
  }

  lemma TemplateRuns(n: Nb, t: PodTemplate)
    requires n.spec.flavor.Some? && n.spec.serviceAccount.Some?
    ensures t == CalculateTemplate(n) <==> Runs(t, n.name, n.spec)
  {}

  /** What the pod depends on. */
  predicate SamePod(a: Nb, b: Nb) {
    && a.name == b.name && a.spec.flavor == b.spec.flavor && a.spec.packages == b.spec.packages
    && a.spec.gpu == b.spec.gpu && a.spec.serviceAccount == b.spec.serviceAccount
    && AsksForPassword(a.spec) == AsksForPassword(b.spec) && AsksForTls(a.spec) == AsksForTls(b.spec)
  }

  /** Two notebooks have the same pod template exactly if they agree on the name, the flavor, the packages, the
      GPU, the service account, on having a password and on having TLS. */
  lemma TemplatesAgree(a: Nb, b: Nb)
    requires a.spec.flavor.Some? && a.spec.serviceAccount.Some?
    requires b.spec.flavor.Some? && b.spec.serviceAccount.Some?
    ensures CalculateTemplate(a) == CalculateTemplate(b) <==> SamePod(a, b)
  {
    var s, t := CalculateTemplate(a), CalculateTemplate(b);
    TemplateRuns(a, s);
    TemplateRuns(b, t);
    if s == t {
      assert s.labels[NotebookLabel] == a.name && t.labels[NotebookLabel] == b.name;
      assert |s.env| == |t.env| && |s.files| == |t.files|;
    }
  }

  /** The Ingress as the spec asks for it. */
  ghost predicate Routes(meta: Meta, host: string, backend: Backend, tls: Option<IngressTls>, name: string, s: NotebookSpec) {
    && s.host.Some? && host == name + "." + s.host.value
    && (if s.ingress.Some? then backend == s.ingress.value else backend == Backend(ResourceName(name), IntPort(8888)))
    && (tls.Some? <==> AsksForTls(s))
    && (tls.Some? ==> tls.value == IngressTls([host], if s.tls == Some(Acme) then IngressTlsSecretName(name) else ""))
    && meta.annotations == (if !AsksForTls(s) then map[IngressClass := "nginx"]
                            else if s.tls == Some(Acme) then
                              map[IngressClass := "nginx", TlsAcme := "true", BackendProtocol := "HTTPS", SslRedirect := "true"]
                            else
                              map[IngressClass := "nginx", SslPassthrough := "true", BackendProtocol := "HTTPS", SslRedirect := "true"])
  }

  lemma IngressRoutes(n: Nb)
    requires n.spec.host.Some?
    ensures var i := CalculateIngress(n);
            i.body.IngressBody? && Routes(i.meta, i.body.host, i.body.backend, i.body.tls, n.name, n.spec)
  {}

  lemma ServiceIs(n: Nb)
    ensures CalculateService(n).body == ServiceBody(8888, map[NotebookLabel := n.name], "")
    ensures CalculateService(n).meta.annotations == map[TolerateUnreadyEndpoints := "true"]
  {}

  /** Whatever is calculated is labelled as managed and for its notebook, which is its only owner. */
  predicate IsFor(meta: Meta, n: Nb) {
    meta.labels == map[ManagedBy := "jupyter-operator", NotebookLabel := n.name] && meta.owners == [AsOwner(n)]
  }

  lemma MetaIsFor(n: Nb, annotations: map<Annotation, string>)
    ensures IsFor(MetaFor(n, annotations), n) && MetaFor(n, annotations).annotations == annotations
    ensures !MetaFor(n, annotations).terminating
    ensures AsOwner(n) == OwnerRef(n.apiVersion, n.kind, n.name, n.uid, true)
  {
    NamesAre(n.name);
  }
}
