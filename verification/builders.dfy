/** The Calculate and Delete functions of pkg/k8sutil in the step-by-step form of the source: each builds
    its object by filling maps and appending to lists, and is proved to build the object that the
    reconcilers want. */
module Builders {
  import opened Basics
  import opened NotebookTypes
  import opened Naming
  import opened Kube
  import opened Calculate
  import opened Goroutine
  import opened Resources

  /** addOwnerRefToObject. */
  method AddOwnerRef(o: Object, ref: OwnerRef) returns (r: Object)
    ensures r == o.(meta := o.meta.(owners := o.meta.owners + [ref]))
  {
    r := o.(meta := o.meta.(owners := o.meta.owners + [ref]));
  }

  method BuildService(n: Nb) returns (svc: Object)
    ensures svc == CalculateService(n)
  {
    var annotations := map[TolerateUnreadyEndpoints := "true"];
    var selector := AddMatchLabels(map[], n.name);
    svc := Object(Meta(NotebookLabels(n.name), annotations, [], false), ServiceBody(PORT, selector, ""));
    svc := AddOwnerRef(svc, AsOwner(n));
  }

  method BuildSecret(n: Nb, tag: Tag) returns (secret: Object)
    ensures secret == CalculateSecret(n, tag)
  {
    var data: map<DataKey, Bytes> := map[];
    if ShouldHaveCerts(n) {
      var names: seq<string> := [];
      if n.spec.host.Some? && n.spec.host.value != "" {
        names := names + [n.spec.host.value];
      }
      assert Certificate(tag.ca, tag.sync, n.name, names) == FreshCertificate(n, tag);
      data := data[TlsCert := Certificate(tag.ca, tag.sync, n.name, names)];
      data := data[TlsKey := PrivateKey(tag.sync)];
    }
    if n.spec.password.Some? && n.spec.password.value != "" {
      data := data[PasswordKey := Text(n.spec.password.value)];
    }
    assert data == CalculateSecret(n, tag).body.data;
    secret := Object(Meta(NotebookLabels(n.name), map[], [], false), SecretBody(data));
    secret := AddOwnerRef(secret, AsOwner(n));
  }

  method BuildTemplate(n: Nb) returns (pod: PodTemplate)
    requires n.spec.flavor.Some? && n.spec.serviceAccount.Some?
    ensures pod == CalculateTemplate(n)
  {
    var args := [StartNotebook, NoToken];
    var env: seq<SecretKeyRef> := [];
    if n.spec.password.Some? && n.spec.password.value != "" {
      env := [SecretKeyRef(ResourceName(n.name), PasswordKey)];
      args := args + [PasswordFromEnv];
    }
    var files: seq<SecretKeyRef> := [];
    if ShouldHaveCerts(n) {
      args := args + [CertFile];
      args := args + [KeyFile];
      files := files + [SecretKeyRef(ResourceName(n.name), TlsCert), SecretKeyRef(ResourceName(n.name), TlsKey)];
    }
    pod := PodTemplate(AddMatchLabels(map[], n.name), n.spec.flavor.value, args, n.spec.packages, env, files,
                       n.spec.gpu, n.spec.serviceAccount.value);
    assert pod.args == CalculateTemplate(n).args;
  }

  method BuildStatefulSet(n: Nb) returns (sts: Object)
    requires n.spec.flavor.Some? && n.spec.serviceAccount.Some?
    ensures sts == CalculateStatefulSet(n)
  {
    var pod := BuildTemplate(n);
    var spec := StatefulSetSpec(1, pod.labels, ResourceName(n.name), pod);
    sts := Object(Meta(NotebookLabels(n.name), map[], [], false), StatefulSetBody(spec, 0));
    sts := AddOwnerRef(sts, AsOwner(n));
  }

  method BuildIngress(n: Nb) returns (ing: Object)
    requires n.spec.host.Some?
    ensures ing == CalculateIngress(n)
  {
    var backend := Backend(ResourceName(n.name), IntPort(PORT));
    if n.spec.ingress.Some? {
      backend := n.spec.ingress.value;
    }
    var annotations := map[IngressClass := "nginx"];
    var tls: Option<IngressTls> := None;
    if ShouldHaveCerts(n) {
      var secretName := "";
      if n.spec.tls.Some? && n.spec.tls.value == Acme {
        secretName := IngressTlsSecretName(n.name);
        annotations := annotations[TlsAcme := "true"];
      } else {
        annotations := annotations[SslPassthrough := "true"];
      }
      tls := Some(IngressTls([n.name + "." + n.spec.host.value], secretName));
      annotations := annotations[BackendProtocol := "HTTPS"];
      annotations := annotations[SslRedirect := "true"];
    }
    ing := Object(Meta(NotebookLabels(n.name), annotations, [], false),
                  IngressBody(n.name + "." + n.spec.host.value, backend, tls));
    ing := AddOwnerRef(ing, AsOwner(n));
  }

  /** DeleteService, DeleteSecret, DeleteStatefulSet and DeleteIngress: one call, by name only. It is the
      whole reconcile closure of an object that should not exist. */
  method DeleteObject(s: Server, kind: Kind, n: Nb, tag: Tag) returns (err: Option<Error>, ghost end: Thread)
    modifies s
    ensures end == RunUntil(Beginning(OwnKey(kind, n.ns, n.name), Discard, Nothing, Erase, old(s.logs), old(s.script)), tag, 3)
    ensures Tracks(s, old(s.logs), OwnKey(kind, n.ns, n.name), end) && end.l.g.err == err
  {
    var key := OwnKey(kind, n.ns, n.name);
    ghost var t0 := Beginning(key, Discard, Nothing, Erase, s.logs, s.script);
    end := AfterErase(t0, tag);
    err := s.Delete(key, false, tag);
  }

  lemma AfterErase(t: Thread, tag: Tag) returns (end: Thread)
    requires Sound(t.l.g) && t.l.g.pc == Erase
    ensures var r := Delete(Now(t), false, tag, Head(t.script));
            end == Moved(t, Return(t.l.g, r.err), r.log) && end == RunUntil(t, tag, 3)
  {
    StepProgress(t.l, Head(t.script), tag);
    end := Advance(t, tag);
  }
}
