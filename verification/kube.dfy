/** The API server as the operator relies on it.

    Every key has an append-only log of versions. A version is an object, or `None` after a deletion,
    together with its author. The current object is the last one, its ResourceVersion is the length of
    the log, and a lister that has seen the first `p` entries answers with entry `p`. A write that would
    change nothing adds no entry, so the version counter is monotone per key and survives deletion. */
module Kube {
  import opened Basics
  import opened NotebookTypes
  import opened Naming

  // ---------- Objects ----------

  datatype Kind = ServiceKind | SecretKind | StatefulSetKind | IngressKind | NotebookKind

  datatype Key = Key(kind: Kind, ns: string, name: string)

  datatype Annotation =
    | TolerateUnreadyEndpoints
    | IngressClass
    | TlsAcme
    | SslPassthrough
    | BackendProtocol
    | SslRedirect
    | OtherAnnotation(text: string)

  datatype Meta = Meta(
    labels: Labels,
    annotations: map<Annotation, string>,
    owners: seq<OwnerRef>,
    terminating: bool)

  /** Contents of a Secret entry. A certificate records the CA that signed it and the signing event;
      a private key records the event it was made in. */
  datatype Bytes =
    | NoBytes
    | Text(text: string)
    | Certificate(ca: nat, serial: nat, commonName: string, dnsNames: seq<string>)
    | PrivateKey(serial: nat)

  /** Keys of a Secret's data: "tls.crt", "tls.key", "password" and others. */
  datatype DataKey = TlsCert | TlsKey | PasswordKey | OtherKey(text: string)

  datatype SecretKeyRef = SecretKeyRef(secret: string, key: DataKey)

  datatype Argument = StartNotebook | NoToken | PasswordFromEnv | CertFile | KeyFile

  /** The parts of the pod that depend on the notebook. `env` and `files` are the Secret entries it reads
      as environment variables and mounts as files. */
  datatype PodTemplate = PodTemplate(
    labels: Labels,
    flavor: string,
    args: seq<Argument>,
    condaPackages: seq<string>,
    env: seq<SecretKeyRef>,
    files: seq<SecretKeyRef>,
    gpu: bool,
    serviceAccount: string)

  datatype StatefulSetSpec = StatefulSetSpec(
    replicas: int,
    selector: Labels,
    serviceName: string,
    template: PodTemplate)

  datatype IngressTls = IngressTls(hosts: seq<string>, secretName: string)

  datatype Body =
    | ServiceBody(port: int, selector: Labels, clusterIP: string)
    | SecretBody(data: map<DataKey, Bytes>)
    | StatefulSetBody(spec: StatefulSetSpec, ready: int)
    | IngressBody(host: string, backend: Backend, tls: Option<IngressTls>)
    | NotebookBody(uid: string, nbspec: NotebookSpec, phase: Phase)

  datatype Object = Object(meta: Meta, body: Body)

  function KindOf(b: Body): Kind {
    match b
    case ServiceBody(_, _, _) => ServiceKind
    case SecretBody(_) => SecretKind
    case StatefulSetBody(_, _) => StatefulSetKind
    case IngressBody(_, _, _) => IngressKind
    case NotebookBody(_, _, _) => NotebookKind
  }

  /** The Notebook struct that one sync works on; `rv` is its ResourceVersion. */
  datatype Nb = Nb(
    ns: string,
    name: string,
    apiVersion: string,
    kind: string,
    uid: string,
    rv: nat,
    meta: Meta,
    spec: NotebookSpec,
    phase: Phase)

  function AsOwner(n: Nb): OwnerRef {
    OwnerRef(n.apiVersion, n.kind, n.name, n.uid, true)
  }

  /** The struct built for a key that the lister no longer knows: a name and a deletion timestamp. */
  function Tombstone(ns: string, name: string): Nb {
    Nb(ns, name, "", "", "", 0, Meta(map[], map[], [], true), EMPTY_SPEC, OtherPhase(""))
  }

  /** The type information a decoded object may lack. */
  function Normalized(n: Nb): Nb {
    if n.kind == "" then n.(kind := NOTEBOOK_KIND, apiVersion := API_VERSION) else n
  }

  function Prepared(c: Nb): Nb {
    Normalized(c.(spec := Defaulted(c.spec)))
  }

  /** The copy that a sync goes on with: missing type information is filled in, and nothing else but the spec
      differs. */
  lemma PreparedMeans(c: Nb)
    ensures var n := Prepared(c);
            && (c.kind == "" ==> n.kind == "Notebook" && n.apiVersion == "jupyter.squat.ai/v1")
            && (c.kind != "" ==> n.kind == c.kind && n.apiVersion == c.apiVersion)
            && n == c.(spec := Defaulted(c.spec), kind := n.kind, apiVersion := n.apiVersion)
  {}

  // ---------- Versions ----------

  /** Identifies a sync: its number, the CA of the controller process it runs in, and its notebook. */
  datatype Tag = Tag(sync: nat, ca: nat, ns: string, name: string)

  /** `base` is the ResourceVersion an update was conditioned on. */
  datatype Verb = Created | Updated(base: nat) | Deleted | StatusSet(base: nat)

  datatype Author = Environment | Operator(tag: Tag, verb: Verb)

  datatype Entry = Entry(obj: Option<Object>, author: Author)

  type Log = seq<Entry>

  function Current(log: Log): Option<Object> {
    if log == [] then None else log[|log| - 1].obj
  }

  /** What a lister that has seen the first `p` entries returns. */
  function Seen(log: Log, p: nat): Option<Object>
    requires p <= |log|
  {
    if p == 0 then None else log[p - 1].obj
  }

  function Append(log: Log, obj: Option<Object>, author: Author): Log {
    if obj == Current(log) then log else log + [Entry(obj, author)]
  }

  type Logs = map<Key, Log>

  function LogOf(logs: Logs, k: Key): Log {
    if k in logs then logs[k] else []
  }

  /** Two clusters that no API call can tell apart. */
  ghost predicate Same(a: Logs, b: Logs) {
    forall k :: LogOf(a, k) == LogOf(b, k)
  }

  // ---------- The adversary ----------

  /** `Dropped`: the call fails and has no effect. `Unanswered`: it takes effect and then fails. */
  datatype Fault = NoFault | Dropped(text: string) | Unanswered(text: string)

  /** Everything outside the operator's control around one of its actions: what others write to the key
      just before it, how far the lister lags, whether the call fails, whether a foreground deletion is
      already complete, whether a polling loop runs out of time, the cluster IP handed out, and (when
      several goroutines run) which one moves. */
  datatype Move = Move(
    env: List<Option<Object>>,
    lag: nat,
    fault: Fault,
    gone: bool,
    timeout: bool,
    ip: string,
    who: nat)

  /** The typed clients: a key holds objects of its own kind only. */
  ghost predicate Typed(kind: Kind, log: Log) {
    forall i :: 0 <= i < |log| && log[i].obj.Some? ==> KindOf(log[i].obj.value.body) == kind
  }

  lemma {:induction false} InterfereTyped(kind: Kind, log: Log, env: List<Option<Object>>)
    requires Typed(kind, log)
    ensures Typed(kind, Interfere(kind, log, env))
    decreases env
  {
    match env
    case Nil =>
    case Cons(o, rest) =>
      var next := if o.Some? && KindOf(o.value.body) != kind then log else Append(log, o, Environment);
      InterfereTyped(kind, next, rest);
  }

  /** Others may write any object of the right kind, or delete the object. */
  function Interfere(kind: Kind, log: Log, env: List<Option<Object>>): (r: Log)
    ensures log <= r
    decreases env
  {
    match env
    case Nil => log
    case Cons(o, rest) =>
      var next := if o.Some? && KindOf(o.value.body) != kind then log else Append(log, o, Environment);
      Interfere(kind, next, rest)
  }

  // ---------- Lister ----------

  datatype Lookup = Found(obj: Object, rv: nat) | Absent | Broken(err: Error)

  function FaultError(f: Fault): Error {
    Error(Other, if f == NoFault then Said("") else Said(f.text))
  }

  function Position(log: Log, lag: nat): (p: nat)
    ensures p <= |log|
  {
    if lag <= |log| then |log| - lag else 0
  }

  function Get(log: Log, mv: Move): Lookup {
    if mv.fault != NoFault then Broken(FaultError(mv.fault))
    else
      var p := Position(log, mv.lag);
      if Seen(log, p).Some? then Found(Seen(log, p).value, p) else Absent
  }

  // ---------- Verbs ----------

  datatype Reply = Reply(log: Log, err: Option<Error>)

  function Acknowledge(log: Log, f: Fault): Reply {
    Reply(log, if f.Unanswered? then Some(FaultError(f)) else None)
  }

  function Refuse(log: Log, r: Reason, msg: Message): Reply {
    Reply(log, Some(Error(r, msg)))
  }

  /** What the server fills in when an object is created. */
  function Admit(o: Object, ip: string): Object {
    var meta := o.meta.(terminating := false);
    match o.body
    case ServiceBody(_, _, c) => Object(meta, o.body.(clusterIP := if c == "" then ip else c))
    case StatefulSetBody(_, _) => Object(meta, o.body.(ready := 0))
    case _ => Object(meta, o.body)
  }

  /** What the server keeps of the stored object when it is updated: the deletion mark, the status,
      and the identity of a notebook. */
  function Merge(o: Object, cur: Object): Object {
    var meta := o.meta.(terminating := cur.meta.terminating);
    match (o.body, cur.body)
    case (StatefulSetBody(_, _), StatefulSetBody(_, r)) => Object(meta, o.body.(ready := r))
    case (NotebookBody(_, s, _), NotebookBody(u, _, p)) => Object(meta, NotebookBody(u, s, p))
    case _ => Object(meta, o.body)
  }

  function Create(log: Log, o: Object, tag: Tag, mv: Move): Reply {
    if mv.fault.Dropped? then Reply(log, Some(FaultError(mv.fault)))
    else if Current(log).Some? then Refuse(log, AlreadyExists, ObjectExists)
    else Acknowledge(log + [Entry(Some(Admit(o, mv.ip)), Operator(tag, Created))], mv.fault)
  }

  function Update(log: Log, o: Object, rv: nat, tag: Tag, mv: Move): Reply {
    if mv.fault.Dropped? then Reply(log, Some(FaultError(mv.fault)))
    else if Current(log).None? then Refuse(log, NotFound, NoSuchObject)
    else if rv != |log| then Refuse(log, Conflict, VersionConflict)
    else Acknowledge(Append(log, Some(Merge(o, Current(log).value)), Operator(tag, Updated(rv))), mv.fault)
  }

  /** The status subresource of a notebook: only the phase is taken from the request. */
  function UpdateStatus(log: Log, phase: Phase, rv: nat, tag: Tag, mv: Move): Reply {
    if mv.fault.Dropped? then Reply(log, Some(FaultError(mv.fault)))
    else if Current(log).None? || !Current(log).value.body.NotebookBody? then Refuse(log, NotFound, NoSuchObject)
    else if rv != |log| then Refuse(log, Conflict, VersionConflict)
    else
      var cur := Current(log).value;
      Acknowledge(Append(log, Some(cur.(body := cur.body.(phase := phase))), Operator(tag, StatusSet(rv))), mv.fault)
  }

  /** Deletion is by name only. A foreground deletion may leave the object marked until its dependents
      are gone. */
  function Delete(log: Log, foreground: bool, tag: Tag, mv: Move): Reply {
    if mv.fault.Dropped? then Reply(log, Some(FaultError(mv.fault)))
    else if Current(log).None? then Refuse(log, NotFound, NoSuchObject)
    else
      var cur := Current(log).value;
      var left := if foreground && !mv.gone then Some(cur.(meta := cur.meta.(terminating := true))) else None;
      Acknowledge(Append(log, left, Operator(tag, Deleted)), mv.fault)
  }
}
