/** The Notebook struct with its pointers: DeepCopy (pkg/apis/jupyter/v1/zz_generated.deepcopy.go) and
    the methods of pkg/apis/jupyter/v1/types.go that read and write it in place. */
module NotebookHeap {
  import opened Basics
  import opened NotebookTypes
  import opened Kube

  /** What a pointer field points at. */
  class Cell<T> {
    var value: T

    constructor (value: T)
      ensures this.value == value
    {
      this.value := value;
    }
  }

  function Deref<T>(p: Cell?<T>): Option<T>
    reads p
  {
    if p == null then None else Some(p.value)
  }

  method CopyCell<T>(p: Cell?<T>) returns (q: Cell?<T>)
    ensures Deref(q) == Deref(p) && (q != null ==> fresh(q))
  {
    q := null;
    if p != null {
      q := new Cell(p.value);
    }
  }

  method CopyStrings(p: array?<string>) returns (q: array?<string>)
    ensures (q == null) == (p == null)
    ensures p != null ==> fresh(q) && q[..] == p[..]
  {
    q := null;
    if p != null {
      q := new string[p.Length];
      for i := 0 to p.Length
        invariant fresh(q) && q.Length == p.Length && q[..i] == p[..i]
      {
        q[i] := p[i];
      }
    }
  }

  /** The pointer itself, or a new one to the default. */
  method OrNew<T>(p: Cell?<T>, default_: T) returns (q: Cell<T>, made: bool)
    ensures made == (p == null)
    ensures if p == null then fresh(q) && q.value == default_ else q == p
  {
    made := p == null;
    if p == null {
      q := new Cell(default_);
    } else {
      q := p;
    }
  }

  class Notebook {
    var ns: string
    var name: string
    var apiVersion: string
    var kind: string
    var uid: string
    var rv: nat
    /** The storage of ObjectMeta's maps, slices and pointers. */
    var meta: Cell<Meta>
    var phase: Phase
    var flavor: Cell?<string>
    var gpu: bool
    var host: Cell?<string>
    var ingress: Cell?<Backend>
    var packages: array?<string>
    var password: Cell?<string>
    var serviceAccount: Cell?<string>
    var tls: Cell?<Tls>

    /** The struct and everything it points at. */
    ghost function Footprint(): set<object?>
      reads this
    {
      {this, meta, flavor, host, ingress, packages, password, serviceAccount, tls}
    }

    function Spec(): NotebookSpec
      reads Footprint()
    {
      NotebookSpec(Deref(flavor), gpu, Deref(host), Deref(ingress),
                   if packages == null then [] else packages[..],
                   Deref(password), Deref(serviceAccount), Deref(tls))
    }

    function View(): Nb
      reads Footprint()
    {
      Nb(ns, name, apiVersion, kind, uid, rv, meta.value, Spec(), phase)
    }

    /** The fields of `from` with other pointers. */
    constructor With(from: Notebook, meta: Cell<Meta>, flavor: Cell?<string>, host: Cell?<string>, ingress: Cell?<Backend>,
                     packages: array?<string>, password: Cell?<string>, serviceAccount: Cell?<string>, tls: Cell?<Tls>)
      ensures ns == from.ns && name == from.name && apiVersion == from.apiVersion && kind == from.kind
      ensures uid == from.uid && rv == from.rv && this.meta == meta && phase == from.phase && gpu == from.gpu
      ensures this.flavor == flavor && this.host == host && this.ingress == ingress && this.packages == packages
      ensures this.password == password && this.serviceAccount == serviceAccount && this.tls == tls
    {
      ns, name, apiVersion, kind, uid := from.ns, from.name, from.apiVersion, from.kind, from.uid;
      rv, this.meta, phase, gpu := from.rv, meta, from.phase, from.gpu;
      this.flavor, this.host, this.ingress, this.packages := flavor, host, ingress, packages;
      this.password, this.serviceAccount, this.tls := password, serviceAccount, tls;
    }

    /** The struct made for a key without a notebook. */
    constructor Gone(ns: string, name: string, meta: Cell<Meta>)
      requires meta.value == Tombstone(ns, name).meta
      ensures View() == Tombstone(ns, name)
    {
      this.ns, this.name, apiVersion, kind, uid := ns, name, "", "", "";
      rv, this.meta, phase, gpu := 0, meta, OtherPhase(""), false;
      flavor, host, password, serviceAccount := null, null, null, null;
      ingress, tls, packages := null, null, null;
    }

    /** NotebookSpec.DeepCopyInto: new storage behind every pointer of the spec. */
    method CopySpec()
      returns (flavor': Cell?<string>, host': Cell?<string>, ingress': Cell?<Backend>, packages': array?<string>,
               password': Cell?<string>, account': Cell?<string>, tls': Cell?<Tls>)
      ensures Deref(flavor') == Deref(flavor) && (flavor' != null ==> fresh(flavor'))
      ensures Deref(host') == Deref(host) && (host' != null ==> fresh(host'))
      ensures Deref(ingress') == Deref(ingress) && (ingress' != null ==> fresh(ingress'))
      ensures (packages' == null) == (packages == null)
      ensures packages' != null ==> fresh(packages') && packages'[..] == packages[..]
      ensures Deref(password') == Deref(password) && (password' != null ==> fresh(password'))
      ensures Deref(account') == Deref(serviceAccount) && (account' != null ==> fresh(account'))
      ensures Deref(tls') == Deref(tls) && (tls' != null ==> fresh(tls'))
    {
      flavor' := CopyCell(flavor);
      host' := CopyCell(host);
      ingress' := CopyCell(ingress);
      packages' := CopyStrings(packages);
      password' := CopyCell(password);
      account' := CopyCell(serviceAccount);
      tls' := CopyCell(tls);
    }

    /** Equal in content, shared nowhere. */
    method DeepCopy() returns (out: Notebook)
      ensures out.View() == View() && fresh(out) && fresh(out.meta)
      ensures out.flavor != null ==> fresh(out.flavor)
      ensures out.host != null ==> fresh(out.host)
      ensures out.ingress != null ==> fresh(out.ingress)
      ensures out.packages != null ==> fresh(out.packages)
      ensures out.password != null ==> fresh(out.password)
      ensures out.serviceAccount != null ==> fresh(out.serviceAccount)
      ensures out.tls != null ==> fresh(out.tls)
    {
      var flavor', host', ingress', packages', password', account', tls' := CopySpec();
      var meta' := new Cell(meta.value);
      out := new Notebook.With(this, meta', flavor', host', ingress', packages', password', account', tls');
    }

    method Validate() returns (err: Option<Error>)
      ensures err == NotebookTypes.Validate(Spec())
      ensures err.None? <==> Valid(Spec())
    {
      if host != null && !IsDns1123Subdomain(host.value) {
        return Some(Error(Other, InvalidHost));
      }
      if ingress != null && !ValidIngress(ingress.value) {
        return Some(Error(Other, InvalidIngress));
      }
      if packages != null {
        for i := 0 to packages.Length
          invariant forall j :: 0 <= j < i ==> ValidPackage(packages[j])
        {
          if !ValidPackage(packages[i]) {
            assert !ValidPackage(Spec().packages[i]);
            return Some(Error(Other, InvalidPackage));
          }
        }
      }
      err := None;
    }

    method SetDefaults() returns (changed: bool)
      modifies this`flavor, this`host, this`password, this`serviceAccount, this`tls
      ensures Spec() == Defaulted(old(Spec()))
      ensures changed <==> !Complete(old(Spec()))
    {
      var flavor', madeFlavor := OrNew(flavor, "minimal");
      var host', madeHost := OrNew(host, "");
      var password', madePassword := OrNew(password, "");
      var account', madeAccount := OrNew(serviceAccount, "");
      var tls', madeTls := OrNew(tls, SelfSigned);
      flavor, host, password, serviceAccount, tls := flavor', host', password', account', tls';
      assert Spec() == Defaulted(old(Spec()));
      changed := madeFlavor || madeHost || madePassword || madeAccount || madeTls;
    }

    /** The copy as sync goes on with it: defaults set and type information filled in. */
    method Prepare()
      modifies this`flavor, this`host, this`password, this`serviceAccount, this`tls, this`kind, this`apiVersion
      ensures View() == Prepared(old(View()))
    {
      var _ := SetDefaults();
      if kind == "" {
        kind, apiVersion := NOTEBOOK_KIND, API_VERSION;
      }
    }

    method WritePhase(phase: Phase)
      modifies this`phase
      ensures View() == old(View()).(phase := phase)
    {
      this.phase := phase;
    }
  }
}
