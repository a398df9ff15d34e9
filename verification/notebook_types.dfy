/** The Notebook resource: its spec, validation, defaults and owner reference
    (pkg/apis/jupyter/v1/types.go). */
module NotebookTypes {
  import opened Basics

  datatype Tls = SelfSigned | Acme | NoTls | OtherTls(text: string)

  datatype Port = IntPort(number: int) | StrPort(text: string)

  datatype Backend = Backend(service: string, port: Port)

  /** A nil pointer of the source is `None`. */
  datatype NotebookSpec = NotebookSpec(
    flavor: Option<string>,
    gpu: bool,
    host: Option<string>,
    ingress: Option<Backend>,
    packages: seq<string>,
    password: Option<string>,
    serviceAccount: Option<string>,
    tls: Option<Tls>)

  /** A phase the operator never writes, such as the empty string or "Unknown", is an `OtherPhase`. */
  datatype Phase = Pending | Running | Failed | OtherPhase(text: string)

  datatype OwnerRef = OwnerRef(apiVersion: string, kind: string, name: string, uid: string, controller: bool)

  const NOTEBOOK_KIND := "Notebook"
  const API_VERSION := "jupyter.squat.ai/v1"
  const EMPTY_SPEC := NotebookSpec(None, false, None, None, [], None, None, None)

  // ---------- Validation ----------

  predicate IsLowerAlnum(c: char) {
    'a' <= c <= 'z' || '0' <= c <= '9'
  }

  predicate IsAlnum(c: char) {
    IsLowerAlnum(c) || 'A' <= c <= 'Z'
  }

  /** DNS-1123 subdomain: dot-separated labels of lower-case alphanumerics and inner dashes. */
  predicate IsDns1123Subdomain(s: string) {
    && 0 < |s| <= 253
    && IsLowerAlnum(s[0]) && IsLowerAlnum(s[|s| - 1])
    && (forall i :: 0 <= i < |s| ==> IsLowerAlnum(s[i]) || s[i] == '-' || s[i] == '.')
    && (forall i :: 0 < i < |s| - 1 && s[i] == '.' ==> IsLowerAlnum(s[i - 1]) && IsLowerAlnum(s[i + 1]))
  }

  predicate IsPackageName(s: string) {
    s != "" && forall c :: c in s ==> IsAlnum(c) || c == '-' || c == '_'
  }

  predicate IsPackageVersion(s: string) {
    s != "" && forall c :: c in s ==> IsAlnum(c) || c == '.'
  }

  /** strings.Split for a one-character separator: never empty. */
  function Split(s: string, sep: char): (parts: seq<string>)
    ensures |parts| >= 1
  {
    if s == "" then [""]
    else
      var rest := Split(s[1..], sep);
      if s[0] == sep then [""] + rest else [[s[0]] + rest[0]] + rest[1..]
  }

  predicate ValidPackage(p: string) {
    var parts := Split(p, '=');
    |parts| <= 2 && IsPackageName(parts[0]) && (|parts| == 2 ==> IsPackageVersion(parts[1]))
  }

  predicate PortIsEmpty(p: Port) {
    p == StrPort("")
  }

  predicate ValidIngress(b: Backend) {
    (b.service == "") == PortIsEmpty(b.port)
  }

  predicate Valid(s: NotebookSpec) {
    && (s.host.Some? ==> IsDns1123Subdomain(s.host.value))
    && (s.ingress.Some? ==> ValidIngress(s.ingress.value))
    && (forall i :: 0 <= i < |s.packages| ==> ValidPackage(s.packages[i]))
  }

  /** The first complaint of Notebook.Validate, if any. */
  function Validate(s: NotebookSpec): Option<Error> {
    if s.host.Some? && !IsDns1123Subdomain(s.host.value) then Some(Error(Other, InvalidHost))
    else if s.ingress.Some? && !ValidIngress(s.ingress.value) then Some(Error(Other, InvalidIngress))
    else if exists i :: 0 <= i < |s.packages| && !ValidPackage(s.packages[i]) then Some(Error(Other, InvalidPackage))
    else None
  }

  /** Join is the inverse of Split and pins its result down. */
  function Join(parts: seq<string>, sep: char): string
    requires |parts| >= 1
  {
    if |parts| == 1 then parts[0] else parts[0] + [sep] + Join(parts[1..], sep)
  }

  /** Splitting loses nothing, and no part holds the separator. */
  lemma {:induction false} SplitJoin(s: string, sep: char)
    ensures Join(Split(s, sep), sep) == s
    ensures forall i :: 0 <= i < |Split(s, sep)| ==> sep !in Split(s, sep)[i]
  {
    if s != "" {
      SplitJoin(s[1..], sep);
      var rest := Split(s[1..], sep);
      var parts := Split(s, sep);
      if s[0] == sep {
        assert parts[1..] == rest;
      } else {
        assert parts[1..] == rest[1..];
        assert forall i :: 1 <= i < |parts| ==> parts[i] == rest[i];
      }
    }
  }

  /** A text without the separator is one part. */
  lemma {:induction false} SplitWhole(s: string, sep: char)
    requires sep !in s
    ensures Split(s, sep) == [s]
  {
    if s != "" {
      assert s[0] in s;
      SplitWhole(s[1..], sep);
      assert [s[0]] + s[1..] == s;
    }
  }

  /** Two texts around one separator are two parts. */
  lemma {:induction false} SplitPair(a: string, b: string, sep: char)
    requires sep !in a && sep !in b
    ensures Split(a + [sep] + b, sep) == [a, b]
  {
    var s := a + [sep] + b;
    if a == "" {
      assert s[1..] == b;
      SplitWhole(b, sep);
    } else {
      assert a[0] in a;
      assert s[1..] == a[1..] + [sep] + b;
      SplitPair(a[1..], b, sep);
      assert [a[0]] + a[1..] == a;
    }
  }

  ghost predicate NameAndVersion(p: string, i: nat) {
    i < |p| && p[i] == '=' && IsPackageName(p[..i]) && IsPackageVersion(p[i + 1..])
  }

  lemma NameAndVersionIsValid(p: string, i: nat)
    requires NameAndVersion(p, i)
    ensures ValidPackage(p)
  {
    var a, b := p[..i], p[i + 1..];
    assert p == a + ['='] + b;
    SplitPair(a, b, '=');
    assert Split(p, '=') == [a, b];
  }

  lemma ValidPairIsNameAndVersion(p: string)
    requires |Split(p, '=')| == 2 && ValidPackage(p)
    ensures NameAndVersion(p, |Split(p, '=')[0]|)
  {
    SplitJoin(p, '=');
    var a, b := Split(p, '=')[0], Split(p, '=')[1];
    assert p == a + ['='] + b;
    assert p[..|a|] == a && p[|a| + 1..] == b;
  }

  /** A package is accepted exactly when it reads "package" or "package=version". */
  lemma ValidPackageMeans(p: string)
    ensures ValidPackage(p) <==> IsPackageName(p) || exists i :: NameAndVersion(p, i)
  {
    if ValidPackage(p) {
      if |Split(p, '=')| == 2 {
        ValidPairIsNameAndVersion(p);
      } else {
        SplitJoin(p, '=');
      }
    }
    if IsPackageName(p) {
      SplitWhole(p, '=');
    }
    if i: nat :| NameAndVersion(p, i) {
      NameAndVersionIsValid(p, i);
    }
  }

  // ---------- What a valid notebook is ----------

  /** A label of a host name. */
  predicate IsHostLabel(s: string) {
    && s != ""
    && (forall i :: 0 <= i < |s| ==> 'a' <= s[i] <= 'z' || '0' <= s[i] <= '9' || s[i] == '-')
    && s[0] != '-' && s[|s| - 1] != '-'
  }

  /** Labels, separated by dots. */
  ghost predicate IsHostName(s: string) {
    |s| <= 253 && forall i :: 0 <= i < |Split(s, '.')| ==> IsHostLabel(Split(s, '.')[i])
  }

  /** The pattern of IsDns1123Subdomain without the limit on the length. */
  predicate IsDotted(s: string) {
    && s != "" && IsLowerAlnum(s[0]) && IsLowerAlnum(s[|s| - 1])
    && (forall i :: 0 <= i < |s| ==> IsLowerAlnum(s[i]) || s[i] == '-' || s[i] == '.')
    && (forall i :: 0 < i < |s| - 1 && s[i] == '.' ==> IsLowerAlnum(s[i - 1]) && IsLowerAlnum(s[i + 1]))
  }

  lemma OneLabel(s: string)
    requires '.' !in s
    ensures IsDotted(s) <==> IsHostLabel(s)
  {}

  lemma FirstLabelSplits(a: string, rest: string)
    requires '.' !in a && IsDotted(a + ['.'] + rest)
    ensures IsHostLabel(a) && IsDotted(rest)
  {
    var s := a + ['.'] + rest;
    assert s[|a|] == '.';
    assert forall i :: 0 <= i < |a| ==> s[i] == a[i];
    assert forall i :: 0 <= i < |rest| ==> s[|a| + 1 + i] == rest[i];
    assert 0 < |a| && 0 < |rest|;
    assert IsLowerAlnum(s[|a| - 1]) && IsLowerAlnum(s[|a| + 1]);
    assert forall i :: 0 < i < |rest| - 1 && rest[i] == '.' ==> s[|a| + 1 + i] == '.';
  }

  lemma FirstLabelJoins(a: string, rest: string)
    requires '.' !in a && IsHostLabel(a) && IsDotted(rest)
    ensures IsDotted(a + ['.'] + rest)
  {
    var s := a + ['.'] + rest;
    assert forall i :: 0 <= i < |a| ==> s[i] == a[i];
    assert forall i :: 0 <= i < |rest| ==> s[|a| + 1 + i] == rest[i];
    forall i | 0 < i < |s| - 1 && s[i] == '.'
      ensures IsLowerAlnum(s[i - 1]) && IsLowerAlnum(s[i + 1])
    {
      if i > |a| {
        assert rest[i - |a| - 1] == '.';
      }
    }
  }

  lemma {:induction false} AllLabels(parts: seq<string>)
    requires |parts| >= 1 && forall i :: 0 <= i < |parts| ==> '.' !in parts[i]
    ensures IsDotted(Join(parts, '.')) <==> forall i :: 0 <= i < |parts| ==> IsHostLabel(parts[i])
    decreases |parts|
  {
    if |parts| == 1 {
      OneLabel(parts[0]);
    } else {
      AllLabels(parts[1..]);
      var rest := Join(parts[1..], '.');
      if IsDotted(Join(parts, '.')) {
        FirstLabelSplits(parts[0], rest);
      } else if IsHostLabel(parts[0]) && IsDotted(rest) {
        FirstLabelJoins(parts[0], rest);
      }
      assert forall i :: 1 <= i < |parts| ==> parts[i] == parts[1..][i - 1];
    }
  }

  /** The pattern describes dot-separated labels of lower-case letters, digits and inner dashes. */
  lemma SubdomainMeans(s: string)
    ensures IsDns1123Subdomain(s) <==> IsHostName(s)
  {
    SplitJoin(s, '.');
    AllLabels(Split(s, '.'));
    assert IsDns1123Subdomain(s) <==> |s| <= 253 && IsDotted(s);
  }

  predicate IsNameText(s: string) {
    s != "" && forall i :: 0 <= i < |s| ==>
      'a' <= s[i] <= 'z' || 'A' <= s[i] <= 'Z' || '0' <= s[i] <= '9' || s[i] == '-' || s[i] == '_'
  }

  predicate IsVersionText(s: string) {
    s != "" && forall i :: 0 <= i < |s| ==>
      'a' <= s[i] <= 'z' || 'A' <= s[i] <= 'Z' || '0' <= s[i] <= '9' || s[i] == '.'
  }

  lemma SameTexts(s: string)
    ensures IsPackageName(s) <==> IsNameText(s)
    ensures IsPackageVersion(s) <==> IsVersionText(s)
  {
    assert forall i :: 0 <= i < |s| ==> s[i] in s;
  }

  /** "name" or "name=version". */
  ghost predicate ReadsAsPackage(p: string) {
    IsNameText(p) || exists i :: 0 <= i < |p| && p[i] == '=' && IsNameText(p[..i]) && IsVersionText(p[i + 1..])
  }

  lemma PackageReads(p: string)
    ensures ValidPackage(p) <==> ReadsAsPackage(p)
  {
    ValidPackageMeans(p);
    SameTexts(p);
    if i: nat :| NameAndVersion(p, i) {
      SameTexts(p[..i]);
      SameTexts(p[i + 1..]);
    }
    if i :| 0 <= i < |p| && p[i] == '=' && IsNameText(p[..i]) && IsVersionText(p[i + 1..]) {
      SameTexts(p[..i]);
      SameTexts(p[i + 1..]);
      assert NameAndVersion(p, i);
    }
  }

  ghost predicate HostIsGood(s: NotebookSpec) {
    s.host.Some? ==> IsHostName(s.host.value)
  }

  /** Both parts of a backend, or neither. */
  predicate BackendIsGood(s: NotebookSpec) {
    s.ingress.Some? ==>
      var b := s.ingress.value;
      || (b.service == "" && b.port.StrPort? && b.port.text == "")
      || (b.service != "" && (b.port.IntPort? || b.port.text != ""))
  }

  ghost predicate PackagesAreGood(s: NotebookSpec) {
    forall i :: 0 <= i < |s.packages| ==> ReadsAsPackage(s.packages[i])
  }

  /** Validation passes exactly on notebooks whose host, if given, is a host name, whose backend, if given, is
      whole or empty, and whose packages read as they should; and it complains of the first of these. */
  lemma ValidateMeans(s: NotebookSpec)
    ensures Validate(s).None? <==> HostIsGood(s) && BackendIsGood(s) && PackagesAreGood(s)
    ensures Valid(s) <==> Validate(s).None?
    ensures Validate(s).Some? ==>
              Validate(s).value.msg == if !HostIsGood(s) then InvalidHost
                                       else if !BackendIsGood(s) then InvalidIngress else InvalidPackage
  {
    if s.host.Some? {
      SubdomainMeans(s.host.value);
    }
    forall i | 0 <= i < |s.packages|
      ensures ValidPackage(s.packages[i]) <==> ReadsAsPackage(s.packages[i])
    {
      PackageReads(s.packages[i]);
    }
  }

  // ---------- Defaults ----------

  function OrElse<T>(o: Option<T>, d: T): Option<T> {
    if o.Some? then o else Some(d)
  }

  function Defaulted(s: NotebookSpec): NotebookSpec {
    s.(flavor := OrElse(s.flavor, "minimal"),
       host := OrElse(s.host, ""),
       password := OrElse(s.password, ""),
       serviceAccount := OrElse(s.serviceAccount, ""),
       tls := OrElse(s.tls, SelfSigned))
  }

  /** All five fields that the calculators dereference are set. */
  predicate Complete(s: NotebookSpec) {
    s.flavor.Some? && s.host.Some? && s.password.Some? && s.serviceAccount.Some? && s.tls.Some?
  }

  /** What is given stays, and the five missing fields get these values. */
  lemma DefaultsAre(s: NotebookSpec)
    ensures var d := Defaulted(s);
            && d.flavor == (if s.flavor.Some? then s.flavor else Some("minimal"))
            && d.host == (if s.host.Some? then s.host else Some(""))
            && d.password == (if s.password.Some? then s.password else Some(""))
            && d.serviceAccount == (if s.serviceAccount.Some? then s.serviceAccount else Some(""))
            && d.tls == (if s.tls.Some? then s.tls else Some(SelfSigned))
            && d.gpu == s.gpu && d.packages == s.packages && d.ingress == s.ingress
  {}

  /** Defaulting is a no-op exactly on complete specs, so it is idempotent. */
  lemma DefaultedIffComplete(s: NotebookSpec)
    ensures Defaulted(s) == s <==> Complete(s)
    ensures Complete(Defaulted(s)) && Defaulted(Defaulted(s)) == Defaulted(s)
  {}

  /** Validity survives defaulting exactly when a host was given: a missing host becomes "", which is
      not a DNS-1123 subdomain, although a notebook without a host is meant to be allowed. */
  lemma DefaultsKeepValidityIffHostGiven(s: NotebookSpec)
    ensures Valid(Defaulted(s)) <==> Valid(s) && s.host.Some?
  {
    assert Defaulted(s).packages == s.packages && Defaulted(s).ingress == s.ingress;
  }

  /** The smallest notebook that shows it: nothing but a name. */
  lemma HostlessBecomesInvalid()
    ensures Valid(EMPTY_SPEC) && !Valid(Defaulted(EMPTY_SPEC))
  {
    DefaultsKeepValidityIffHostGiven(EMPTY_SPEC);
  }
}
