/** Whole friendly syncs, one after the other. */
module Rounds {
  import opened Basics
  import opened NotebookTypes
  import opened Kube
  import opened Calculate
  import opened Goroutine
  import opened Interleaving
  import opened Sync
  import opened System
  import opened Settling
  import opened Quiescence

  function NotebookLog(logs: Logs, tag: Tag): Log {
    LogOf(logs, NotebookKey(tag.ns, tag.name))
  }

  /** The stored notebook. */
  predicate Exists(logs: Logs, tag: Tag) {
    Current(NotebookLog(logs, tag)).Some? && Current(NotebookLog(logs, tag)).value.body.NotebookBody?
  }

  function StoredNotebook(logs: Logs, tag: Tag): Object
    requires Exists(logs, tag)
  {
    Current(NotebookLog(logs, tag)).value
  }

  /** What a fresh lister returns of it. */
  function Fresh(logs: Logs, decoded: bool, tag: Tag): Nb
    requires Exists(logs, tag)
  {
    NotebookStruct(tag.ns, tag.name, decoded, StoredNotebook(logs, tag), |NotebookLog(logs, tag)|)
  }

  /** The copy the goroutines work on. */
  function WorkCopy(found: Listed, tag: Tag): (n: Nb)
    ensures Readable(n)
  {
    if found.Known? then Announced(Prepared(found.n)) else Tombstone(tag.ns, tag.name)
  }

  function FreshListed(logs: Logs, decoded: bool, tag: Tag): Listed {
    ListNotebook(NotebookLog(logs, tag), tag.ns, tag.name, decoded, QUIET)
  }

  /** One sync with a fresh cache, no fault and no interference, whose waits succeed. */
  function Round(logs: Logs, decoded: bool, ip: string, tag: Tag): Outcome {
    var found := FreshListed(logs, decoded, tag);
    SyncOnce(found, logs, Luck(Nil, FriendlyScripts(WorkCopy(found, tag), logs, ip, tag)), tag)
  }

  /** The lister of the machine, when it is fresh, gives just this copy. */
  lemma FreshIsListed(logs: Logs, decoded: bool, tag: Tag)
    requires Exists(logs, tag)
    ensures FreshListed(logs, decoded, tag) == Known(Fresh(logs, decoded, tag))
  {}

  // ---------- Calls on the notebook with a fresh copy ----------

  lemma FreshStatus(log: Log, phase: Phase, tag: Tag)
    requires Current(log).Some? && Current(log).value.body.NotebookBody?
    ensures var o := Current(log).value;
            var after := o.(body := o.body.(phase := phase));
            var r := StatusCall(log, |log|, phase, QUIET, tag);
            r.err.None? && r.log == Append(log, Some(after), Operator(tag, StatusSet(|log|))) && Current(r.log) == Some(after)
  {}

  lemma StaleStatus(log: Log, rv: nat, phase: Phase, tag: Tag)
    requires rv != |log|
    ensures StatusCall(log, rv, phase, QUIET, tag).log == log
  {}

  lemma FreshSpec(logs: Logs, decoded: bool, tag: Tag)
    requires Exists(logs, tag)
    ensures var o := StoredNotebook(logs, tag);
            var log := NotebookLog(logs, tag);
            var after := o.(body := o.body.(nbspec := Defaulted(o.body.nbspec)));
            var r := SpecCall(log, Prepared(Fresh(logs, decoded, tag)), QUIET, tag);
            r.err.None? && Current(r.log) == Some(after)
  {}

  /** Which fields of the notebook the resources depend on. */
  predicate SameAsk(a: Nb, b: Nb) {
    a == b.(rv := a.rv, phase := a.phase)
  }

  /** Settled for one sync is settled for any other of the same CA lifetime: the fresh certificate that
      each sync signs does not matter once one of this CA is stored. */
  lemma SettledForAll(a: Nb, b: Nb, logs: Logs, s: Tag, t: Tag)
    requires Readable(a) && Readable(b) && SameAsk(a, b) && s.ca == t.ca && AllSettled(a, logs, s)
    ensures AllSettled(b, logs, t)
  {
    if SecretShouldExist(a) {
      SecretSettledForAll(a, b, Current(LogOf(logs, OwnKey(SecretKind, a.ns, a.name))).value, s, t);
    }
  }

  /** Two notebooks that ask for the same Secret, up to the names in its certificate. */
  predicate SameSecret(a: Nb, b: Nb) {
    && MetaFor(a, map[]) == MetaFor(b, map[])
    && a.spec.password == b.spec.password && ShouldHaveCerts(a) == ShouldHaveCerts(b)
  }

  lemma SecretSettledForAll(a: Nb, b: Nb, o: Object, s: Tag, t: Tag)
    requires SameSecret(a, b) && s.ca == t.ca && Matches(CalculateSecret(a, s), o, s.ca)
    ensures Matches(CalculateSecret(b, t), o, t.ca)
  {
    if o.body.SecretBody? {
      var made, made' := CalculateSecret(a, s).body.data, CalculateSecret(b, t).body.data;
      assert o.body.data == KeepCertificate(made, o.body.data, s.ca);
      assert KeepCertificate(made', o.body.data, t.ca) == o.body.data;
    }
  }

  // ---------- Writes to the notebook leave the zones alone ----------

  lemma NotebookOutside(n: Nb, tag: Tag)
    requires Readable(n)
    ensures Outside(n, tag, NotebookKey(tag.ns, tag.name))
  {}

  ghost predicate OnlyNotebookDiffers(a: Logs, b: Logs, tag: Tag) {
    forall k :: k != NotebookKey(tag.ns, tag.name) ==> LogOf(a, k) == LogOf(b, k)
  }

  lemma ZoneIgnoresNotebook(n: Nb, kind: Kind, a: Logs, b: Logs, tag: Tag)
    requires Readable(n) && kind != NotebookKind && OnlyNotebookDiffers(a, b, tag)
    ensures StartOf(n, kind, a, tag) == StartOf(n, kind, b, tag)
    ensures OpenName(n, kind, a) == OpenName(n, kind, b)
    ensures ZoneSettled(n, kind, a, tag) == ZoneSettled(n, kind, b, tag)
  {
    var g := ReconcilerFor(n, kind, tag);
    assert g.key.kind != NotebookKind && (g.waits.ForSecret? ==> g.waits.key.kind != NotebookKind);
  }

  lemma ZonesIgnoreNotebook(n: Nb, a: Logs, b: Logs, tag: Tag)
    requires Readable(n) && OnlyNotebookDiffers(a, b, tag)
    ensures AllOpen(n, a) == AllOpen(n, b)
    ensures AllSettled(n, a, tag) == AllSettled(n, b, tag)
  {
    ZoneIgnoresNotebook(n, ServiceKind, a, b, tag);
    ZoneIgnoresNotebook(n, SecretKind, a, b, tag);
    ZoneIgnoresNotebook(n, StatefulSetKind, a, b, tag);
    ZoneIgnoresNotebook(n, IngressKind, a, b, tag);
  }

  lemma ScriptsIgnoreNotebook(n: Nb, a: Logs, b: Logs, ip: string, tag: Tag)
    requires Readable(n) && OnlyNotebookDiffers(a, b, tag)
    ensures FriendlyScripts(n, a, ip, tag) == FriendlyScripts(n, b, ip, tag)
  {
    forall i | 0 <= i < 4
      ensures FriendlyScripts(n, a, ip, tag)[i] == FriendlyScripts(n, b, ip, tag)[i]
    {
      ZoneIgnoresNotebook(n, KINDS[i], a, b, tag);
    }
  }

  lemma SettledZoneIsOpen(n: Nb, kind: Kind, logs: Logs, tag: Tag)
    requires Readable(n) && kind in KINDS && ZoneSettled(n, kind, logs, tag)
    ensures OpenName(n, kind, logs)
  {
    if Wanted(n, kind, tag).Some? {
      CalculatedWellmade(n, kind, tag);
    }
  }

  lemma SettledIsOpen(n: Nb, logs: Logs, tag: Tag)
    requires Readable(n) && AllSettled(n, logs, tag)
    ensures AllOpen(n, logs)
  {
    SettledZoneIsOpen(n, ServiceKind, logs, tag);
    SettledZoneIsOpen(n, SecretKind, logs, tag);
    SettledZoneIsOpen(n, StatefulSetKind, logs, tag);
    SettledZoneIsOpen(n, IngressKind, logs, tag);
  }

  // ---------- Rounds ----------

  /** What the stored notebook wants can be had. */
  predicate IsOpen(logs: Logs, decoded: bool, tag: Tag)
    requires Exists(logs, tag)
  {
    AllOpen(Prepared(Fresh(logs, decoded, tag)), logs)
  }

  predicate SpecIs(logs: Logs, tag: Tag, complete: bool) {
    Exists(logs, tag)
    && Valid(StoredNotebook(logs, tag).body.nbspec) && StoredNotebook(logs, tag).body.nbspec.host.Some?
    && (complete ==> Complete(StoredNotebook(logs, tag).body.nbspec))
  }

  /** A sync of a notebook that lacks defaults does nothing but set them. */
  lemma DefaultsSync(logs: Logs, decoded: bool, luck: Luck, tag: Tag)
    requires SpecIs(logs, tag, false) && !Complete(StoredNotebook(logs, tag).body.nbspec)
    requires luck.main == Nil && |luck.scripts| == 4
    ensures var r := SyncOnce(Known(Fresh(logs, decoded, tag)), logs, luck, tag);
            var o := StoredNotebook(logs, tag);
            && r.err.None? && SpecIs(r.logs, tag, true) && OnlyNotebookDiffers(logs, r.logs, tag)
            && StoredNotebook(r.logs, tag) == o.(body := o.body.(nbspec := Defaulted(o.body.nbspec)))
  {
    FreshSpec(logs, decoded, tag);
    var spec := StoredNotebook(logs, tag).body.nbspec;
    DefaultedIffComplete(spec);
    DefaultsKeepValidityIffHostGiven(spec);
  }

  lemma DefaultsRound(logs: Logs, decoded: bool, ip: string, tag: Tag)
    requires SpecIs(logs, tag, false) && !Complete(StoredNotebook(logs, tag).body.nbspec)
    ensures var r := Round(logs, decoded, ip, tag);
            var o := StoredNotebook(logs, tag);
            && r.err.None? && SpecIs(r.logs, tag, true) && OnlyNotebookDiffers(logs, r.logs, tag)
            && StoredNotebook(r.logs, tag) == o.(body := o.body.(nbspec := Defaulted(o.body.nbspec)))
  {
    FreshIsListed(logs, decoded, tag);
    var scripts := FriendlyScripts(Announced(Prepared(Fresh(logs, decoded, tag))), logs, ip, tag);
    DefaultsSync(logs, decoded, Luck(Nil, scripts), tag);
  }

  /** The phase after a round whose reconcile ended with `err`. A sync that has announced itself cannot write
      its final phase: the ResourceVersion of its copy is used up. */
  function PhaseAfter(p: Phase, err: Option<Error>): Phase {
    if p == Running || p == Failed || p == Pending then FinalPhase(err) else Pending
  }

  /** The phase after a successful round: Running is reached only by a sync that need not announce itself. */
  function NextPhase(p: Phase): Phase {
    PhaseAfter(p, None)
  }

  /** The phase writes of a live round around a reconcile that leaves the notebook alone. */
  lemma LivePhases(n0: Nb, logs: Logs, r: Outcome, tag: Tag)
    requires Exists(logs, tag) && n0.rv == |NotebookLog(logs, tag)| && n0.phase == StoredNotebook(logs, tag).body.phase
    requires var w := SetPhase(logs, Nil, n0.rv, n0.phase, Announced(n0).phase, tag);
             NotebookLog(r.logs, tag) == NotebookLog(w.logs, tag) && w.main == Nil
    ensures var after := Ending(Announced(n0), r, Nil, tag).logs;
            var o := StoredNotebook(logs, tag);
            && Exists(after, tag) && OnlyNotebookDiffers(r.logs, after, tag)
            && StoredNotebook(after, tag) == o.(body := o.body.(phase := PhaseAfter(o.body.phase, r.err)))
            && (o.body.phase == FinalPhase(r.err) ==> after == r.logs)
  {
    var log := NotebookLog(logs, tag);
    FreshStatus(log, Pending, tag);
    if n0.phase != Running && n0.phase != Failed && n0.phase != Pending {
      StaleStatus(NotebookLog(r.logs, tag), n0.rv, FinalPhase(r.err), tag);
    } else {
      FreshStatus(log, FinalPhase(r.err), tag);
    }
  }

  lemma RoundIsLive(logs: Logs, decoded: bool, ip: string, tag: Tag)
    requires SpecIs(logs, tag, true)
    ensures var n0 := Prepared(Fresh(logs, decoded, tag));
            Round(logs, decoded, ip, tag)
            == Live(n0, logs, Luck(Nil, FriendlyScripts(Announced(n0), logs, ip, tag)), tag)
  {
    FreshIsListed(logs, decoded, tag);
    DefaultedIffComplete(StoredNotebook(logs, tag).body.nbspec);
  }

  /** The reconcile inside a live round, which never touches the notebook. */
  lemma LiveReconcile(n: Nb, logs: Logs, before: Logs, ip: string, tag: Tag)
    requires Readable(n) && n.ns == tag.ns && n.name == tag.name
    requires OnlyNotebookDiffers(before, logs, tag) && AllOpen(n, before)
    ensures var r := Reconciled(n, logs, FriendlyScripts(n, before, ip, tag), tag);
            && r.err.None? && AllSettled(n, r.logs, tag) && NotebookLog(r.logs, tag) == NotebookLog(logs, tag)
            && (AllSettled(n, before, tag) ==> Same(r.logs, logs))
  {
    ScriptsIgnoreNotebook(n, before, logs, ip, tag);
    ZonesIgnoreNotebook(n, before, logs, tag);
    FriendlyReconcile(n, logs, ip, tag);
    NotebookOutside(n, tag);
    ReconciledElsewhere(n, logs, FriendlyScripts(n, logs, ip, tag), tag, NotebookKey(tag.ns, tag.name));
  }

  /** A sync of a complete notebook settles its resources and moves its phase on; if there was nothing to
      do, it does nothing. */
  lemma LiveSync(logs: Logs, decoded: bool, ip: string, tag: Tag)
    requires SpecIs(logs, tag, true) && IsOpen(logs, decoded, tag)
    ensures var n0 := Prepared(Fresh(logs, decoded, tag));
            var r := Live(n0, logs, Luck(Nil, FriendlyScripts(Announced(n0), logs, ip, tag)), tag);
            var o := StoredNotebook(logs, tag);
            && r.err.None? && SpecIs(r.logs, tag, true)
            && StoredNotebook(r.logs, tag) == o.(body := o.body.(phase := NextPhase(o.body.phase)))
            && AllSettled(Prepared(Fresh(r.logs, decoded, tag)), r.logs, tag)
            && (o.body.phase == Running && AllSettled(n0, logs, tag) ==> Same(r.logs, logs))
  {
    var n0 := Prepared(Fresh(logs, decoded, tag));
    var n := Announced(n0);
    var w := SetPhase(logs, Nil, n0.rv, n0.phase, n.phase, tag);
    LiveReconcile(n, w.logs, logs, ip, tag);
    var r := Reconciled(n, w.logs, FriendlyScripts(n, logs, ip, tag), tag);
    LivePhases(n0, logs, r, tag);
    var after := Ending(n, r, Nil, tag).logs;
    ZonesIgnoreNotebook(n, r.logs, after, tag);
    AfterIsSettled(n, logs, after, decoded, tag);
  }

  lemma LiveRound(logs: Logs, decoded: bool, ip: string, tag: Tag)
    requires SpecIs(logs, tag, true) && IsOpen(logs, decoded, tag)
    ensures var r := Round(logs, decoded, ip, tag);
            var o := StoredNotebook(logs, tag);
            && r.err.None? && SpecIs(r.logs, tag, true)
            && StoredNotebook(r.logs, tag) == o.(body := o.body.(phase := NextPhase(o.body.phase)))
            && AllSettled(Prepared(Fresh(r.logs, decoded, tag)), r.logs, tag)
            && (o.body.phase == Running && AllSettled(Prepared(Fresh(logs, decoded, tag)), logs, tag) ==> Same(r.logs, logs))
  {
    RoundIsLive(logs, decoded, ip, tag);
    LiveSync(logs, decoded, ip, tag);
  }

  lemma AfterIsSettled(n: Nb, logs: Logs, after: Logs, decoded: bool, tag: Tag)
    requires SpecIs(logs, tag, true) && SpecIs(after, tag, true) && Readable(n) && AllSettled(n, after, tag)
    requires n == Announced(Prepared(Fresh(logs, decoded, tag)))
    requires StoredNotebook(after, tag).meta == StoredNotebook(logs, tag).meta
    requires StoredNotebook(after, tag).body.uid == StoredNotebook(logs, tag).body.uid
    requires StoredNotebook(after, tag).body.nbspec == StoredNotebook(logs, tag).body.nbspec
    ensures AllSettled(Prepared(Fresh(after, decoded, tag)), after, tag)
  {
    SettledForAll(n, Prepared(Fresh(after, decoded, tag)), after, tag, tag);
  }

  // ---------- Quiescence ----------

  /** Everything is as desired and says so. */
  predicate AtRest(logs: Logs, decoded: bool, tag: Tag) {
    && SpecIs(logs, tag, true)
    && StoredNotebook(logs, tag).body.phase == Running
    && AllSettled(Prepared(Fresh(logs, decoded, tag)), logs, tag)
  }

  predicate SameSubject(s: Tag, t: Tag) {
    s.ns == t.ns && s.name == t.name && s.ca == t.ca
  }

  /** A system at rest stays at rest: any further sync of this CA lifetime writes nothing. */
  lemma RestIsStable(logs: Logs, decoded: bool, ip: string, s: Tag, t: Tag)
    requires AtRest(logs, decoded, s) && SameSubject(s, t)
    ensures var r := Round(logs, decoded, ip, t);
            r.err.None? && Same(r.logs, logs) && AtRest(logs, decoded, t)
  {
    var n := Prepared(Fresh(logs, decoded, s));
    assert n == Prepared(Fresh(logs, decoded, t));
    SettledForAll(n, n, logs, s, t);
    SettledIsOpen(n, logs, t);
    LiveRound(logs, decoded, ip, t);
  }

  /** How far a cluster is from rest: whether defaults are missing, how many resources are not as desired,
      and how far the phase is from Running. */
  datatype Distance = Distance(missing: nat, unsettled: nat, phase: nat)

  function Count(settled: bool): nat {
    if settled then 0 else 1
  }

  function Unsettled(n: Nb, logs: Logs, tag: Tag): (c: nat)
    requires Readable(n)
    ensures c == 0 <==> AllSettled(n, logs, tag)
  {
    Count(ZoneSettled(n, ServiceKind, logs, tag)) + Count(ZoneSettled(n, SecretKind, logs, tag))
    + Count(ZoneSettled(n, StatefulSetKind, logs, tag)) + Count(ZoneSettled(n, IngressKind, logs, tag))
  }

  function PhaseDistance(p: Phase): nat {
    match p
    case Running => 0
    case Pending => 1
    case Failed => 1
    case OtherPhase(_) => 2
  }

  function DistanceOf(logs: Logs, decoded: bool, tag: Tag): Distance
    requires Exists(logs, tag)
  {
    Distance(Count(Complete(StoredNotebook(logs, tag).body.nbspec)),
             Unsettled(Prepared(Fresh(logs, decoded, tag)), logs, tag),
             PhaseDistance(StoredNotebook(logs, tag).body.phase))
  }

  predicate Nearer(a: Distance, b: Distance) {
    || a.missing < b.missing
    || (a.missing == b.missing && a.unsettled < b.unsettled)
    || (a.missing == b.missing && a.unsettled == b.unsettled && a.phase < b.phase)
  }

  /** The state after one sync for each tag. */
  function AfterRounds(logs: Logs, decoded: bool, ip: string, tags: seq<Tag>): Logs
    decreases |tags|
  {
    if tags == [] then logs
    else Round(AfterRounds(logs, decoded, ip, tags[..|tags| - 1]), decoded, ip, tags[|tags| - 1]).logs
  }

  predicate SameSubjects(tags: seq<Tag>) {
    forall i :: 0 <= i < |tags| ==> SameSubject(tags[0], tags[i])
  }

  lemma RestForAll(a: Logs, b: Logs, decoded: bool, tag: Tag)
    requires Same(a, b) && AtRest(b, decoded, tag)
    ensures AtRest(a, decoded, tag)
  {
    assert OnlyNotebookDiffers(a, b, tag) && NotebookLog(a, tag) == NotebookLog(b, tag);
    ZonesIgnoreNotebook(Prepared(Fresh(a, decoded, tag)), a, b, tag);
  }

  /** Rest lasts. */
  lemma {:induction false} RestLasts(logs: Logs, decoded: bool, ip: string, tag: Tag, tags: seq<Tag>)
    requires AtRest(logs, decoded, tag) && forall i :: 0 <= i < |tags| ==> SameSubject(tag, tags[i])
    ensures var rest := AfterRounds(logs, decoded, ip, tags); Same(rest, logs) && AtRest(rest, decoded, tag)
    decreases |tags|
  {
    if tags != [] {
      var before, last := tags[..|tags| - 1], tags[|tags| - 1];
      RestLasts(logs, decoded, ip, tag, before);
      RestIsStable(AfterRounds(logs, decoded, ip, before), decoded, ip, tag, last);
      RestForAll(AfterRounds(logs, decoded, ip, tags), logs, decoded, tag);
    }
  }

  /** A valid notebook that gives a host, and whose objects' names are free or managed. */
  predicate OnTrack(logs: Logs, decoded: bool, tag: Tag) {
    SpecIs(logs, tag, false) && IsOpen(logs, decoded, tag)
  }

  lemma StillOpen(logs: Logs, after: Logs, decoded: bool, tag: Tag)
    requires Exists(logs, tag) && Exists(after, tag) && OnlyNotebookDiffers(logs, after, tag)
    requires SameAsk(Prepared(Fresh(logs, decoded, tag)), Prepared(Fresh(after, decoded, tag)))
    ensures IsOpen(after, decoded, tag) == IsOpen(logs, decoded, tag)
    ensures AllSettled(Prepared(Fresh(after, decoded, tag)), after, tag)
         == AllSettled(Prepared(Fresh(logs, decoded, tag)), logs, tag)
  {
    var n, m := Prepared(Fresh(logs, decoded, tag)), Prepared(Fresh(after, decoded, tag));
    ZonesIgnoreNotebook(n, logs, after, tag);
    if AllSettled(n, after, tag) {
      SettledForAll(n, m, after, tag, tag);
    }
    if AllSettled(m, after, tag) {
      SettledForAll(m, n, after, tag, tag);
    }
  }

  lemma DefaultsKeepTrack(logs: Logs, decoded: bool, ip: string, tag: Tag)
    requires OnTrack(logs, decoded, tag) && !Complete(StoredNotebook(logs, tag).body.nbspec)
    ensures var after := Round(logs, decoded, ip, tag).logs;
            && OnTrack(after, decoded, tag) && !Same(after, logs)
            && SpecIs(after, tag, true)
            && StoredNotebook(after, tag).body.phase == StoredNotebook(logs, tag).body.phase
            && (AllSettled(Prepared(Fresh(after, decoded, tag)), after, tag)
                <==> AllSettled(Prepared(Fresh(logs, decoded, tag)), logs, tag))
  {
    DefaultsRound(logs, decoded, ip, tag);
    var after := Round(logs, decoded, ip, tag).logs;
    StillOpen(logs, after, decoded, tag);
    assert NotebookLog(after, tag) != NotebookLog(logs, tag);
  }

  lemma LiveKeepsTrack(logs: Logs, decoded: bool, ip: string, tag: Tag)
    requires OnTrack(logs, decoded, tag) && Complete(StoredNotebook(logs, tag).body.nbspec)
    ensures var after := Round(logs, decoded, ip, tag).logs;
            && OnTrack(after, decoded, tag) && SpecIs(after, tag, true)
            && StoredNotebook(after, tag).body.phase == NextPhase(StoredNotebook(logs, tag).body.phase)
            && AllSettled(Prepared(Fresh(after, decoded, tag)), after, tag)
            && (Same(after, logs) <==> AtRest(logs, decoded, tag))
  {
    LiveRound(logs, decoded, ip, tag);
    var after := Round(logs, decoded, ip, tag).logs;
    SettledIsOpen(Prepared(Fresh(after, decoded, tag)), after, tag);
    if Same(after, logs) {
      assert NotebookLog(after, tag) == NotebookLog(logs, tag);
      RestForAll(logs, after, decoded, tag);
    }
  }

  /** A sync changes nothing exactly at rest; otherwise it raises an event, which brings the next one, and it
      brings the cluster nearer to rest, in a lexicographic order. */
  lemma EverySyncGetsNearer(logs: Logs, decoded: bool, ip: string, tag: Tag)
    requires SpecIs(logs, tag, false) && IsOpen(logs, decoded, tag)
    ensures var after := Round(logs, decoded, ip, tag).logs;
            && Exists(after, tag)
            && (Same(after, logs) <==> AtRest(logs, decoded, tag))
            && (Same(after, logs) || Nearer(DistanceOf(after, decoded, tag), DistanceOf(logs, decoded, tag)))
    ensures AtRest(logs, decoded, tag) <==> DistanceOf(logs, decoded, tag) == Distance(0, 0, 0)
  {
    if Complete(StoredNotebook(logs, tag).body.nbspec) {
      LiveKeepsTrack(logs, decoded, ip, tag);
    } else {
      DefaultsKeepTrack(logs, decoded, ip, tag);
    }
  }

  // ---------- Exactly when ----------

  /** How many syncs it takes to come to rest: one if defaults are missing; one if the notebook is Pending or
      Failed, or Running with resources that are not as desired; two if it has never been announced. */
  function Needed(logs: Logs, decoded: bool, tag: Tag): (c: nat)
    requires Exists(logs, tag)
    ensures c <= 3
  {
    Count(Complete(StoredNotebook(logs, tag).body.nbspec))
    + match StoredNotebook(logs, tag).body.phase
      case Running => Count(AllSettled(Prepared(Fresh(logs, decoded, tag)), logs, tag))
      case Pending => 1
      case Failed => 1
      case OtherPhase(_) => 2
  }

  function Less(a: nat, b: nat): nat {
    if a >= b then a - b else 0
  }

  lemma NeededFalls(logs: Logs, decoded: bool, ip: string, tag: Tag)
    requires OnTrack(logs, decoded, tag)
    ensures var after := Round(logs, decoded, ip, tag).logs;
            OnTrack(after, decoded, tag) && Needed(after, decoded, tag) == Less(Needed(logs, decoded, tag), 1)
  {
    if Complete(StoredNotebook(logs, tag).body.nbspec) {
      LiveKeepsTrack(logs, decoded, ip, tag);
    } else {
      DefaultsKeepTrack(logs, decoded, ip, tag);
    }
  }

  lemma SettledForTags(n: Nb, logs: Logs, s: Tag, t: Tag)
    requires Readable(n) && s.ca == t.ca
    ensures AllSettled(n, logs, s) == AllSettled(n, logs, t)
  {
    if AllSettled(n, logs, s) {
      SettledForAll(n, n, logs, s, t);
    }
    if AllSettled(n, logs, t) {
      SettledForAll(n, n, logs, t, s);
    }
  }

  lemma NeededForAll(logs: Logs, decoded: bool, s: Tag, t: Tag)
    requires OnTrack(logs, decoded, s) && SameSubject(s, t)
    ensures OnTrack(logs, decoded, t) && Needed(logs, decoded, t) == Needed(logs, decoded, s)
  {
    SettledForTags(Prepared(Fresh(logs, decoded, s)), logs, s, t);
    assert StoredNotebook(logs, s) == StoredNotebook(logs, t);
  }

  lemma {:induction false} NeededAfter(logs: Logs, decoded: bool, ip: string, tag: Tag, tags: seq<Tag>)
    requires OnTrack(logs, decoded, tag) && forall i :: 0 <= i < |tags| ==> SameSubject(tag, tags[i])
    ensures var after := AfterRounds(logs, decoded, ip, tags);
            OnTrack(after, decoded, tag) && Needed(after, decoded, tag) == Less(Needed(logs, decoded, tag), |tags|)
    decreases |tags|
  {
    if tags != [] {
      var before, last := tags[..|tags| - 1], tags[|tags| - 1];
      var mid := AfterRounds(logs, decoded, ip, before);
      NeededAfter(logs, decoded, ip, tag, before);
      NeededForAll(mid, decoded, tag, last);
      NeededFalls(mid, decoded, ip, last);
      NeededForAll(AfterRounds(logs, decoded, ip, tags), decoded, last, tag);
    }
  }

  lemma RestNeedsNothing(logs: Logs, decoded: bool, tag: Tag)
    requires OnTrack(logs, decoded, tag)
    ensures AtRest(logs, decoded, tag) <==> Needed(logs, decoded, tag) == 0
  {}

  /** From any state with a valid notebook that gives a host, whose objects' names are free or managed, the
      loop comes to rest after exactly the needed number of syncs, whatever was stored before, and stays so. */
  lemma QuiescentExactlyAfter(logs: Logs, decoded: bool, ip: string, tag: Tag, tags: seq<Tag>)
    requires OnTrack(logs, decoded, tag) && forall i :: 0 <= i < |tags| ==> SameSubject(tag, tags[i])
    ensures AtRest(AfterRounds(logs, decoded, ip, tags), decoded, tag) <==> |tags| >= Needed(logs, decoded, tag)
  {
    NeededAfter(logs, decoded, ip, tag, tags);
    RestNeedsNothing(AfterRounds(logs, decoded, ip, tags), decoded, tag);
  }

  /** Three syncs are always enough: one may be spent on the defaults, one more on announcing Pending. */
  lemma QuiescentAfterThree(logs: Logs, decoded: bool, ip: string, tags: seq<Tag>)
    requires tags != [] && SameSubjects(tags)
    requires SpecIs(logs, tags[0], false) && IsOpen(logs, decoded, tags[0])
    ensures OnTrack(AfterRounds(logs, decoded, ip, tags), decoded, tags[0])
    ensures |tags| >= 3 ==> AtRest(AfterRounds(logs, decoded, ip, tags), decoded, tags[0])
  {
    NeededAfter(logs, decoded, ip, tags[0], tags);
    QuiescentExactlyAfter(logs, decoded, ip, tags[0], tags);
  }

  lemma NewNeedsThree(logs: Logs, decoded: bool, tag: Tag)
    requires Exists(logs, tag) && StoredNotebook(logs, tag).body.phase.OtherPhase?
    ensures Needed(logs, decoded, tag) == if Complete(StoredNotebook(logs, tag).body.nbspec) then 2 else 3
  {}

  /** ... and a new notebook that lacks defaults is not at rest after one sync, nor after two. */
  lemma TwoDoNotSuffice(logs: Logs, decoded: bool, ip: string, tags: seq<Tag>)
    requires tags != [] && SameSubjects(tags) && |tags| <= 2 && OnTrack(logs, decoded, tags[0])
    requires !Complete(StoredNotebook(logs, tags[0]).body.nbspec)
    requires StoredNotebook(logs, tags[0]).body.phase.OtherPhase?
    ensures !AtRest(AfterRounds(logs, decoded, ip, tags), decoded, tags[0])
  {
    NewNeedsThree(logs, decoded, tags[0]);
    QuiescentExactlyAfter(logs, decoded, ip, tags[0], tags);
  }

  // ---------- Notebooks without a host ----------

  /** A sync of an invalid notebook only marks it Failed, whatever luck its goroutines would have had. */
  lemma RejectingSync(logs: Logs, decoded: bool, luck: Luck, tag: Tag)
    requires Exists(logs, tag) && !Valid(StoredNotebook(logs, tag).body.nbspec)
    requires luck.main == Nil && |luck.scripts| == 4
    ensures var r := SyncOnce(Known(Fresh(logs, decoded, tag)), logs, luck, tag);
            var o := StoredNotebook(logs, tag);
            && r.err.Some? && Exists(r.logs, tag) && OnlyNotebookDiffers(logs, r.logs, tag)
            && StoredNotebook(r.logs, tag) == o.(body := o.body.(phase := Failed))
            && (o.body.phase == Failed ==> r.logs == logs)
  {
    FreshStatus(NotebookLog(logs, tag), Failed, tag);
  }

  lemma FailingRound(logs: Logs, decoded: bool, ip: string, tag: Tag)
    requires Exists(logs, tag) && !Valid(StoredNotebook(logs, tag).body.nbspec)
    ensures var r := Round(logs, decoded, ip, tag);
            var o := StoredNotebook(logs, tag);
            && r.err.Some? && Exists(r.logs, tag) && OnlyNotebookDiffers(logs, r.logs, tag)
            && StoredNotebook(r.logs, tag) == o.(body := o.body.(phase := Failed))
            && (o.body.phase == Failed ==> r.logs == logs)
  {
    FreshIsListed(logs, decoded, tag);
    var scripts := FriendlyScripts(Announced(Prepared(Fresh(logs, decoded, tag))), logs, ip, tag);
    RejectingSync(logs, decoded, Luck(Nil, scripts), tag);
  }

  /** A sync of a valid notebook without a host sets the empty host. */
  lemma HostlessSync(logs: Logs, decoded: bool, luck: Luck, tag: Tag)
    requires Exists(logs, tag) && luck.main == Nil && |luck.scripts| == 4
    requires Valid(StoredNotebook(logs, tag).body.nbspec) && StoredNotebook(logs, tag).body.nbspec.host.None?
    ensures var r := SyncOnce(Known(Fresh(logs, decoded, tag)), logs, luck, tag);
            && r.err.None? && Exists(r.logs, tag) && OnlyNotebookDiffers(logs, r.logs, tag)
            && !Valid(StoredNotebook(r.logs, tag).body.nbspec)
  {
    FreshSpec(logs, decoded, tag);
    DefaultsKeepValidityIffHostGiven(StoredNotebook(logs, tag).body.nbspec);
  }

  lemma HostlessRound(logs: Logs, decoded: bool, ip: string, tag: Tag)
    requires Exists(logs, tag)
    requires Valid(StoredNotebook(logs, tag).body.nbspec) && StoredNotebook(logs, tag).body.nbspec.host.None?
    ensures var r := Round(logs, decoded, ip, tag);
            && r.err.None? && Exists(r.logs, tag) && OnlyNotebookDiffers(logs, r.logs, tag)
            && !Valid(StoredNotebook(r.logs, tag).body.nbspec)
  {
    FreshIsListed(logs, decoded, tag);
    var scripts := FriendlyScripts(Announced(Prepared(Fresh(logs, decoded, tag))), logs, ip, tag);
    HostlessSync(logs, decoded, Luck(Nil, scripts), tag);
  }

  /** A valid notebook without a host is defaulted to the empty host, which is not valid: from the second
      sync on it is Failed, and by `FailingRound` every one returns an error. Its resources are never touched. */
  lemma {:induction false} HostlessEndsFailed(logs: Logs, decoded: bool, ip: string, tags: seq<Tag>)
    requires tags != [] && SameSubjects(tags) && Exists(logs, tags[0])
    requires Valid(StoredNotebook(logs, tags[0]).body.nbspec) && StoredNotebook(logs, tags[0]).body.nbspec.host.None?
    ensures var after := AfterRounds(logs, decoded, ip, tags);
            && Exists(after, tags[0]) && OnlyNotebookDiffers(logs, after, tags[0])
            && !Valid(StoredNotebook(after, tags[0]).body.nbspec)
            && (|tags| >= 2 ==> StoredNotebook(after, tags[0]).body.phase == Failed)
    decreases |tags|
  {
    var before, last := tags[..|tags| - 1], tags[|tags| - 1];
    var mid := AfterRounds(logs, decoded, ip, before);
    if before == [] {
      HostlessRound(logs, decoded, ip, last);
    } else {
      HostlessEndsFailed(logs, decoded, ip, before);
      assert before[0] == tags[0] && SameSubject(tags[0], last);
      FailingRound(mid, decoded, ip, last);
    }
  }
}
