/** The sync of a notebook that its lister no longer knows: the manual garbage collection of
    pkg/controller/controller.go:277-290. The objects may have been left in any state by earlier attempts. */
module Deletion {
  import opened Basics
  import opened Kube
  import opened Goroutine
  import opened Interleaving
  import opened Sync
  import opened Quiescence

  /** The key is absent when its deletion is asked for, or the deletion was acknowledged: anything but a
      call that never arrives or one whose effect is not confirmed. */
  predicate Acknowledged(key: Key, own: Log, mv: Move) {
    match mv.fault
    case NoFault => true
    case Dropped(_) => false
    case Unanswered(_) => Current(Interfere(key.kind, own, mv.env)).None?
  }

  /** A goroutine that erases makes one call. Whatever others do before it, it returns nil exactly if that
      call is acknowledged, and then its object is gone. */
  lemma EraseEnds(key: Key, own: Log, script: List<Move>, tag: Tag)
    ensures var e := Finish(Thread(Local(Goro(key, Discard, Nothing, Erase, None, 0), own, []), script), tag).l;
            && (e.g.err.None? <==> Acknowledged(key, own, Head(script)))
            && (e.g.err.None? ==> Current(e.own).None?)
            && (Current(own).None? && Head(script).env.Nil? ==> e.own == own)
  {
    var mv := Head(script);
    var t := Thread(Local(Goro(key, Discard, Nothing, Erase, None, 0), own, []), script);
    FinishUnrolls(t, tag);
    var u := Advance(t, tag);
    FinishUnrolls(u, tag);
    var r := Delete(Interfere(key.kind, own, mv.env), false, tag, mv);
    assert u.l.g == Return(t.l.g, r.err) && u.l.own == r.log;
    JoinErrorsNil([r.err], BENIGN);
    assert Advance(u, tag).l == u.l.(g := Settle(u.l.g));
    assert Advance(u, tag).l.g.pc == Done;
  }

  function Kept(logs: Logs, kind: Kind, tag: Tag): Log {
    LogOf(logs, OwnKey(kind, tag.ns, tag.name))
  }

  predicate Gone(logs: Logs, tag: Tag) {
    && Current(Kept(logs, ServiceKind, tag)).None? && Current(Kept(logs, SecretKind, tag)).None?
    && Current(Kept(logs, StatefulSetKind, tag)).None? && Current(Kept(logs, IngressKind, tag)).None?
  }

  predicate AcknowledgedAt(logs: Logs, kind: Kind, script: List<Move>, tag: Tag) {
    Acknowledged(OwnKey(kind, tag.ns, tag.name), Kept(logs, kind, tag), Head(script))
  }

  predicate AllAcknowledged(logs: Logs, scripts: seq<List<Move>>, tag: Tag)
    requires |scripts| == 4
  {
    && AcknowledgedAt(logs, ServiceKind, scripts[0], tag) && AcknowledgedAt(logs, SecretKind, scripts[1], tag)
    && AcknowledgedAt(logs, StatefulSetKind, scripts[2], tag) && AcknowledgedAt(logs, IngressKind, scripts[3], tag)
  }

  /** One of the four objects. */
  lemma ErasedZone(logs: Logs, scripts: seq<List<Move>>, tag: Tag, i: nat, kind: Kind)
    requires |scripts| == 4 && i < 4 && kind == KINDS[i]
    ensures var n := Tombstone(tag.ns, tag.name);
            var r := Reconciled(n, logs, scripts, tag);
            var slot := InOrder(Runners(n, scripts, tag), logs, 0, tag).0[i].g.err;
            && (slot.None? <==> AcknowledgedAt(logs, kind, scripts[i], tag))
            && (slot.None? ==> Current(Kept(r.logs, kind, tag)).None?)
            && (Current(Kept(logs, kind, tag)).None? && Head(scripts[i]).env.Nil? ==>
                  Kept(r.logs, kind, tag) == Kept(logs, kind, tag))
  {
    var n := Tombstone(tag.ns, tag.name);
    ReconciledZone(n, logs, scripts, tag, i, kind);
    assert StartOf(n, kind, logs, tag)
        == Local(Goro(OwnKey(kind, tag.ns, tag.name), Discard, Nothing, Erase, None, 0), Kept(logs, kind, tag), []);
    EraseEnds(OwnKey(kind, tag.ns, tag.name), Kept(logs, kind, tag), scripts[i], tag);
  }

  lemma ErasedZones(logs: Logs, scripts: seq<List<Move>>, tag: Tag)
    requires |scripts| == 4
    ensures var r := Reconciled(Tombstone(tag.ns, tag.name), logs, scripts, tag);
            && (r.err.None? <==> AllAcknowledged(logs, scripts, tag))
            && (r.err.None? ==> Gone(r.logs, tag))
  {
    ErasedZone(logs, scripts, tag, 0, ServiceKind);
    ErasedZone(logs, scripts, tag, 1, SecretKind);
    ErasedZone(logs, scripts, tag, 2, StatefulSetKind);
    ErasedZone(logs, scripts, tag, 3, IngressKind);
    SlotsDecide(Tombstone(tag.ns, tag.name), logs, scripts, tag);
  }

  /** Deletion is complete: the sync of a missing notebook returns nil exactly if each of the four
      deletions was acknowledged or found nothing to delete; then none of the four objects is left, from
      whatever subset of them it started. No other object is touched. */
  lemma DeletionIsComplete(logs: Logs, luck: Luck, tag: Tag)
    requires |luck.scripts| == 4
    ensures var r := SyncOnce(Missing, logs, luck, tag);
            && (r.err.None? <==> AllAcknowledged(logs, luck.scripts, tag))
            && (r.err.None? ==> Gone(r.logs, tag))
            && forall k :: k !in ErasedKeys(tag) ==> LogOf(r.logs, k) == LogOf(logs, k)
  {
    ErasedZones(logs, luck.scripts, tag);
    forall k | k !in ErasedKeys(tag)
      ensures LogOf(SyncOnce(Missing, logs, luck, tag).logs, k) == LogOf(logs, k)
    {
      ReconciledElsewhere(Tombstone(tag.ns, tag.name), logs, luck.scripts, tag, k);
    }
  }

  function ErasedKeys(tag: Tag): set<Key> {
    {OwnKey(ServiceKind, tag.ns, tag.name), OwnKey(SecretKind, tag.ns, tag.name),
     OwnKey(StatefulSetKind, tag.ns, tag.name), OwnKey(IngressKind, tag.ns, tag.name)}
  }

  predicate Fails(script: List<Move>) {
    Head(script).fault != NoFault
  }

  predicate Interferes(script: List<Move>) {
    !Head(script).env.Nil?
  }

  /** The repetition of an attempt, failed or not, succeeds if no Delete meets another error than
      NotFound; if the first one succeeded and nobody interferes, it changes nothing. */
  lemma RepetitionSucceeds(logs: Logs, first: Luck, again: Luck, s: Tag, t: Tag)
    requires |first.scripts| == 4 && |again.scripts| == 4 && s.ns == t.ns && s.name == t.name
    requires forall i :: 0 <= i < 4 ==> !Fails(again.scripts[i])
    ensures var one := SyncOnce(Missing, logs, first, s);
            var two := SyncOnce(Missing, one.logs, again, t);
            && two.err.None? && Gone(two.logs, t)
            && (one.err.None? && (forall i :: 0 <= i < 4 ==> !Interferes(again.scripts[i])) ==> Same(two.logs, one.logs))
  {
    DeletionIsComplete(logs, first, s);
    var one := SyncOnce(Missing, logs, first, s);
    DeletionIsComplete(one.logs, again, t);
    if one.err.None? && forall i :: 0 <= i < 4 ==> !Interferes(again.scripts[i]) {
      GoneStays(one.logs, again.scripts, t);
    }
  }

  lemma GoneStays(logs: Logs, scripts: seq<List<Move>>, tag: Tag)
    requires |scripts| == 4 && Gone(logs, tag) && forall i :: 0 <= i < 4 ==> !Interferes(scripts[i])
    ensures Same(Reconciled(Tombstone(tag.ns, tag.name), logs, scripts, tag).logs, logs)
  {
    assert !Interferes(scripts[0]) && !Interferes(scripts[1]) && !Interferes(scripts[2]) && !Interferes(scripts[3]);
    ErasedZone(logs, scripts, tag, 0, ServiceKind);
    ErasedZone(logs, scripts, tag, 1, SecretKind);
    ErasedZone(logs, scripts, tag, 2, StatefulSetKind);
    ErasedZone(logs, scripts, tag, 3, IngressKind);
    var n := Tombstone(tag.ns, tag.name);
    forall k
      ensures LogOf(Reconciled(n, logs, scripts, tag).logs, k) == LogOf(logs, k)
    {
      if k !in ErasedKeys(tag) {
        ReconciledElsewhere(n, logs, scripts, tag, k);
      }
    }
  }
}
