/** Who owns what one whole sync writes. */
module SyncOwnership {
  import opened Basics
  import opened NotebookTypes
  import opened Kube
  import opened Goroutine
  import opened Interleaving
  import opened Sync
  import opened Quiescence
  import opened Ownership

  lemma ReconcileOwns(n: Nb, logs: Logs, scripts: seq<List<Move>>, tag: Tag, i: nat)
    requires Readable(n) && |scripts| == 4 && i < 4
    ensures var key := OwnKey(KINDS[i], n.ns, n.name);
            Owns(LogOf(Reconciled(n, logs, scripts, tag).logs, key), |LogOf(logs, key)|, AsOwner(n))
  {
    var l := StartOf(n, KINDS[i], logs, tag);
    ReconciledZone(n, logs, scripts, tag, i, KINDS[i]);
    ReconcilerIntends(n, KINDS[i], tag);
    FinishOwns(Thread(l, scripts[i]), tag, |l.own|, AsOwner(n));
  }

  lemma LiveOwns(n: Nb, logs: Logs, luck: Luck, tag: Tag, i: nat)
    requires Readable(n) && |luck.scripts| == 4 && i < 4
    ensures var key := OwnKey(KINDS[i], n.ns, n.name);
            Owns(LogOf(Live(n, logs, luck, tag).logs, key), |LogOf(logs, key)|, AsOwner(n))
  {
    var key := OwnKey(KINDS[i], n.ns, n.name);
    var w := SetPhase(logs, luck.main, n.rv, n.phase, Announced(n).phase, tag);
    assert LogOf(w.logs, key) == LogOf(logs, key);
    ReconcileOwns(Announced(n), w.logs, luck.scripts, tag, i);
    assert AsOwner(Announced(n)) == AsOwner(n);
  }

  /** Everything a sync of the cached notebook `c` creates or updates for it has the notebook as its only
      owner, with its kind and version filled in even if the cached struct lacks them, and with its UID;
      whatever the lister's lag, the interference and the faults. */
  lemma SyncOwns(c: Nb, logs: Logs, luck: Luck, tag: Tag, i: nat)
    requires |luck.scripts| == 4 && i < 4 && c.ns == tag.ns && c.name == tag.name
    ensures var key := OwnKey(KINDS[i], c.ns, c.name);
            && AsOwner(Prepared(c)).kind != "" && AsOwner(Prepared(c)).uid == c.uid && AsOwner(Prepared(c)).name == c.name
            && Owns(LogOf(SyncOnce(Known(c), logs, luck, tag).logs, key), |LogOf(logs, key)|, AsOwner(Prepared(c)))
  {
    if Validate(c.spec).None? && Prepared(c).spec == c.spec {
      LiveOwns(Prepared(c), logs, luck, tag, i);
    }
  }
}
