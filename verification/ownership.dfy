/** Who owns what a sync writes: addOwnerRefToObject (pkg/k8sutil/k8s.go:53-55) and AsOwner
    (pkg/apis/jupyter/v1/types.go:160-170), followed through adoption, creation and update. */
module Ownership {
  import opened Basics
  import opened NotebookTypes
  import opened Kube
  import opened Goroutine

  predicate IsWritten(e: Entry) {
    e.author.Operator? && (e.author.verb.Created? || e.author.verb.Updated?)
  }

  /** Whatever the operator has created or updated from entry `from` on has `ref` as its only owner. */
  ghost predicate Owns(log: Log, from: nat, ref: OwnerRef) {
    forall i :: from <= i < |log| && IsWritten(log[i]) ==> log[i].obj.Some? && log[i].obj.value.meta.owners == [ref]
  }

  predicate Intends(g: Goro, ref: OwnerRef) {
    g.plan.Keep? ==> g.plan.want.meta.owners == [ref]
  }

  lemma {:induction false} InterfereOwns(kind: Kind, log: Log, env: List<Option<Object>>, from: nat, ref: OwnerRef)
    requires Owns(log, from, ref)
    ensures Owns(Interfere(kind, log, env), from, ref)
    decreases env
  {
    match env
    case Nil =>
    case Cons(o, rest) =>
      var next := if o.Some? && KindOf(o.value.body) != kind then log else Append(log, o, Environment);
      assert Owns(next, from, ref);
      InterfereOwns(kind, next, rest, from, ref);
  }

  /** Adoption keeps the owner of the calculated object, not that of the adopted one. */
  lemma ReadOwns(g: Goro, found: Lookup, ca: nat, ref: OwnerRef)
    requires Intends(g, ref) && g.pc == Read
    ensures Intends(OnRead(g, found, ca), ref)
  {}

  lemma ActOwns(g: Goro, log: Log, mv: Move, tag: Tag, from: nat, ref: OwnerRef)
    requires Intends(g, ref) && Owns(log, from, ref)
    ensures Intends(Act(g, log, mv, tag).0, ref) && Owns(Act(g, log, mv, tag).1, from, ref)
  {
    var log' := Act(g, log, mv, tag).1;
    if g.pc == Read {
      ReadOwns(g, Get(log, mv), tag.ca, ref);
    } else if log' != log {
      assert log' == log + [log'[|log|]];
    }
  }

  lemma StepOwns(l: Local, mv: Move, tag: Tag, from: nat, ref: OwnerRef)
    requires Intends(l.g, ref) && Owns(l.own, from, ref)
    ensures Intends(StepOnce(l, mv, tag).g, ref) && Owns(StepOnce(l, mv, tag).own, from, ref)
  {
    if l.g.pc != Returned && l.g.pc != Done && !(l.g.pc == Waiting && l.g.waits.ForSecret?) {
      InterfereOwns(l.g.key.kind, l.own, mv.env, from, ref);
      ActOwns(l.g, Interfere(l.g.key.kind, l.own, mv.env), mv, tag, from, ref);
    }
  }

  lemma {:induction false} FinishOwns(t: Thread, tag: Tag, from: nat, ref: OwnerRef)
    requires Sound(t.l.g) && Intends(t.l.g, ref) && Owns(t.l.own, from, ref)
    ensures Owns(Finish(t, tag).l.own, from, ref)
    decreases t.script, Rank(t.l.g.pc)
  {
    if t.l.g.pc != Done {
      StepProgress(t.l, Head(t.script), tag);
      StepProgress(t.l, QUIET, tag);
      StepOwns(t.l, Head(t.script), tag, from, ref);
      StepOwns(t.l, QUIET, tag, from, ref);
      FinishOwns(Advance(t, tag), tag, from, ref);
    }
  }

  lemma ReconcilerIntends(n: Nb, kind: Kind, tag: Tag)
    requires Readable(n)
    ensures Intends(ReconcilerFor(n, kind, tag), AsOwner(n))
  {}
}
