/**
 What each step of a live subscription hands to the subscriber, exactly, and that a newer
 snapshot can always come as long as the subscription owns the feed.
 */
module LiveProgress {
  import opened Common
  import opened LiveTasks
  import opened Paths

  // ------------------------------------------------------- what is handed over

  /** The publication the step reports on, and whether with a full snapshot. */
  function Reported(s: State, step: Step): Option<(Publication, bool)> {
    match step
    case DrainDelivers(id, ok) =>
      if ok && id in s.queue.drains && s.queue.drains[id].Publishing? then Some((s.queue.drains[id].pub, true)) else None
    case RecoveryDelivers(id, ok) =>
      if ok && id in s.rec.runs && s.rec.runs[id].Republishing? then Some((s.rec.runs[id].pub, true)) else None
    case Supplement(pub) => Some((pub, false))
    case _ => None
  }

  /** A publication that returned is handed over if and only if the subscription still owns
      the feed, no newer publication was started and the client is still the same; nothing
      else is handed over, and nothing is taken back. */
  lemma HandedExactly(s: State, step: Step, t: State)
    requires Next(s, step, t)
    ensures var r := Reported(s, step);
            if && r.Some? && s.shared.epoch == s.epoch && s.shared.uid == Some(s.uid)
               && r.value.0.revision == s.queue.revision && r.value.0.generation == s.shared.generation
            then t.log == s.log + [Delivery(r.value.0, r.value.1, s.shared, s.queue.revision)]
            else t.log == s.log
  {
  }

  /** A republish during a recovery is put off; it is asked for when the recovery ends with
      a snapshot handed over, and stays put off otherwise. */
  lemma PutOffExactly(s: State, step: Step, t: State)
    requires Inv(s) && Next(s, step, t) && Live(s)
    ensures step.Republish? && s.rec.current.Some? ==> t.queue == s.queue && t.rec.presencePending
    ensures step.RecoveryConcludes? && s.rec.current == Some(step.id) && s.rec.presencePending ==>
              if s.rec.runs[step.id].succeeded then
                !t.rec.presencePending && (t.queue.pending == Some(s.shared.generation) || Publishes(s, t, s.shared.generation))
              else t.queue == s.queue && t.rec.presencePending
  {
    if step.RecoveryConcludes? && Enqueues(s, step) {
      EnqueueTakes(s, step, t);
    }
  }

  /** Revision and client generation never go back. */
  lemma NumbersGrow(s: State, step: Step, t: State)
    requires Next(s, step, t)
    ensures s.queue.revision <= t.queue.revision && s.shared.generation <= t.shared.generation && s.log <= t.log
  {
    RevisionGrows(s, step, t);
    HandedExactly(s, step, t);
  }

  /** In every run, what is handed over after a moment was started for the client of that
      moment or a later one, and under that moment's revision or a later one. */
  lemma {:induction false} LaterDeliveries(run: seq<State>, steps: seq<Step>, i: nat, j: nat, k: nat)
    requires Taken(run, steps) && i <= j < |run| && |run[i].log| <= k < |run[j].log|
    ensures run[j].log[k].pub.revision >= run[i].queue.revision && run[j].log[k].pub.generation >= run[i].shared.generation
    decreases j
  {
    if i < j {
      assert TakenAt(run, steps, j - 1);
      NumbersGrow(run[j - 1], steps[j - 1], run[j]);
      if k < |run[j - 1].log| {
        LaterDeliveries(run, steps, i, j - 1, k);
      } else {
        HandedExactly(run[j - 1], steps[j - 1], run[j]);
        NumbersGrown(run, steps, i, j - 1);
      }
    }
  }

  lemma {:induction false} NumbersGrown(run: seq<State>, steps: seq<Step>, i: nat, j: nat)
    requires Taken(run, steps) && i <= j < |run|
    ensures run[i].queue.revision <= run[j].queue.revision && run[i].shared.generation <= run[j].shared.generation && run[i].log <= run[j].log
    decreases j
  {
    if i < j {
      NumbersGrown(run, steps, i, j - 1);
      assert TakenAt(run, steps, j - 1);
      NumbersGrow(run[j - 1], steps[j - 1], run[j]);
    }
  }

  /** In every run: after the client is replaced nothing read through the old one is handed
      over, after the index fails nothing that was under way is, and after the unsubscribe
      nothing is handed over at all. */
  lemma SupersededNeverDelivered(run: seq<State>, steps: seq<Step>, i: nat, j: nat, k: nat)
    requires Taken(run, steps) && i < j < |run| && |run[i].log| <= k < |run[j].log|
    ensures steps[i].ReplaceClient? ==> run[j].log[k].pub.generation > run[i].shared.generation
    ensures steps[i].IndexFailed? ==> run[j].log[k].pub.revision > run[i].queue.revision
    ensures !steps[i].Unsubscribe?
  {
    assert TakenAt(run, steps, i);
    HandedExactly(run[i], steps[i], run[i + 1]);
    if steps[i].Unsubscribe? {
      TakenIsRun(run, steps);
      RunOwnable(run, i);
      UnsubscribedSilent(run, steps, i + 1, j);
    } else if steps[i].ReplaceClient? || steps[i].IndexFailed? {
      LaterDeliveries(run, steps, i + 1, j, k);
    }
  }

  lemma {:induction false} UnsubscribedSilent(run: seq<State>, steps: seq<Step>, i: nat, j: nat)
    requires Taken(run, steps) && i <= j < |run| && Lost(run[i])
    ensures Lost(run[j]) && run[j].log == run[i].log
    decreases j
  {
    if i < j {
      UnsubscribedSilent(run, steps, i, j - 1);
      assert TakenAt(run, steps, j - 1);
      OwnershipMoves(run[j - 1], steps[j - 1], run[j]);
    }
  }

  // ----------------------------------------------------------------- reaching

  ghost predicate Reachable(s: State) {
    exists run :: Run(run) && run[|run| - 1] == s
  }

  lemma Reach(s: State, step: Step, t: State)
    requires Reachable(s) && Next(s, step, t)
    ensures Reachable(t)
  {
    var run :| Run(run) && run[|run| - 1] == s;
    var more := run + [t];
    assert Linked(s, t);
    forall i | 0 < i < |more| ensures StepAt(more, i) {
      if i < |run| {
        assert StepAt(run, i) && more[i] == run[i] && more[i - 1] == run[i - 1];
      } else {
        assert more[i - 1] == run[|run| - 1];
      }
    }
    assert Run(more) && more[|run|] == t;
  }

  /** One step further, and how far that is. */
  lemma Onward(s: State, t: State, step: Step, u: State)
    requires Follows(Linked, s, t) && Reachable(t) && Next(t, step, u)
    ensures Follows(Linked, s, u) && Reachable(u)
  {
    assert Linked(t, u);
    FollowsOn(Linked, s, t, u);
    Reach(t, step, u);
  }

  lemma ReachableFlight(s: State)
    requires Reachable(s)
    ensures SingleFlight(s.queue)
  {
    var run :| Run(run) && run[|run| - 1] == s;
    RunInv(run, |run| - 1);
  }

  // ----------------------------------------------------------- ownership

  /** Once the feed belongs to somebody else, it does for ever. */
  ghost predicate Lost(s: State) {
    s.shared.epoch > s.epoch
  }

  ghost predicate Ownable(s: State) {
    Owner(s) || Lost(s)
  }

  lemma OwnershipMoves(s: State, step: Step, t: State)
    requires Next(s, step, t)
    ensures Ownable(s) ==> Ownable(t)
    ensures Lost(s) ==> Lost(t) && t.log == s.log
  {
    if Lost(s) {
      HandedExactly(s, step, t);
    }
  }

  lemma LinkOwnership(s: State, t: State)
    requires Linked(s, t)
    ensures Ownable(s) ==> Ownable(t)
    ensures Lost(s) ==> Lost(t) && t.log == s.log
  {
    var step :| Next(s, step, t);
    OwnershipMoves(s, step, t);
  }

  lemma {:induction false} RunOwnable(run: seq<State>, i: nat)
    requires Run(run) && i < |run|
    ensures Ownable(run[i])
  {
    if i > 0 {
      RunOwnable(run, i - 1);
      assert StepAt(run, i);
      LinkOwnership(run[i - 1], run[i]);
    }
  }

  lemma ReachableOwnable(s: State)
    requires Reachable(s)
    ensures Ownable(s)
  {
    var run :| Run(run) && run[|run| - 1] == s;
    RunOwnable(run, |run| - 1);
  }

  lemma LostForever(s: State, t: State)
    requires Lost(s) && Follows(Linked, s, t)
    ensures t.log == s.log
  {
    forall a, b | Lost(a) && Linked(a, b) ensures Lost(b) && b.log == a.log {
      LinkOwnership(a, b);
    }
    Lasts(Linked, u => Lost(u) && u.log == s.log, s, t);
  }

  // ------------------------------------------------------------------ progress

  /** Some continuation hands over a full snapshot newer than every publication so far. */
  ghost predicate CanShow(s: State, revision: nat) {
    exists t, d: Delivery :: Follows(Linked, s, t) && t.log == s.log + [d] && d.full && d.pub.revision > revision
  }

  /** A later state of the same subscription with nothing handed over in between. */
  ghost predicate Silently(s: State, t: State) {
    Follows(Linked, s, t) && Reachable(t) && t.log == s.log && t.queue.revision >= s.queue.revision
  }

  /** The latest publication, when it returns, is handed over. */
  lemma PublicationReturns(s: State, t: State, id: nat, revision: nat)
    requires Silently(s, t) && Owner(t) && id in t.queue.drains
    requires t.queue.drains[id] == Publishing(Publication(t.queue.revision, t.shared.generation)) && t.queue.revision > revision
    ensures CanShow(s, revision)
  {
    var pub := Publication(t.queue.revision, t.shared.generation);
    var d := Delivery(pub, true, t.shared, t.queue.revision);
    var u := t.(log := t.log + [d], queue := t.queue.(drains := t.queue.drains[id := Returned]));
    assert Next(t, DrainDelivers(id, true), u);
    Onward(s, t, DrainDelivers(id, true), u);
    assert Follows(Linked, s, u) && u.log == s.log + [d];
  }

  /** A drain that finds a request for the present client publishes. */
  lemma DrainPublishes(s: State, t: State, id: nat, revision: nat)
    requires Silently(s, t) && Live(t) && t.queue.pending == Some(t.shared.generation) && t.queue.revision >= revision
    requires id in t.queue.drains && t.queue.drains[id].Returned?
    ensures CanShow(s, revision)
  {
    var u := t.(queue := Pumped(t, t.queue, id));
    Onward(s, t, DrainResumes(id), u);
    PublicationReturns(s, u, id, revision);
  }

  lemma DrainRenews(s: State, t: State, id: nat, revision: nat)
    requires Silently(s, t) && Live(t) && t.queue.pending == Some(t.shared.generation) && t.queue.revision >= revision
    requires id in t.queue.drains && t.queue.drains[id].Ended? && t.queue.active == Some(id)
    ensures CanShow(s, revision)
  {
    var u := t.(queue := Started(t, t.queue.(drains := t.queue.drains - {id}, active := None)));
    Onward(s, t, DrainCompletes(id), u);
    PublicationReturns(s, u, t.queue.nextDrain, revision);
  }

  /** Whatever the drain is at, a pending request is published in the end. */
  lemma RequestShows(s: State, t: State, revision: nat)
    requires Silently(s, t) && Live(t) && t.queue.pending == Some(t.shared.generation) && t.queue.revision >= revision
    ensures CanShow(s, revision)
  {
    ReachableFlight(t);
    var id := t.queue.active.value;
    assert id in t.queue.drains;
    match t.queue.drains[id]
    case Publishing(pub) =>
      var u := t.(queue := t.queue.(drains := t.queue.drains[id := Returned]));
      Onward(s, t, DrainDelivers(id, false), u);
      DrainPublishes(s, u, id, revision);
    case Returned => DrainPublishes(s, t, id, revision);
    case Ended => DrainRenews(s, t, id, revision);
  }

  lemma OwnerShows(s: State)
    requires Reachable(s) && Owner(s)
    ensures CanShow(s, s.queue.revision)
  {
    ReachableFlight(s);
    FollowsItself(Linked, s);
    var ready := s.(shared := s.shared.(ready := true), rec := s.rec.(presencePending := false));
    var t := ready.(queue := Enqueued(ready));
    Onward(s, s, IndexTasks, t);
    if s.queue.active.Some? {
      RequestShows(s, t, s.queue.revision);
    } else {
      PublicationReturns(s, t, s.queue.nextDrain, s.queue.revision);
    }
  }

  /** From every reachable state, whatever drains and recoveries are under way: a full
      snapshot newer than every publication so far can be handed over, if and only if the
      subscription still owns the feed. */
  lemma SnapshotPossibleIff(s: State)
    requires Reachable(s)
    ensures CanShow(s, s.queue.revision) <==> s.shared.epoch == s.epoch && s.shared.uid == Some(s.uid)
  {
    if Owner(s) {
      OwnerShows(s);
    } else {
      ReachableOwnable(s);
      forall t | Follows(Linked, s, t) ensures t.log == s.log {
        LostForever(s, t);
      }
    }
  }

  // ------------------------------------------------------------- recoveries

  /** The current recovery is reading, and nothing newer was asked for. */
  predicate Recovering(s: State, id: nat) {
    s.rec.current == Some(id) && id in s.rec.runs && s.rec.runs[id].Reading? && IsCurrent(s, s.rec.runs[id].pub)
  }

  lemma ReadGoesOn(s: State, id: nat) returns (t: State)
    requires Reachable(s) && Recovering(s, id)
    ensures Follows(Linked, s, t) && Reachable(t) && t.log == s.log && Live(t) && t.rec.current == Some(id)
    ensures id in t.rec.runs && t.rec.runs[id] == Republishing(s.rec.runs[id].pub) && IsCurrent(t, s.rec.runs[id].pub)
    ensures t.rec.presencePending == s.rec.presencePending
  {
    var pub := s.rec.runs[id].pub;
    t := s.(shared := s.shared.(ready := true), queue := s.queue.(started := s.queue.started + {pub}),
            rec := s.rec.(runs := s.rec.runs[id := Republishing(pub)]));
    FollowsItself(Linked, s);
    Onward(s, s, RecoveryReads(id, true), t);
  }

  lemma RepublishGoesOn(s: State, t: State, id: nat) returns (u: State)
    requires Follows(Linked, s, t) && Reachable(t) && t.rec.current == Some(id) && Live(t)
    requires id in t.rec.runs && t.rec.runs[id].Republishing? && IsCurrent(t, t.rec.runs[id].pub)
    ensures Follows(Linked, s, u) && Reachable(u) && u.log == t.log + [Delivery(t.rec.runs[id].pub, true, t.shared, t.queue.revision)]
    ensures Live(u) && u.rec.current == Some(id) && id in u.rec.runs && u.rec.runs[id] == Concluded(true)
    ensures u.rec.presencePending == t.rec.presencePending
  {
    var pub := t.rec.runs[id].pub;
    var m := t.(log := t.log + [Delivery(pub, true, t.shared, t.queue.revision)], rec := t.rec.(runs := t.rec.runs[id := Settled(pub, true)]));
    Onward(s, t, RecoveryDelivers(id, true), m);
    u := m.(rec := m.rec.(runs := m.rec.runs[id := Concluded(true)]));
    Onward(s, m, RecoverySettles(id), u);
  }

  lemma RecoveryEnds(s: State, t: State, id: nat) returns (u: State)
    requires Follows(Linked, s, t) && Reachable(t) && t.rec.current == Some(id) && Live(t) && id in t.rec.runs && t.rec.runs[id] == Concluded(true)
    ensures Follows(Linked, s, u) && u.log == t.log && u.rec.current.None? && Live(u) && !u.rec.presencePending
    ensures t.rec.presencePending ==> u.queue.pending == Some(u.shared.generation) || Publishes(t, u, u.shared.generation)
  {
    var q := if t.rec.presencePending then Enqueued(t) else t.queue;
    u := t.(queue := q, rec := t.rec.(runs := t.rec.runs - {id}, current := None, presencePending := false));
    Onward(s, t, RecoveryConcludes(id), u);
    ReachableInv(t);
    if t.rec.presencePending {
      EnqueueTakes(t, RecoveryConcludes(id), u);
    }
  }

  lemma ReachableInv(s: State)
    requires Reachable(s)
    ensures Inv(s)
  {
    var run :| Run(run) && run[|run| - 1] == s;
    RunInv(run, |run| - 1);
  }

  /** A recovery that nothing overtakes can hand over the snapshot it reads, end, and then
      ask for the republish it put off. */
  lemma RecoveryCanRepair(s: State, id: nat) returns (t: State)
    requires Reachable(s) && Recovering(s, id)
    ensures Follows(Linked, s, t) && |t.log| == |s.log| + 1 && s.log <= t.log
    ensures t.log[|s.log|].full && t.log[|s.log|].pub == s.rec.runs[id].pub
    ensures t.rec.current.None? && Live(t) && !t.rec.presencePending
    ensures s.rec.presencePending ==> t.queue.pending == Some(t.shared.generation) || exists u :: Publishes(u, t, t.shared.generation)
  {
    var read := ReadGoesOn(s, id);
    var handed := RepublishGoesOn(s, read, id);
    t := RecoveryEnds(s, handed, id);
  }
}
