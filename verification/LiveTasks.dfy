/**
 One live task subscription of the mobile app: index callbacks, republishes,
 recoveries, client replacement, account change and unsubscribe, interleaved at
 every await.

 Callbacks run to their next await without interruption; a client's list call is
 taken not to call back into the subscription before it returns its promise.
 */
module LiveTasks {
  import opened Common

  type Uid = nat

  /** The app model's shared variables. */
  datatype Shared = Shared(epoch: nat, uid: Option<Uid>, ready: bool, generation: nat)

  /** One reading of the current tasks, from the moment it starts. */
  datatype Publication = Publication(revision: nat, generation: nat)

  /** Where a drain of the publication queue is. */
  datatype Drain =
    | Publishing(pub: Publication)   // awaiting its publication
    | Returned                       // publication over, loop not resumed yet
    | Ended                          // loop left, completion handler not run yet

  /** The queue of at most one pending publication, and the drains working on it. */
  datatype Queue = Queue(
    revision: nat,
    pending: Option<nat>,            // generation asked for
    active: Option<nat>,             // the drain others wait for
    drains: map<nat, Drain>,
    nextDrain: nat,
    started: set<Publication>)       // whose list call was made: each may supplement at any later time

  /** Where a one-shot recovery read is. */
  datatype Recovery =
    | Reading(pub: Publication)
    | Republishing(pub: Publication)
    | Settled(pub: Publication, published: bool)
    | Concluded(succeeded: bool)

  datatype Recoveries = Recoveries(current: Option<nat>, runs: map<nat, Recovery>, nextRun: nat, presencePending: bool)

  /** One update handed to the subscriber, with the state it was handed over in. */
  datatype Delivery = Delivery(pub: Publication, full: bool, shared: Shared, latest: nat)

  datatype State = State(epoch: nat, uid: Uid, shared: Shared, queue: Queue, rec: Recoveries, log: seq<Delivery>)

  datatype Step =
    | IndexTasks
    | IndexFailed
    | Republish
    | Supplement(pub: Publication)   // the list call of a publication reports late tasks
    | DrainDelivers(id: nat, ok: bool)
    | DrainResumes(id: nat)
    | DrainCompletes(id: nat)
    | RecoveryReads(id: nat, ok: bool)
    | RecoveryDelivers(id: nat, ok: bool)
    | RecoverySettles(id: nat)
    | RecoveryConcludes(id: nat)
    | ReplaceClient
    | Unsubscribe
    | Elsewhere(shared: Shared)      // another subscription or account takes over

  // ------------------------------------------------------------- vocabulary

  predicate Owner(s: State) {
    s.shared.epoch == s.epoch && s.shared.uid == Some(s.uid)
  }

  predicate Live(s: State) {
    Owner(s) && s.shared.ready
  }

  predicate IsCurrent(s: State, pub: Publication) {
    Owner(s) && pub.revision == s.queue.revision && pub.generation == s.shared.generation
  }

  function Handed(s: State, pub: Publication, full: bool): seq<Delivery> {
    if IsCurrent(s, pub) then s.log + [Delivery(pub, full, s.shared, s.queue.revision)] else s.log
  }

  /** The drain loop from one check of the queue to its next await or its end. */
  function Pumped(s: State, q: Queue, id: nat): Queue {
    if q.pending.Some? && Live(s) && q.pending.value == s.shared.generation
    then q.(pending := None, revision := q.revision + 1,
            started := q.started + {Publication(q.revision + 1, s.shared.generation)},
            drains := q.drains[id := Publishing(Publication(q.revision + 1, s.shared.generation))])
    else q.(pending := None, drains := q.drains[id := Ended])
  }

  /** Start a drain unless one is active. */
  function Started(s: State, q: Queue): Queue {
    if q.active.Some? then q
    else Pumped(s, q.(active := Some(q.nextDrain), nextDrain := q.nextDrain + 1), q.nextDrain)
  }

  function Enqueued(s: State): Queue {
    if Live(s) then Started(s, s.queue.(pending := Some(s.shared.generation))) else s.queue
  }

  // ------------------------------------------------------------------ steps

  ghost predicate DrainStep(s: State, step: Step, t: State) {
    match step
    case DrainDelivers(id, ok) =>
      && id in s.queue.drains && s.queue.drains[id].Publishing?
      && t == s.(log := if ok then Handed(s, s.queue.drains[id].pub, true) else s.log,
                 queue := s.queue.(drains := s.queue.drains[id := Returned]))
    case DrainResumes(id) =>
      && id in s.queue.drains && s.queue.drains[id].Returned?
      && t == s.(queue := Pumped(s, s.queue, id))
    case DrainCompletes(id) =>
      && id in s.queue.drains && s.queue.drains[id].Ended?
      && var q := s.queue.(drains := s.queue.drains - {id});
      && (s.queue.active != Some(id) ==> t == s.(queue := q))
      && (s.queue.active == Some(id) && s.queue.pending.None? ==> t == s.(queue := q.(active := None)))
      && (s.queue.active == Some(id) && s.queue.pending.Some? ==> t == s.(queue := Started(s, q.(active := None))))
    case _ => false
  }

  ghost predicate RecoveryStep(s: State, step: Step, t: State) {
    match step
    case IndexFailed =>
      && Owner(s)
      && var pub := Publication(s.queue.revision + 1, s.shared.generation);
      && t == s.(queue := s.queue.(pending := None, revision := pub.revision),
                 rec := s.rec.(current := Some(s.rec.nextRun), nextRun := s.rec.nextRun + 1,
                               runs := s.rec.runs[s.rec.nextRun := Reading(pub)]))
    case RecoveryReads(id, ok) =>
      && id in s.rec.runs && s.rec.runs[id].Reading?
      && var going := s.rec.current == Some(id) && IsCurrent(s, s.rec.runs[id].pub);
      && t == s.(shared := if going && ok then s.shared.(ready := true) else s.shared,
                 queue := s.queue.(started := if going then s.queue.started + {s.rec.runs[id].pub} else s.queue.started),
                 rec := s.rec.(runs := s.rec.runs[id := if going then Republishing(s.rec.runs[id].pub) else Settled(s.rec.runs[id].pub, false)]))
    case RecoveryDelivers(id, ok) =>
      && id in s.rec.runs && s.rec.runs[id].Republishing?
      && t == s.(log := if ok then Handed(s, s.rec.runs[id].pub, true) else s.log,
                 rec := s.rec.(runs := s.rec.runs[id := Settled(s.rec.runs[id].pub, ok && IsCurrent(s, s.rec.runs[id].pub))]))
    case RecoverySettles(id) =>
      && id in s.rec.runs && s.rec.runs[id].Settled?
      && var succeeded := s.rec.runs[id].published && s.rec.current == Some(id) && IsCurrent(s, s.rec.runs[id].pub);
      && t == s.(rec := s.rec.(runs := s.rec.runs[id := Concluded(succeeded)]))
    case RecoveryConcludes(id) =>
      && id in s.rec.runs && s.rec.runs[id].Concluded?
      && var again := s.rec.current == Some(id) && s.rec.runs[id].succeeded && s.rec.presencePending;
      && t == s.(queue := if again then Enqueued(s) else s.queue,
                 rec := s.rec.(runs := s.rec.runs - {id},
                               current := if s.rec.current == Some(id) then None else s.rec.current,
                               presencePending := s.rec.presencePending && !again))
    case _ => false
  }

  ghost predicate OutsideStep(s: State, step: Step, t: State) {
    match step
    case Supplement(pub) => pub in s.queue.started && t == s.(log := Handed(s, pub, false))
    case IndexTasks =>
      && Owner(s)
      && var ready := s.(shared := s.shared.(ready := true), rec := s.rec.(presencePending := false));
      && t == ready.(queue := Enqueued(ready))
    case Republish =>
      && (!Live(s) ==> t == s)
      && (Live(s) && s.rec.current.Some? ==> t == s.(rec := s.rec.(presencePending := true)))
      && (Live(s) && s.rec.current.None? ==> t == s.(rec := s.rec.(presencePending := false), queue := Enqueued(s)))
    case ReplaceClient =>
      t == s.(shared := s.shared.(generation := s.shared.generation + 1),
              rec := s.rec.(current := None, nextRun := s.rec.nextRun + 1, presencePending := false))
    case Unsubscribe =>
      t == s.(shared := if s.shared.epoch == s.epoch then s.shared.(epoch := s.shared.epoch + 1, uid := None, ready := false) else s.shared,
              queue := s.queue.(pending := None),
              rec := s.rec.(current := None, nextRun := s.rec.nextRun + 1, presencePending := false))
    case Elsewhere(shared) =>
      shared.epoch > s.shared.epoch && shared.generation >= s.shared.generation && t == s.(shared := shared)
    case _ => false
  }

  ghost predicate Next(s: State, step: Step, t: State) {
    DrainStep(s, step, t) || RecoveryStep(s, step, t) || OutsideStep(s, step, t)
  }

  ghost predicate Initial(s: State) {
    && s.shared.epoch == s.epoch && s.shared.uid == Some(s.uid) && !s.shared.ready
    && s.queue == Queue(0, None, None, map[], 0, {}) && s.rec == Recoveries(None, map[], 0, false) && s.log == []
  }

  ghost predicate Linked(s: State, t: State) {
    exists step :: Next(s, step, t)
  }

  ghost predicate StepAt(run: seq<State>, i: nat)
    requires 0 < i < |run|
  {
    Linked(run[i - 1], run[i])
  }

  ghost predicate Run(run: seq<State>) {
    run != [] && Initial(run[0]) && forall i :: 0 < i < |run| ==> StepAt(run, i)
  }

  // -------------------------------------------------------------- invariant

  /** At most one drain exists, it is the active one, and a pending publication has a
      drain that will look at it. */
  ghost predicate SingleFlight(q: Queue) {
    && (forall id :: id in q.drains <==> q.active == Some(id))
    && (q.active.Some? ==> q.active.value < q.nextDrain)
    && (q.pending.Some? ==> q.active.Some?)
  }

  /** Publications under way have revisions of their own, none beyond the latest. */
  ghost predicate Distinct(q: Queue, rec: Recoveries) {
    && (forall pub :: pub in q.started ==> pub.revision <= q.revision)
    && (forall id :: id in q.drains && q.drains[id].Publishing? ==> q.drains[id].pub.revision <= q.revision)
    && (forall r :: r in rec.runs && HasPub(rec.runs[r]) ==> rec.runs[r].pub.revision <= q.revision)
    && (forall id, r :: id in q.drains && q.drains[id].Publishing? && r in rec.runs && HasPub(rec.runs[r]) ==>
          q.drains[id].pub.revision != rec.runs[r].pub.revision)
    && (forall a, b :: a in rec.runs && b in rec.runs && a != b && HasPub(rec.runs[a]) && HasPub(rec.runs[b]) ==>
          rec.runs[a].pub.revision != rec.runs[b].pub.revision)
  }

  predicate HasPub(r: Recovery) {
    r.Reading? || r.Republishing?
  }

  ghost predicate RunsNumbered(rec: Recoveries) {
    forall r :: r in rec.runs ==> r < rec.nextRun
  }

  /** A full snapshot handed over is older than or equal to the latest revision and no
      publication under way repeats it. */
  ghost predicate Undelivered(q: Queue, rec: Recoveries, log: seq<Delivery>) {
    && (forall k :: 0 <= k < |log| ==> log[k].pub.revision <= q.revision)
    && (forall k, id :: 0 <= k < |log| && log[k].full && id in q.drains && q.drains[id].Publishing? ==>
          log[k].pub.revision != q.drains[id].pub.revision)
    && (forall k, r :: 0 <= k < |log| && log[k].full && r in rec.runs && HasPub(rec.runs[r]) ==>
          log[k].pub.revision != rec.runs[r].pub.revision)
  }

  /** Every update was current when handed over: this subscription's epoch and account,
      the client generation and the revision of that moment. */
  ghost predicate AllCurrent(s: State) {
    forall k :: 0 <= k < |s.log| ==> CurrentDelivery(s.log[k], s.epoch, s.uid)
  }

  predicate CurrentDelivery(d: Delivery, epoch: nat, uid: Uid) {
    && d.shared.epoch == epoch && d.shared.uid == Some(uid)
    && d.pub.generation == d.shared.generation && d.pub.revision == d.latest
  }

  /** No update carries an older revision than one before it, and of full snapshots each
      carries a newer one. */
  ghost predicate Increasing(log: seq<Delivery>) {
    && (forall j, k :: 0 <= j < k < |log| ==> log[j].pub.revision <= log[k].pub.revision)
    && (forall j, k :: 0 <= j < k < |log| && log[j].full && log[k].full ==> log[j].pub.revision < log[k].pub.revision)
  }

  ghost predicate Inv(s: State) {
    && SingleFlight(s.queue)
    && Distinct(s.queue, s.rec) && RunsNumbered(s.rec)
    && Undelivered(s.queue, s.rec, s.log)
    && AllCurrent(s) && Increasing(s.log)
  }

  lemma PumpedSingle(s: State, q: Queue, id: nat)
    requires q.active == Some(id) && id < q.nextDrain && forall d :: d in q.drains ==> d == id
    ensures SingleFlight(Pumped(s, q, id)) && Pumped(s, q, id).active == Some(id)
  {
  }

  /** A drain that pumps starts a publication nobody else has. */
  lemma PumpedDistinct(s: State, q: Queue, id: nat, rec: Recoveries, log: seq<Delivery>)
    requires Distinct(q, rec) && Undelivered(q, rec, log)
    ensures Distinct(Pumped(s, q, id), rec) && Undelivered(Pumped(s, q, id), rec, log)
  {
  }

  lemma EnqueuedOk(s: State, rec: Recoveries, log: seq<Delivery>)
    requires SingleFlight(s.queue) && Distinct(s.queue, rec) && Undelivered(s.queue, rec, log)
    ensures SingleFlight(Enqueued(s)) && Distinct(Enqueued(s), rec) && Undelivered(Enqueued(s), rec, log)
  {
    if Live(s) && s.queue.active.None? {
      var q := s.queue.(pending := Some(s.shared.generation));
      var started := q.(active := Some(q.nextDrain), nextDrain := q.nextDrain + 1);
      PumpedSingle(s, started, q.nextDrain);
      PumpedDistinct(s, started, q.nextDrain, rec, log);
    }
  }

  // ------------------------------------------------- the invariant is kept

  /** Handing over a publication under way keeps the log in order. */
  lemma HandedOk(s: State, pub: Publication, full: bool)
    requires AllCurrent(s) && Increasing(s.log)
    requires forall k :: 0 <= k < |s.log| ==> s.log[k].pub.revision <= s.queue.revision
    requires full ==> forall k :: 0 <= k < |s.log| && s.log[k].full ==> s.log[k].pub.revision != pub.revision
    ensures AllCurrent(s.(log := Handed(s, pub, full))) && Increasing(Handed(s, pub, full))
  {
  }

  lemma DrainHands(s: State, id: nat)
    requires Inv(s) && id in s.queue.drains && s.queue.drains[id].Publishing?
    ensures Undelivered(s.queue.(drains := s.queue.drains[id := Returned]), s.rec, Handed(s, s.queue.drains[id].pub, true))
  {
  }

  /** A snapshot one entry longer, which nobody under way repeats. */
  lemma UndeliveredMore(q: Queue, rec: Recoveries, log: seq<Delivery>, d: Delivery)
    requires Undelivered(q, rec, log) && d.pub.revision <= q.revision
    requires forall id :: id in q.drains && q.drains[id].Publishing? ==> d.pub.revision != q.drains[id].pub.revision
    requires forall r :: r in rec.runs && HasPub(rec.runs[r]) ==> d.pub.revision != rec.runs[r].pub.revision
    ensures Undelivered(q, rec, log + [d])
  {
  }

  lemma RecoveryHands(s: State, id: nat, done: Recovery)
    requires Inv(s) && id in s.rec.runs && HasPub(s.rec.runs[id]) && !HasPub(done)
    ensures Undelivered(s.queue, s.rec.(runs := s.rec.runs[id := done]), Handed(s, s.rec.runs[id].pub, true))
  {
    var pub := s.rec.runs[id].pub;
    RunMoves(s.queue, s.rec, s.log, id, done);
    if IsCurrent(s, pub) {
      UndeliveredMore(s.queue, s.rec.(runs := s.rec.runs[id := done]), s.log, Delivery(pub, true, s.shared, s.queue.revision));
    }
  }

  lemma DrainDeliveryInv(s: State, step: Step, t: State)
    requires Inv(s) && DrainStep(s, step, t) && step.DrainDelivers?
    ensures Inv(t)
  {
    DrainHands(s, step.id);
    HandedOk(s, s.queue.drains[step.id].pub, true);
  }

  /** A supplement is no full snapshot, however late it comes. */
  lemma SupplementInv(s: State, pub: Publication, t: State)
    requires Inv(s) && OutsideStep(s, Supplement(pub), t)
    ensures Inv(t)
  {
    HandedOk(s, pub, false);
  }

  lemma DrainResumesInv(s: State, step: Step, t: State)
    requires Inv(s) && DrainStep(s, step, t) && step.DrainResumes?
    ensures Inv(t)
  {
    PumpedSingle(s, s.queue, step.id);
    PumpedDistinct(s, s.queue, step.id, s.rec, s.log);
  }

  /** A drain that has ended leaves nobody behind. */
  lemma DrainLeaves(q: Queue, id: nat, rec: Recoveries, log: seq<Delivery>)
    requires SingleFlight(q) && Distinct(q, rec) && Undelivered(q, rec, log) && id in q.drains && q.drains[id].Ended?
    ensures var left := q.(drains := q.drains - {id}, active := None);
            && q.active == Some(id) && left.drains == map[]
            && Distinct(left, rec) && Undelivered(left, rec, log) && (q.pending.None? ==> SingleFlight(left))
  {
    assert q.drains - {id} == map[];
  }

  /** ... and one with a request to take up starts over. */
  lemma DrainRestarts(s: State, left: Queue, rec: Recoveries, log: seq<Delivery>)
    requires left.active.None? && left.drains == map[] && Distinct(left, rec) && Undelivered(left, rec, log)
    ensures SingleFlight(Started(s, left)) && Distinct(Started(s, left), rec) && Undelivered(Started(s, left), rec, log)
  {
    var started := left.(active := Some(left.nextDrain), nextDrain := left.nextDrain + 1);
    PumpedSingle(s, started, left.nextDrain);
    PumpedDistinct(s, started, left.nextDrain, rec, log);
  }

  /** Only the queue changes. */
  lemma QueueInv(s: State, q: Queue, t: State)
    requires Inv(s) && SingleFlight(q) && Distinct(q, s.rec) && Undelivered(q, s.rec, s.log) && t == s.(queue := q)
    ensures Inv(t)
  {
  }

  lemma DrainCompletesInv(s: State, step: Step, t: State)
    requires Inv(s) && DrainStep(s, step, t) && step.DrainCompletes?
    ensures Inv(t)
  {
    DrainLeaves(s.queue, step.id, s.rec, s.log);
    var left := s.queue.(drains := s.queue.drains - {step.id}, active := None);
    if s.queue.pending.Some? {
      DrainRestarts(s, left, s.rec, s.log);
      QueueInv(s, Started(s, left), t);
    } else {
      QueueInv(s, left, t);
    }
  }

  lemma FailedInv(s: State, t: State)
    requires Inv(s) && RecoveryStep(s, IndexFailed, t)
    ensures Inv(t)
  {
  }

  /** A recovery that moves on keeps its revision or gives it up. */
  lemma RunMoves(q: Queue, rec: Recoveries, log: seq<Delivery>, id: nat, next: Recovery)
    requires Distinct(q, rec) && RunsNumbered(rec) && id in rec.runs
    requires HasPub(next) ==> HasPub(rec.runs[id]) && next.pub == rec.runs[id].pub
    ensures var rec' := rec.(runs := rec.runs[id := next]);
            Distinct(q, rec') && RunsNumbered(rec') && (Undelivered(q, rec, log) ==> Undelivered(q, rec', log))
  {
  }

  lemma RecoveryDeliversInv(s: State, step: Step, t: State)
    requires Inv(s) && RecoveryStep(s, step, t) && step.RecoveryDelivers?
    ensures Inv(t)
  {
    var pub := s.rec.runs[step.id].pub;
    var next := Settled(pub, step.ok && IsCurrent(s, pub));
    RunMoves(s.queue, s.rec, s.log, step.id, next);
    RecoveryHands(s, step.id, next);
    HandedOk(s, pub, true);
  }

  lemma RecoveryReadInv(s: State, step: Step, t: State)
    requires Inv(s) && RecoveryStep(s, step, t) && (step.RecoveryReads? || step.RecoverySettles?)
    ensures Inv(t)
  {
    RunMoves(s.queue, s.rec, s.log, step.id, t.rec.runs[step.id]);
  }

  lemma RecoveryConcludesInv(s: State, step: Step, t: State)
    requires Inv(s) && RecoveryStep(s, step, t) && step.RecoveryConcludes?
    ensures Inv(t)
  {
    EnqueuedOk(s, s.rec, s.log);
  }

  lemma OutsideInv(s: State, step: Step, t: State)
    requires Inv(s) && OutsideStep(s, step, t)
    ensures Inv(t)
  {
    if step.Supplement? {
      SupplementInv(s, step.pub, t);
    } else if step.IndexTasks? {
      EnqueuedOk(s.(shared := s.shared.(ready := true), rec := s.rec.(presencePending := false)), s.rec, s.log);
    } else if step.Republish? {
      EnqueuedOk(s, s.rec, s.log);
    }
  }

  lemma NextInv(s: State, step: Step, t: State)
    requires Inv(s) && Next(s, step, t)
    ensures Inv(t)
  {
    if DrainStep(s, step, t) {
      if step.DrainDelivers? {
        DrainDeliveryInv(s, step, t);
      } else if step.DrainResumes? {
        DrainResumesInv(s, step, t);
      } else {
        DrainCompletesInv(s, step, t);
      }
    } else if RecoveryStep(s, step, t) {
      if step.IndexFailed? {
        FailedInv(s, t);
      } else if step.RecoveryDelivers? {
        RecoveryDeliversInv(s, step, t);
      } else if step.RecoveryConcludes? {
        RecoveryConcludesInv(s, step, t);
      } else {
        RecoveryReadInv(s, step, t);
      }
    } else {
      OutsideInv(s, step, t);
    }
  }

  lemma {:induction false} RunInv(run: seq<State>, i: nat)
    requires Run(run) && i < |run|
    ensures Inv(run[i])
  {
    if i > 0 {
      RunInv(run, i - 1);
      assert StepAt(run, i);
      var step :| Next(run[i - 1], step, run[i]);
      NextInv(run[i - 1], step, run[i]);
    }
  }

  // -------------------------------------------------------------- theorems

  /** In every run, every update was handed over for the epoch, account and client
      generation current at that moment, and for the latest revision. */
  lemma UpdatesAreCurrent(run: seq<State>, i: nat, k: nat)
    requires Run(run) && i < |run| && k < |run[i].log|
    ensures CurrentDelivery(run[i].log[k], run[i].epoch, run[i].uid)
  {
    RunInv(run, i);
  }

  /** In every run no update, supplements included, carries an older revision than one
      before it, and full snapshots carry strictly increasing ones. */
  lemma SnapshotsIncrease(run: seq<State>, i: nat, j: nat, k: nat)
    requires Run(run) && i < |run| && j < k < |run[i].log|
    ensures run[i].log[j].pub.revision <= run[i].log[k].pub.revision
    ensures run[i].log[j].full && run[i].log[k].full ==> run[i].log[j].pub.revision < run[i].log[k].pub.revision
  {
    RunInv(run, i);
  }

  /** In every run drains are single-flight, and a pending publication has a drain. */
  lemma DrainsAreSingleFlight(run: seq<State>, i: nat, a: nat, b: nat)
    requires Run(run) && i < |run|
    ensures a in run[i].queue.drains && b in run[i].queue.drains ==> a == b
    ensures run[i].queue.pending.Some? ==> run[i].queue.active.Some? && run[i].queue.active.value in run[i].queue.drains
  {
    RunInv(run, i);
  }

  /** The drain has started a publication of its own, newer than any before. */
  ghost predicate Publishes(s: State, t: State, generation: nat) {
    exists id :: id in t.queue.drains && t.queue.drains[id] == Publishing(Publication(s.queue.revision + 1, generation))
  }

  /** The request no longer stands: the subscription is over or not ready, or another
      client has taken over. */
  predicate Superseded(s: State, generation: nat) {
    !Live(s) || generation != s.shared.generation
  }

  /** A pending request leaves the queue only to start a publication after it, because
      it is superseded, or because a recovery or the unsubscribe drops it. */
  lemma EnqueueIsServed(s: State, step: Step, t: State)
    requires Inv(s) && Next(s, step, t) && s.queue.pending.Some? && t.queue.pending.None?
    ensures Publishes(s, t, s.queue.pending.value) || Superseded(s, s.queue.pending.value) || step.IndexFailed? || step.Unsubscribe?
  {
    if step.DrainResumes? && !Superseded(s, s.queue.pending.value) {
      assert t.queue.drains[step.id] == Publishing(Publication(s.queue.revision + 1, s.queue.pending.value));
    }
    if step.DrainCompletes? && !Superseded(s, s.queue.pending.value) {
      assert t.queue.drains[s.queue.nextDrain] == Publishing(Publication(s.queue.revision + 1, s.queue.pending.value));
    }
  }

  /** An enqueue that finds no drain starts its publication at once; one that finds a
      drain is left pending for it. */
  lemma EnqueueStartsOrWaits(s: State)
    requires Inv(s) && Live(s)
    ensures var q := Enqueued(s);
            || (q.pending == Some(s.shared.generation) && q.active.Some? && q.active.value in q.drains)
            || Publishes(s, s.(queue := q), s.shared.generation)
  {
    if s.queue.active.None? {
      assert Enqueued(s).drains[s.queue.nextDrain] == Publishing(Publication(s.queue.revision + 1, s.shared.generation));
    }
  }

  /** A run together with the steps it takes. */
  ghost predicate TakenAt(run: seq<State>, steps: seq<Step>, k: nat) {
    k < |steps| && k + 1 < |run| && Next(run[k], steps[k], run[k + 1])
  }

  ghost predicate Taken(run: seq<State>, steps: seq<Step>) {
    |run| == |steps| + 1 && Initial(run[0]) && forall k :: 0 <= k < |steps| ==> TakenAt(run, steps, k)
  }

  lemma TakenIsRun(run: seq<State>, steps: seq<Step>)
    requires Taken(run, steps)
    ensures Run(run)
  {
    forall i | 0 < i < |run| ensures StepAt(run, i) {
      assert TakenAt(run, steps, i - 1);
    }
  }

  /** The step asks for a publication: an index snapshot, a republish outside a
      recovery, or the republish a recovery put off. */
  predicate Enqueues(s: State, step: Step) {
    || (step.IndexTasks? && Owner(s))
    || (step.Republish? && Live(s) && s.rec.current.None?)
    || (step.RecoveryConcludes? && step.id in s.rec.runs && s.rec.current == Some(step.id) && s.rec.runs[step.id].Concluded?
        && s.rec.runs[step.id].succeeded && s.rec.presencePending && Live(s))
  }

  /** A publication newer than a revision is under way. */
  ghost predicate Newer(s: State, revision: nat, generation: nat) {
    exists id :: id in s.queue.drains && s.queue.drains[id].Publishing?
                 && s.queue.drains[id].pub.revision > revision && s.queue.drains[id].pub.generation == generation
  }

  /** Some state on the way publishes it. */
  ghost predicate Served(run: seq<State>, i: nat, j: nat, revision: nat, generation: nat) {
    exists k :: i < k <= j < |run| && Newer(run[k], revision, generation)
  }

  /** Nothing drops the request at this state: it is not superseded, and no recovery
      begins and nobody unsubscribes. */
  ghost predicate Stands(run: seq<State>, steps: seq<Step>, k: nat, generation: nat) {
    k < |steps| && k < |run| && !Superseded(run[k], generation) && !steps[k].IndexFailed? && !steps[k].Unsubscribe?
  }

  lemma RevisionGrows(s: State, step: Step, t: State)
    requires Next(s, step, t)
    ensures s.queue.revision <= t.queue.revision
  {
  }

  lemma PublishesIsNewer(s: State, t: State, revision: nat, generation: nat)
    requires Publishes(s, t, generation) && revision <= s.queue.revision
    ensures Newer(t, revision, generation)
  {
    var id :| id in t.queue.drains && t.queue.drains[id] == Publishing(Publication(s.queue.revision + 1, generation));
  }

  /** An enqueue starts its publication at once or leaves the request pending. */
  lemma EnqueueTakes(s: State, step: Step, t: State)
    requires Inv(s) && Next(s, step, t) && Enqueues(s, step)
    ensures t.queue.pending == Some(s.shared.generation) || Publishes(s, t, s.shared.generation)
  {
    var live := if step.IndexTasks? then s.(shared := s.shared.(ready := true), rec := s.rec.(presencePending := false)) else s;
    assert t.queue == Enqueued(live);
    EnqueueStartsOrWaits(live);
  }

  /** A request that stands stays pending, is replaced by an equal one, or is taken up. */
  lemma RequestKept(s: State, step: Step, t: State, generation: nat)
    requires Inv(s) && Next(s, step, t) && s.queue.pending == Some(generation)
    requires !Superseded(s, generation) && !step.IndexFailed? && !step.Unsubscribe?
    ensures t.queue.pending == Some(generation) || Publishes(s, t, generation)
  {
    if t.queue.pending.None? {
      EnqueueIsServed(s, step, t);
    }
  }

  lemma {:induction false} RequestServed(run: seq<State>, steps: seq<Step>, i: nat, j: nat, generation: nat)
    requires Taken(run, steps) && i < j < |run| && Enqueues(run[i], steps[i]) && generation == run[i].shared.generation
    requires forall k :: i < k < j ==> Stands(run, steps, k, generation)
    ensures run[i].queue.revision <= run[j].queue.revision
    ensures run[j].queue.pending == Some(generation) || Served(run, i, j, run[i].queue.revision, generation)
    decreases j
  {
    TakenIsRun(run, steps);
    RunInv(run, j - 1);
    assert TakenAt(run, steps, j - 1);
    RevisionGrows(run[j - 1], steps[j - 1], run[j]);
    if i == j - 1 {
      EnqueueTakes(run[i], steps[i], run[j]);
    } else {
      RequestServed(run, steps, i, j - 1, generation);
      assert Stands(run, steps, j - 1, generation);
      if run[j - 1].queue.pending == Some(generation) {
        RequestKept(run[j - 1], steps[j - 1], run[j], generation);
      } else {
        var k :| i < k <= j - 1 && Newer(run[k], run[i].queue.revision, generation);
        assert Served(run, i, j, run[i].queue.revision, generation);
      }
    }
    if run[j].queue.pending != Some(generation) && Publishes(run[j - 1], run[j], generation) {
      PublishesIsNewer(run[j - 1], run[j], run[i].queue.revision, generation);
    }
  }

  /** In every run, an enqueue that is not superseded or dropped is followed, by the
      time nothing is pending any more, by a publication that starts after it. */
  lemma EnqueueIsServedInRun(run: seq<State>, steps: seq<Step>, i: nat, j: nat)
    requires Taken(run, steps) && i < j < |run| && Enqueues(run[i], steps[i]) && run[j].queue.pending.None?
    requires forall k :: i < k < j ==> Stands(run, steps, k, run[i].shared.generation)
    ensures Served(run, i, j, run[i].queue.revision, run[i].shared.generation)
  {
    RequestServed(run, steps, i, j, run[i].shared.generation);
  }

  /** The drain that holds a pending request can always go on: its next move, or the
      one after its publication returns, takes the request up. */
  lemma PendingCanMove(s: State) returns (step: Step, t: State)
    requires Inv(s) && s.queue.pending.Some?
    ensures Next(s, step, t) && (t.queue.pending.None? || step.DrainDelivers?)
    ensures step.DrainDelivers? ==> t.queue.pending == s.queue.pending && t.queue.drains[step.id].Returned?
  {
    var id := s.queue.active.value;
    match s.queue.drains[id]
    case Publishing(pub) =>
      step := DrainDelivers(id, false);
      t := s.(queue := s.queue.(drains := s.queue.drains[id := Returned]));
    case Returned =>
      step, t := DrainResumes(id), s.(queue := Pumped(s, s.queue, id));
    case Ended =>
      step := DrainCompletes(id);
      t := s.(queue := Started(s, s.queue.(drains := s.queue.drains - {id}, active := None)));
  }
}
