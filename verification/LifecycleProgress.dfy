/**
 What is published of an incarnation, exactly, and that an id can be used again exactly
 as long as no Kill of it is deadlocked.
 */
module LifecycleProgress {
  import opened Common
  import opened Lifecycle
  import opened Paths

  // ------------------------------------------------------- what is published, exactly

  /** What holds of every incarnation: it is retired or registered, if it was ever made;
      it is announced unless it is arriving; its exit is published when it is retired,
      save on its way out and when its Kill failed to signal; and only a retired one is
      asked to stop. */
  ghost predicate ToldOf(reg: Registry, h: Holder, unkilled: set<Inc>, log: seq<Event>, i: Inc) {
    && (i in reg.retired <==> i < reg.next && reg.current != Some(i))
    && (Announced(log, i) <==> i < reg.next && Arriving(h) != Some(i))
    && (Ended(log, i) <==> i in reg.retired && Departing(h) != Some(i) && i !in unkilled)
    && (i in reg.stopAsked || i in unkilled ==> i in reg.retired)
    && (i in unkilled ==> Departing(h) != Some(i))
  }

  ghost predicate Told(s: State) {
    forall i: Inc :: ToldOf(s.reg, s.holder, s.unkilled, s.log, i)
  }

  lemma SnocSays(log: seq<Event>, e: Event, i: Inc)
    ensures Announced(log + [e], i) <==> Announced(log, i) || e == Created(i)
    ensures Ended(log + [e], i) <==> Ended(log, i) || (e.Exit? && e.inc == i)
  {
    var more := log + [e];
    assert more[|log|] == e;
    if Announced(log, i) {
      var k :| 0 <= k < |log| && log[k] == Created(i);
      assert more[k] == Created(i);
    }
    if Ended(log, i) {
      var k :| 0 <= k < |log| && log[k].Exit? && log[k].inc == i;
      assert more[k] == log[k];
    }
  }

  lemma SpawnTold(s: State, step: Step, t: State, i: Inc)
    requires SlotOk(s.reg, s.holder) && ToldOf(s.reg, s.holder, s.unkilled, s.log, i) && SpawnStep(s, step, t)
    ensures ToldOf(t.reg, t.holder, t.unkilled, t.log, i)
  {
    if step.Announce? {
      SnocSays(s.log, Created(s.holder.inc), i);
    }
  }

  lemma KillTold(s: State, step: Step, t: State, i: Inc)
    requires SlotOk(s.reg, s.holder) && ToldOf(s.reg, s.holder, s.unkilled, s.log, i) && KillStep(s, step, t)
    ensures ToldOf(t.reg, t.holder, t.unkilled, t.log, i)
  {
    if step.PublishKilled? {
      SnocSays(s.log, Exit(s.holder.inc, true), i);
    }
  }

  lemma ReaderTold(s: State, step: Step, t: State, i: Inc)
    requires SlotOk(s.reg, s.holder) && ToldOf(s.reg, s.holder, s.unkilled, s.log, i) && ReaderStep(s, step, t)
    ensures ToldOf(t.reg, t.holder, t.unkilled, t.log, i)
  {
    if step.PublishExit? {
      SnocSays(s.log, Exit(s.holder.inc, false), i);
    }
  }

  lemma NextTold(s: State, step: Step, t: State, i: Inc)
    requires SlotOk(s.reg, s.holder) && Told(s) && Next(s, step, t)
    ensures ToldOf(t.reg, t.holder, t.unkilled, t.log, i)
  {
    assert ToldOf(s.reg, s.holder, s.unkilled, s.log, i);
    if SpawnStep(s, step, t) {
      SpawnTold(s, step, t, i);
    } else if KillStep(s, step, t) {
      KillTold(s, step, t, i);
    } else if ReaderStep(s, step, t) {
      ReaderTold(s, step, t, i);
    }
  }

  lemma LinkTold(s: State, t: State)
    requires SlotOk(s.reg, s.holder) && Told(s) && Linked(s, t)
    ensures Told(t)
  {
    var step :| Next(s, step, t);
    forall i: Inc ensures ToldOf(t.reg, t.holder, t.unkilled, t.log, i) {
      NextTold(s, step, t, i);
    }
  }

  lemma {:induction false} RunTold(run: seq<State>, i: nat)
    requires Run(run) && i < |run|
    ensures Told(run[i])
  {
    if i > 0 {
      RunTold(run, i - 1);
      RunSlots(run, i - 1);
      assert StepAt(run, i);
      LinkTold(run[i - 1], run[i]);
    }
  }

  /** In every run, of every incarnation ever made: its SessionCreated is published if and
      only if it is not still being spawned, and its Exit if and only if it is no longer
      registered, is not on its way out, and no Kill failed to signal it. */
  lemma PublishedExactly(run: seq<State>, i: nat, inc: Inc)
    requires Run(run) && i < |run| && inc < run[i].reg.next
    ensures Announced(run[i].log, inc) <==> Arriving(run[i].holder) != Some(inc)
    ensures Ended(run[i].log, inc) <==>
              run[i].reg.current != Some(inc) && Departing(run[i].holder) != Some(inc) && inc !in run[i].unkilled
  {
    RunTold(run, i);
    assert ToldOf(run[i].reg, run[i].holder, run[i].unkilled, run[i].log, inc);
  }

  /** The reader of a registered session stops without taking the session out exactly when
      it cannot start reading, or has end of file in a daemon that handed its sessions over. */
  lemma StopsRegisteredIff(s: State, step: Step, t: State, i: Inc)
    requires SlotOk(s.reg, s.holder) && Told(s) && Next(s, step, t)
    requires s.reg.current == t.reg.current == Some(i) && i in s.readers && !s.readers[i].Stopped?
    ensures i in t.readers && (t.readers[i].Stopped? <==> step == ReaderFails(i) || (step == ReaderLocks(i) && !s.daemon.running))
  {
    assert ToldOf(s.reg, s.holder, s.unkilled, s.log, i);
    if ReaderStep(s, step, t) {
      ReaderStopsIff(s, step, t, i);
    } else {
      OthersKeepReader(s, step, t, i);
    }
  }

  lemma ReaderStopsIff(s: State, step: Step, t: State, i: Inc)
    requires SlotOk(s.reg, s.holder) && ReaderStep(s, step, t) && !Withdrawn(s.reg, i)
    requires s.reg.current == t.reg.current == Some(i) && i in s.readers && !s.readers[i].Stopped?
    ensures i in t.readers && (t.readers[i].Stopped? <==> step == ReaderFails(i) || (step == ReaderLocks(i) && !s.daemon.running))
  {
  }

  lemma OthersKeepReader(s: State, step: Step, t: State, i: Inc)
    requires SlotOk(s.reg, s.holder) && Next(s, step, t) && !ReaderStep(s, step, t)
    requires i in s.readers && !s.readers[i].Stopped?
    ensures i in t.readers && !t.readers[i].Stopped? && step != ReaderFails(i) && step != ReaderLocks(i)
  {
    if SpawnStep(s, step, t) {
      SpawnKeepsReader(s, step, t, i);
    } else if KillStep(s, step, t) {
      KillUnderKill(s, step, t);
    }
  }

  lemma SpawnKeepsReader(s: State, step: Step, t: State, i: Inc)
    requires SpawnStep(s, step, t) && i in s.readers && !s.readers[i].Stopped?
    ensures i in t.readers && !t.readers[i].Stopped?
  {
  }

  // ----------------------------------------------------- where the system can go

  lemma Onward(s: State, step: Step, t: State)
    requires Reachable(s) && Next(s, step, t)
    ensures Reachable(t) && Follows(Linked, s, t)
  {
    Reach(s, step, t);
    assert Linked(s, t);
    FollowsStep(Linked, s, t);
  }

  lemma ReachableInv(s: State)
    requires Reachable(s)
    ensures SlotOk(s.reg, s.holder) && Fenced(s) && ReadersKnown(s.reg, s.holder, s.readers)
  {
    var run :| Run(run) && run[|run| - 1] == s;
    RunInv(run, |run| - 1);
  }

  lemma ReachableTold(s: State)
    requires Reachable(s)
    ensures Told(s)
  {
    var run :| Run(run) && run[|run| - 1] == s;
    RunTold(run, |run| - 1);
  }

  // ------------------------------------------------------- each operation can finish

  /** The lock is free again, and this is what happened meanwhile. */
  ghost predicate Rests(s: State, t: State, news: seq<Event>, current: Option<Inc>) {
    && Reachable(t) && Follows(Linked, s, t) && t.holder.Nobody? && t.daemon == s.daemon
    && t.log == s.log + news && t.reg.current == current && s.reg.next <= t.reg.next
  }

  lemma RestsAfter(s: State, step: Step, u: State, t: State, news: seq<Event>, more: seq<Event>, current: Option<Inc>)
    requires Next(s, step, u) && u.daemon == s.daemon && u.log == s.log + news && s.reg.next <= u.reg.next && Rests(u, t, more, current)
    ensures Rests(s, t, news + more, current)
  {
    assert Linked(s, u);
    FollowsAfter(Linked, s, u, t);
    Assoc(s.log, news, more);
  }

  /** A step that publishes nothing. */
  lemma RestsQuietly(s: State, step: Step, u: State, t: State, more: seq<Event>, current: Option<Inc>)
    requires Next(s, step, u) && u.daemon == s.daemon && u.log == s.log && s.reg.next <= u.reg.next && Rests(u, t, more, current)
    ensures Rests(s, t, more, current)
  {
    assert s.log + [] == s.log && [] + more == more;
    RestsAfter(s, step, u, t, [], more, current);
  }

  lemma AnnounceRests(s: State) returns (t: State)
    requires Reachable(s) && s.holder.SpawnAnnounce?
    ensures Rests(s, t, [Created(s.holder.inc)], Some(s.holder.inc))
  {
    ReachableInv(s);
    t := s.(log := s.log + [Created(s.holder.inc)], holder := Nobody);
    Onward(s, Announce, t);
  }

  lemma StartRests(s: State) returns (t: State)
    requires Reachable(s) && s.holder.SpawnStart?
    ensures Rests(s, t, [Created(s.holder.inc)], Some(s.holder.inc))
  {
    var u := s.(readers := s.readers[s.holder.inc := Starting], holder := SpawnAnnounce(s.holder.inc));
    Onward(s, StartReader, u);
    t := AnnounceRests(u);
    RestsQuietly(s, StartReader, u, t, [Created(s.holder.inc)], Some(s.holder.inc));
  }

  lemma PrepareRests(s: State) returns (t: State)
    requires Reachable(s) && s.holder.SpawnPrepare?
    ensures Rests(s, t, [Created(s.holder.inc)], Some(s.holder.inc))
  {
    var u := s.(entries := Prepared(s.entries, s.holder.inc, false), holder := SpawnStart(s.holder.inc));
    Onward(s, Prepare(false), u);
    t := StartRests(u);
    RestsQuietly(s, Prepare(false), u, t, [Created(s.holder.inc)], Some(s.holder.inc));
  }

  /** Nothing refuses a Spawn that began: no teardown mark is left. */
  lemma InstallRests(s: State) returns (t: State)
    requires Reachable(s) && s.holder.SpawnInstall?
    ensures Rests(s, t, [Created(s.reg.next)], Some(s.reg.next))
  {
    ReachableInv(s);
    var u := s.(reg := s.reg.(current := Some(s.reg.next), next := s.reg.next + 1), holder := SpawnPrepare(s.reg.next));
    Onward(s, Install, u);
    t := PrepareRests(u);
    RestsQuietly(s, Install, u, t, [Created(s.reg.next)], Some(s.reg.next));
  }

  /** From every reachable moment at which a serving, unsealed daemon has no session under
      the id and nobody at work on it, a Spawn can get to SessionCreated. */
  lemma SpawnCanSucceed(s: State) returns (t: State)
    requires Reachable(s) && s.holder.Nobody? && s.daemon.running && !s.daemon.sealed && s.reg.current.None?
    ensures Rests(s, t, [Created(s.reg.next)], Some(s.reg.next))
  {
    ReachableInv(s);
    var u := s.(holder := SpawnInstall);
    Onward(s, BeginSpawn(true), u);
    t := InstallRests(u);
    RestsQuietly(s, BeginSpawn(true), u, t, [Created(s.reg.next)], Some(s.reg.next));
  }

  lemma CleanRests(s: State) returns (t: State)
    requires Reachable(s) && s.holder.KillClean?
    ensures Rests(s, t, [], None)
  {
    ReachableInv(s);
    t := s.(reg := s.reg.(tomb := false), entries := s.entries - {ClientsSlot, SizesSlot}, holder := Nobody);
    Onward(s, CleanKilled, t);
    assert s.log + [] == s.log;
  }

  lemma PublishRests(s: State) returns (t: State)
    requires Reachable(s) && s.holder.KillPublish?
    ensures Rests(s, t, [Exit(s.holder.inc, true)], None)
  {
    var e := Exit(s.holder.inc, true);
    var u := s.(log := s.log + [e], entries := s.entries - {RecoverySlot}, holder := KillClean);
    Onward(s, PublishKilled, u);
    t := CleanRests(u);
    assert [e] + [] == [e];
    RestsAfter(s, PublishKilled, u, t, [e], [], None);
  }

  lemma StoppedRests(s: State) returns (t: State)
    requires Reachable(s) && s.holder.KillWait? && s.holder.inc in s.readers && s.readers[s.holder.inc].Stopped?
    ensures Rests(s, t, [Exit(s.holder.inc, true)], None)
  {
    var u := s.(entries := s.entries - {FanoutSlot}, holder := KillPublish(s.holder.inc));
    Onward(s, SeeStopped, u);
    t := PublishRests(u);
    RestsQuietly(s, SeeStopped, u, t, [Exit(s.holder.inc, true)], None);
  }

  /** A reader that does not wait for the lock has stopped, or its next look at the stop
      flag lets Kill go on, publish the exit and clean up. */
  lemma WaitRests(s: State) returns (t: State)
    requires Reachable(s) && s.holder.KillWait? && !Awaits(s, s.holder.inc)
    ensures Rests(s, t, [Exit(s.holder.inc, true)], None)
  {
    ReachableInv(s);
    var i := s.holder.inc;
    if s.readers[i].Stopped? {
      t := StoppedRests(s);
    } else {
      var u := s.(readers := s.readers[i := Stopped]);
      var step := if s.readers[i].Starting? then ReaderFails(i) else ReaderStops(i);
      Onward(s, step, u);
      t := StoppedRests(u);
      RestsQuietly(s, step, u, t, [Exit(i, true)], None);
    }
  }

  /** A Kill that has not signalled yet: a signal that fails leaves no exit behind. */
  lemma SignalRests(s: State) returns (news: seq<Event>, t: State)
    requires Reachable(s) && s.holder.KillSignal?
    ensures Rests(s, t, news, None)
    ensures s.holder.target.Some? && !Awaits(s, s.holder.target.value) ==> news == [Exit(s.holder.target.value, true)]
  {
    if s.holder.target.Some? && !Awaits(s, s.holder.target.value) {
      var i := s.holder.target.value;
      var u := s.(reg := s.reg.(stopAsked := s.reg.stopAsked + {i}), holder := KillWait(i));
      Onward(s, Signal(true), u);
      t := WaitRests(u);
      news := [Exit(i, true)];
      RestsQuietly(s, Signal(true), u, t, news, None);
    } else {
      t := FailRests(s);
      news := [];
    }
  }

  lemma FailRests(s: State) returns (t: State)
    requires Reachable(s) && s.holder.KillSignal?
    ensures Rests(s, t, [], None)
  {
    var u := s.(entries := s.entries - {FanoutSlot}, holder := KillClean);
    if s.holder.target.Some? {
      var i := s.holder.target.value;
      u := u.(reg := s.reg.(stopAsked := s.reg.stopAsked + {i}), unkilled := s.unkilled + {i});
    }
    Onward(s, Signal(false), u);
    t := CleanRests(u);
    RestsQuietly(s, Signal(false), u, t, [], None);
  }

  lemma ClaimRests(s: State) returns (news: seq<Event>, t: State)
    requires Reachable(s) && s.holder.KillClaim?
    ensures Rests(s, t, news, None)
    ensures s.reg.current.Some? && !Awaits(s, s.reg.current.value) ==> news == [Exit(s.reg.current.value, true)]
  {
    ReachableInv(s);
    var u := s.(holder := KillSignal(s.reg.current));
    if s.reg.current.Some? {
      u := u.(reg := s.reg.(current := None, retired := s.reg.retired + {s.reg.current.value}, tomb := true));
    }
    Onward(s, Claim, u);
    news, t := SignalRests(u);
    RestsQuietly(s, Claim, u, t, news, None);
  }

  /** A Kill of a session whose reader is not waiting for the lock can publish its exit and
      leave the id free. */
  lemma KillCanSucceed(s: State) returns (t: State)
    requires Reachable(s) && s.holder.Nobody? && s.daemon.running && !s.daemon.sealed
    requires s.reg.current.Some? && !Awaits(s, s.reg.current.value)
    ensures Rests(s, t, [Exit(s.reg.current.value, true)], None)
  {
    ReachableInv(s);
    var u := s.(holder := KillClaim);
    Onward(s, BeginKill, u);
    var news;
    news, t := ClaimRests(u);
    RestsQuietly(s, BeginKill, u, t, news, None);
  }

  lemma CleanExitRests(s: State) returns (t: State)
    requires Reachable(s) && s.holder.ExitClean?
    ensures Rests(s, t, [], None)
  {
    ReachableInv(s);
    t := s.(entries := s.entries - ALL_SLOTS, readers := s.readers[s.holder.inc := Stopped], holder := Nobody);
    Onward(s, CleanExit, t);
    assert s.log + [] == s.log;
  }

  lemma PublishExitRests(s: State) returns (t: State)
    requires Reachable(s) && s.holder.ExitPublish?
    ensures Rests(s, t, [Exit(s.holder.inc, false)], None)
  {
    var e := Exit(s.holder.inc, false);
    var u := s.(log := s.log + [e], holder := ExitClean(s.holder.inc));
    Onward(s, PublishExit, u);
    t := CleanExitRests(u);
    assert [e] + [] == [e];
    RestsAfter(s, PublishExit, u, t, [e], [], None);
  }

  lemma RemoveRests(s: State) returns (news: seq<Event>, current: Option<Inc>, t: State)
    requires Reachable(s) && s.holder.ExitRemove?
    ensures Rests(s, t, news, current)
    ensures s.reg.current == Some(s.holder.inc) ==> news == [Exit(s.holder.inc, false)] && current.None?
  {
    ReachableInv(s);
    var i := s.holder.inc;
    if s.reg.current == Some(i) {
      var u := s.(reg := s.reg.(current := None, retired := s.reg.retired + {i}), holder := ExitPublish(i));
      Onward(s, RemoveSelf, u);
      t := PublishExitRests(u);
      news, current := [Exit(i, false)], None;
      RestsQuietly(s, RemoveSelf, u, t, news, current);
    } else {
      t := s.(readers := s.readers[i := Stopped], holder := Nobody);
      Onward(s, RemoveSelf, t);
      assert s.log + [] == s.log;
      news, current := [], s.reg.current;
    }
  }

  /** A reader at end of file can publish its session's exit and leave the id free. */
  lemma ExitCanSucceed(s: State) returns (t: State)
    requires Reachable(s) && s.holder.Nobody? && s.daemon.running && !s.daemon.sealed
    requires s.reg.current.Some? && Awaits(s, s.reg.current.value)
    ensures Rests(s, t, [Exit(s.reg.current.value, false)], None)
  {
    ReachableInv(s);
    ReachableTold(s);
    var i := s.reg.current.value;
    assert ToldOf(s.reg, s.holder, s.unkilled, s.log, i);
    var u := s.(holder := ExitRemove(i));
    Onward(s, ReaderLocks(i), u);
    var news, current;
    news, current, t := RemoveRests(u);
    RestsQuietly(s, ReaderLocks(i), u, t, news, current);
  }

  // ------------------------------------------------------------ exactly when it goes on

  /** Some continuation frees the lock, having published the exit of the incarnation that
      a waiting Kill took. */
  ghost predicate CanFinish(s: State)
    requires s.holder.KillWait?
  {
    exists t :: Follows(Linked, s, t) && t.holder.Nobody? && s.log + [Exit(s.holder.inc, true)] <= t.log
  }

  lemma DeadlockedAfter(s: State, t: State)
    requires Deadlocked(s) && Follows(Linked, s, t)
    ensures Deadlocked(t) && t.log == s.log
  {
    forall a, b | Deadlocked(a) && Linked(a, b) ensures Deadlocked(b) && b.log == a.log {
      var step :| Next(a, step, b);
      DeadlockStays(a, step, b);
    }
    Lasts(Linked, u => Deadlocked(u) && u.log == s.log, s, t);
  }

  lemma BlockedNeverFinishes(s: State)
    requires Deadlocked(s)
    ensures !CanFinish(s)
  {
    forall t | Follows(Linked, s, t) ensures !t.holder.Nobody? {
      DeadlockedAfter(s, t);
    }
  }

  lemma RunReachable(run: seq<State>, j: nat)
    requires Run(run) && j < |run|
    ensures Reachable(run[j])
  {
    var prefix := run[..j + 1];
    forall i | 0 < i < |prefix| ensures StepAt(prefix, i) {
      assert StepAt(run, i);
    }
    assert Run(prefix) && prefix[|prefix| - 1] == run[j];
  }

  /** A Kill that took an incarnation and delivered its signal can get to its end, with
      the exit published and the lock free, if and only if, at the moment it took it, the
      reader was not already waiting for the lock. */
  lemma KillFinishesIff(run: seq<State>, k: nat, j: nat, i: Inc)
    requires Run(run) && 0 < k <= j < |run| && run[k - 1].holder.KillClaim? && run[k].holder == KillSignal(Some(i))
    requires (forall m :: k <= m <= j ==> Claimed(run[m].holder, i)) && run[j].holder == KillWait(i)
    ensures run[k - 1].reg.current == Some(i)
    ensures CanFinish(run[j]) <==> !Awaits(run[k - 1], i)
  {
    assert StepAt(run, k);
    var step :| Next(run[k - 1], step, run[k]);
    TakenByClaim(run[k - 1], step, run[k], i);
    ClaimSettlesRun(run, k, j, i);
    RunReachable(run, j);
    if Awaits(run[j], i) {
      BlockedNeverFinishes(run[j]);
    } else {
      var t := WaitRests(run[j]);
    }
  }

  /** Whatever holds the lock, unless it is a deadlocked Kill, can free it. */
  lemma HolderCanRest(s: State) returns (t: State)
    requires Reachable(s) && !Deadlocked(s)
    ensures Reachable(t) && Follows(Linked, s, t) && t.holder.Nobody? && t.daemon == s.daemon && s.reg.next <= t.reg.next
  {
    match s.holder {
      case Nobody =>
        t := s;
        FollowsItself(Linked, s);
      case SpawnInstall => t := InstallRests(s);
      case SpawnPrepare(_) => t := PrepareRests(s);
      case SpawnStart(_) => t := StartRests(s);
      case SpawnAnnounce(_) => t := AnnounceRests(s);
      case KillClaim => var _, u := ClaimRests(s); t := u;
      case KillSignal(_) => var _, u := SignalRests(s); t := u;
      case KillWait(_) => t := WaitRests(s);
      case KillPublish(_) => t := PublishRests(s);
      case KillClean => t := CleanRests(s);
      case ExitRemove(_) => var _, _, u := RemoveRests(s); t := u;
      case ExitPublish(_) => t := PublishExitRests(s);
      case ExitClean(_) => t := CleanExitRests(s);
    }
  }

  /** A transfer under way can be rolled back. */
  lemma CanBeUnsealed(s: State) returns (t: State)
    requires Reachable(s) && s.holder.Nobody? && s.daemon.running
    ensures Reachable(t) && Follows(Linked, s, t) && t.holder.Nobody? && t.daemon.running && !t.daemon.sealed && t.reg == s.reg
  {
    ReachableInv(s);
    if s.daemon.sealed {
      t := s.(daemon := s.daemon.(sealed := false, transfer := false));
      Onward(s, Rollback, t);
    } else {
      t := s;
      FollowsItself(Linked, s);
    }
  }

  /** The session registered can go, by its own end or by Kill. */
  lemma CanBeVacant(s: State) returns (t: State)
    requires Reachable(s) && s.holder.Nobody? && s.daemon.running && !s.daemon.sealed
    ensures Reachable(t) && Follows(Linked, s, t) && t.holder.Nobody? && t.daemon == s.daemon && t.reg.current.None? && s.reg.next <= t.reg.next
  {
    if s.reg.current.None? {
      t := s;
      FollowsItself(Linked, s);
    } else if Awaits(s, s.reg.current.value) {
      t := ExitCanSucceed(s);
    } else {
      t := KillCanSucceed(s);
    }
  }

  /** Some continuation announces an incarnation that does not exist yet. */
  ghost predicate CanRenew(s: State) {
    exists t, i: Inc :: Follows(Linked, s, t) && s.reg.next <= i && Announced(t.log, i)
  }

  lemma RenewsIdle(s: State)
    requires Reachable(s) && s.holder.Nobody? && s.daemon.running
    ensures CanRenew(s)
  {
    var unsealed := CanBeUnsealed(s);
    var vacant := CanBeVacant(unsealed);
    var t := SpawnCanSucceed(vacant);
    FollowsTwice(Linked, s, unsealed, vacant);
    FollowsTwice(Linked, s, vacant, t);
    assert t.log[|vacant.log|] == Created(vacant.reg.next);
    assert Announced(t.log, vacant.reg.next);
  }

  lemma Renews(s: State)
    requires Reachable(s) && s.daemon.running && !Deadlocked(s)
    ensures CanRenew(s)
  {
    var idle := HolderCanRest(s);
    RenewsIdle(idle);
    var t, i: Inc :| Follows(Linked, idle, t) && idle.reg.next <= i && Announced(t.log, i);
    FollowsTwice(Linked, s, idle, t);
  }

  /** The daemon has handed its sessions over, with this much published. */
  predicate Retired(s: State, log: seq<Event>) {
    !s.daemon.running && s.holder.Nobody? && s.log == log
  }

  /** A daemon that has handed its sessions over serves none any more. */
  lemma RetiredStays(s: State, step: Step, t: State)
    requires Next(s, step, t) && !s.daemon.running && s.holder.Nobody?
    ensures !t.daemon.running && t.holder.Nobody? && t.log == s.log
  {
    if SpawnStep(s, step, t) || KillStep(s, step, t) {
      RefusedWhenRetired(s, step, t);
    } else if ReaderStep(s, step, t) {
      ReaderWhenRetired(s, step, t);
    }
  }

  lemma RefusedWhenRetired(s: State, step: Step, t: State)
    requires (SpawnStep(s, step, t) || KillStep(s, step, t)) && !s.daemon.running && s.holder.Nobody?
    ensures t == s
  {
  }

  lemma ReaderWhenRetired(s: State, step: Step, t: State)
    requires ReaderStep(s, step, t) && !s.daemon.running && s.holder.Nobody?
    ensures t.daemon == s.daemon && t.holder.Nobody? && t.log == s.log
  {
  }

  lemma RetiredLink(s: State, t: State)
    requires Linked(s, t) && !s.daemon.running && s.holder.Nobody?
    ensures !t.daemon.running && t.holder.Nobody? && t.log == s.log
  {
    var step :| Next(s, step, t);
    RetiredStays(s, step, t);
  }

  lemma NothingNew(s: State, t: State)
    requires Reachable(s) && Follows(Linked, s, t) && (Deadlocked(s) || !s.daemon.running)
    ensures t.log == s.log
  {
    if Deadlocked(s) {
      DeadlockedAfter(s, t);
    } else {
      ReachableInv(s);
      forall a, b | Retired(a, s.log) && Linked(a, b) ensures Retired(b, s.log) {
        RetiredLink(a, b);
      }
      Lasts(Linked, u => Retired(u, s.log), s, t);
    }
  }

  /** From every reachable state, whoever holds the lock and however many incarnations
      there were: the id can get a further session, announced, if and only if the daemon
      serves and no Kill of the id is deadlocked. */
  lemma RenewsIff(s: State)
    requires Reachable(s)
    ensures CanRenew(s) <==> s.daemon.running && !Deadlocked(s)
  {
    if s.daemon.running && !Deadlocked(s) {
      Renews(s);
    } else {
      ReachableTold(s);
      forall t, i: Inc | Follows(Linked, s, t) && s.reg.next <= i ensures !Announced(t.log, i) {
        NothingNew(s, t);
        assert ToldOf(s.reg, s.holder, s.unkilled, s.log, i);
      }
    }
  }
}
