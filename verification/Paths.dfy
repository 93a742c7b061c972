/**
 Where a state machine can go, and what it keeps on the way.
 */
module Paths {

  /** The state at the index comes next after the one before it. */
  ghost predicate Leads<S>(next: (S, S) -> bool, path: seq<S>, i: nat) {
    0 < i < |path| && next(path[i - 1], path[i])
  }

  ghost predicate Walk<S>(next: (S, S) -> bool, path: seq<S>) {
    path != [] && forall i :: 0 < i < |path| ==> Leads(next, path, i)
  }

  /** The system can go from one state to the other. */
  ghost predicate Follows<S(!new)>(next: (S, S) -> bool, s: S, t: S) {
    exists path: seq<S> :: Walk(next, path) && path[0] == s && path[|path| - 1] == t
  }

  lemma FollowsItself<S(!new)>(next: (S, S) -> bool, s: S)
    ensures Follows(next, s, s)
  {
    assert Walk(next, [s]);
  }

  lemma WalkOn<S>(next: (S, S) -> bool, path: seq<S>, t: S)
    requires Walk(next, path) && next(path[|path| - 1], t)
    ensures Walk(next, path + [t])
  {
    var more := path + [t];
    forall i | 0 < i < |more| ensures Leads(next, more, i) {
      if i < |path| {
        assert Leads(next, path, i) && more[i] == path[i] && more[i - 1] == path[i - 1];
      } else {
        assert more[i - 1] == path[|path| - 1] && more[i] == t;
      }
    }
  }

  /** One step further. */
  lemma FollowsOn<S(!new)>(next: (S, S) -> bool, s: S, t: S, u: S)
    requires Follows(next, s, t) && next(t, u)
    ensures Follows(next, s, u)
  {
    var path: seq<S> :| Walk(next, path) && path[0] == s && path[|path| - 1] == t;
    WalkOn(next, path, u);
    assert (path + [u])[0] == s && (path + [u])[|path|] == u;
  }

  lemma FollowsStep<S(!new)>(next: (S, S) -> bool, s: S, t: S)
    requires next(s, t)
    ensures Follows(next, s, t)
  {
    FollowsItself(next, s);
    FollowsOn(next, s, s, t);
  }

  lemma {:induction false} LastsAlong<S>(next: (S, S) -> bool, keeps: S -> bool, path: seq<S>, i: nat)
    requires Walk(next, path) && i < |path| && keeps(path[0])
    requires forall a, b :: keeps(a) && next(a, b) ==> keeps(b)
    ensures keeps(path[i])
  {
    if i > 0 {
      LastsAlong(next, keeps, path, i - 1);
      assert Leads(next, path, i);
    }
  }

  /** What every step keeps holds wherever the system goes. */
  lemma Lasts<S(!new)>(next: (S, S) -> bool, keeps: S -> bool, s: S, t: S)
    requires Follows(next, s, t) && keeps(s)
    requires forall a, b :: keeps(a) && next(a, b) ==> keeps(b)
    ensures keeps(t)
  {
    var path: seq<S> :| Walk(next, path) && path[0] == s && path[|path| - 1] == t;
    LastsAlong(next, keeps, path, |path| - 1);
  }

  lemma FollowsTwice<S(!new)>(next: (S, S) -> bool, s: S, t: S, u: S)
    requires Follows(next, s, t) && Follows(next, t, u)
    ensures Follows(next, s, u)
  {
    forall a, b | Follows(next, s, a) && next(a, b) ensures Follows(next, s, b) {
      FollowsOn(next, s, a, b);
    }
    Lasts(next, v => Follows(next, s, v), t, u);
  }

  lemma FollowsAfter<S(!new)>(next: (S, S) -> bool, s: S, t: S, u: S)
    requires next(s, t) && Follows(next, t, u)
    ensures Follows(next, s, u)
  {
    FollowsStep(next, s, t);
    FollowsTwice(next, s, t, u);
  }
}
