/** Runs of a step system. A system is a partial step function: applied to a state
    and an action it gives the next state, or nothing when the action is not
    possible there. */
module Runs {
  import opened Prelude

  type Stepper<!S, !A> = (S, A) -> Option<S>

  ghost predicate Legal<S(!new), A(!new)>(step: Stepper<S, A>, s: S, run: seq<A>)
    decreases |run|
  {
    run == [] || (step(s, run[0]).Some? && Legal(step, step(s, run[0]).value, run[1..]))
  }

  ghost function After<S(!new), A(!new)>(step: Stepper<S, A>, s: S, run: seq<A>): S
    requires Legal(step, s, run)
    decreases |run|
  {
    if run == [] then s else After(step, step(s, run[0]).value, run[1..])
  }

  lemma {:induction false} AfterConcat<S(!new), A(!new)>(step: Stepper<S, A>, s: S, a: seq<A>, b: seq<A>)
    requires Legal(step, s, a) && Legal(step, After(step, s, a), b)
    ensures Legal(step, s, a + b) && After(step, s, a + b) == After(step, After(step, s, a), b)
    decreases |a|
  {
    if a == [] {
      assert a + b == b;
    } else {
      assert (a + b)[1..] == a[1..] + b;
      AfterConcat(step, step(s, a[0]).value, a[1..], b);
    }
  }

  lemma AfterOne<S(!new), A(!new)>(step: Stepper<S, A>, s: S, a: A)
    requires step(s, a).Some?
    ensures Legal(step, s, [a]) && After(step, s, [a]) == step(s, a).value
  {
    assert [a][1..] == [];
  }

  lemma Prepend<S(!new), A(!new)>(step: Stepper<S, A>, s: S, a: A, rest: seq<A>)
    requires step(s, a).Some? && Legal(step, step(s, a).value, rest)
    ensures Legal(step, s, [a] + rest) && After(step, s, [a] + rest) == After(step, step(s, a).value, rest)
  {
    assert ([a] + rest)[1..] == rest;
  }

  ghost predicate Keeps<S(!new), A(!new)>(step: Stepper<S, A>, inv: S -> bool) {
    forall s, a :: inv(s) && step(s, a).Some? ==> inv(step(s, a).value)
  }

  /** What every step keeps holds along every run. */
  lemma {:induction false} RunKeeps<S(!new), A(!new)>(step: Stepper<S, A>, inv: S -> bool, s: S, run: seq<A>)
    requires Keeps(step, inv) && inv(s) && Legal(step, s, run)
    ensures inv(After(step, s, run))
    decreases |run|
  {
    if run != [] {
      RunKeeps(step, inv, step(s, run[0]).value, run[1..]);
    }
  }

  ghost predicate StartsIn<S(!new)>(init: S -> bool, inv: S -> bool) {
    forall s :: init(s) ==> inv(s)
  }

  /** A state is reachable if it meets every invariant: whatever holds initially and
      is kept by every step. That is: if some run leads to it. */
  ghost predicate Meets<S(!new), A(!new)>(step: Stepper<S, A>, init: S -> bool, s: S) {
    forall inv: S -> bool :: StartsIn(init, inv) && Keeps(step, inv) ==> inv(s)
  }

  ghost predicate Leads<S(!new), A(!new)>(step: Stepper<S, A>, init: S -> bool, s0: S, run: seq<A>, s: S) {
    init(s0) && Legal(step, s0, run) && After(step, s0, run) == s
  }

  ghost function SomeRun<S(!new), A(!new)>(step: Stepper<S, A>, init: S -> bool): S -> bool {
    (s: S) => exists s0, run :: Leads(step, init, s0, run, s)
  }

  lemma LeadsOn<S(!new), A(!new)>(step: Stepper<S, A>, init: S -> bool, s0: S, run: seq<A>, s: S, a: A)
    requires Leads(step, init, s0, run, s) && step(s, a).Some?
    ensures Leads(step, init, s0, run + [a], step(s, a).value)
  {
    AfterOne(step, s, a);
    AfterConcat(step, s0, run, [a]);
  }

  lemma SomeRunIsKept<S(!new), A(!new)>(step: Stepper<S, A>, init: S -> bool)
    ensures StartsIn(init, SomeRun(step, init)) && Keeps(step, SomeRun(step, init))
  {
    forall s | init(s) ensures SomeRun(step, init)(s) {
      assert Leads(step, init, s, [], s);
    }
    forall s, a | SomeRun(step, init)(s) && step(s, a).Some? ensures SomeRun(step, init)(step(s, a).value) {
      var s0, run :| Leads(step, init, s0, run, s);
      LeadsOn(step, init, s0, run, s, a);
    }
  }

  lemma ReachableByRun<S(!new), A(!new)>(step: Stepper<S, A>, init: S -> bool, s: S)
    ensures Meets(step, init, s) <==> exists s0, run :: Leads(step, init, s0, run, s)
  {
    if s0, run :| Leads(step, init, s0, run, s) {
      forall inv: S -> bool | StartsIn(init, inv) && Keeps(step, inv) ensures inv(s) {
        RunKeeps(step, inv, s0, run);
      }
    }
    if Meets(step, init, s) {
      SomeRunIsKept(step, init);
      assert SomeRun(step, init)(s);
    }
  }

  /** What an observer sees of a run who sees some of its steps, each in a way of his own. */
  ghost function Seen<S(!new), A(!new)>(step: Stepper<S, A>, sees: (S, A) -> Option<A>, s: S, run: seq<A>): seq<A>
    requires Legal(step, s, run)
    decreases |run|
  {
    if run == [] then [] else Singleton(sees(s, run[0])) + Seen(step, sees, step(s, run[0]).value, run[1..])
  }

  /** Every step seen is a step of the view, and every other leaves the view alone. */
  ghost predicate Observes<S(!new), A(!new)>(
    step: Stepper<S, A>, inv: S -> bool, view: S -> S, sees: (S, A) -> Option<A>)
  {
    forall s, a :: inv(s) && step(s, a).Some? ==>
      if sees(s, a).Some? then step(view(s), sees(s, a).value) == Some(view(step(s, a).value))
      else view(step(s, a).value) == view(s)
  }

  /** Then what is seen of a run is a run of the view. */
  lemma {:induction false} SeenIsRun<S(!new), A(!new)>(
    step: Stepper<S, A>, inv: S -> bool, view: S -> S, sees: (S, A) -> Option<A>, s: S, run: seq<A>)
    requires Keeps(step, inv) && Observes(step, inv, view, sees) && inv(s) && Legal(step, s, run)
    ensures Legal(step, view(s), Seen(step, sees, s, run))
    ensures After(step, view(s), Seen(step, sees, s, run)) == view(After(step, s, run))
    decreases |run|
  {
    if run != [] {
      var t := step(s, run[0]).value;
      SeenIsRun(step, inv, view, sees, t, run[1..]);
      var rest := Seen(step, sees, t, run[1..]);
      if sees(s, run[0]).Some? {
        Prepend(step, view(s), sees(s, run[0]).value, rest);
      } else {
        assert [] + rest == rest;
      }
    }
  }

  /** Every allowed step of the view is what is seen of some step. */
  ghost predicate Reflects<S(!new), A(!new)>(
    step: Stepper<S, A>, inv: S -> bool, view: S -> S, sees: (S, A) -> Option<A>, allowed: A -> bool)
  {
    forall s, b :: inv(s) && allowed(b) && step(view(s), b).Some? ==> IsSeen(step, sees, s, b)
  }

  /** Some step can be taken that is seen as `b`. */
  ghost predicate IsSeen<S(!new), A(!new)>(step: Stepper<S, A>, sees: (S, A) -> Option<A>, s: S, b: A) {
    exists a :: IsSeenAs(step, sees, s, a, b)
  }

  ghost predicate IsSeenAs<S(!new), A(!new)>(step: Stepper<S, A>, sees: (S, A) -> Option<A>, s: S, a: A, b: A) {
    step(s, a).Some? && sees(s, a) == Some(b)
  }

  ghost predicate KeepsSeen<S(!new), A(!new)>(step: Stepper<S, A>, inv: S -> bool, sees: (S, A) -> Option<A>) {
    forall s, a :: inv(s) && step(s, a).Some? && sees(s, a).Some? ==> inv(step(s, a).value)
  }

  /** Then every allowed run of the view is all that is seen of some run as long. */
  lemma {:induction false} ViewRunIsSeen<S(!new), A(!new)>(
    step: Stepper<S, A>, inv: S -> bool, view: S -> S, sees: (S, A) -> Option<A>, allowed: A -> bool,
    s: S, alone: seq<A>)
    returns (run: seq<A>)
    requires KeepsSeen(step, inv, sees) && Observes(step, inv, view, sees) && inv(s)
    requires Reflects(step, inv, view, sees, allowed)
    requires Legal(step, view(s), alone) && forall k :: 0 <= k < |alone| ==> allowed(alone[k])
    ensures Legal(step, s, run) && |run| == |alone| && Seen(step, sees, s, run) == alone
    ensures view(After(step, s, run)) == After(step, view(s), alone)
    decreases |alone|
  {
    if alone == [] {
      run := [];
    } else {
      assert IsSeen(step, sees, s, alone[0]);
      var a :| IsSeenAs(step, sees, s, a, alone[0]);
      var t := step(s, a).value;
      var rest := ViewRunIsSeen(step, inv, view, sees, allowed, t, alone[1..]);
      Prepend(step, s, a, rest);
      run := [a] + rest;
      assert run[1..] == rest && alone == [alone[0]] + alone[1..];
    }
  }

  /** The rounds completed in a run, marked by how much of it lies before and between
      them: in each the state changed as a round is to change it. */
  ghost predicate Rounds<S(!new), A(!new)>(
    step: Stepper<S, A>, s: S, run: seq<A>, marks: seq<nat>, round: (nat, S, S) -> bool)
  {
    && (forall k :: 0 <= k < |marks| ==> marks[k] <= |run| && Legal(step, s, run[..marks[k]]))
    && (forall k :: 0 < k < |marks| ==>
          && marks[k - 1] <= marks[k]
          && round(k - 1, After(step, s, run[..marks[k - 1]]), After(step, s, run[..marks[k]])))
  }

  lemma {:induction false} RoundsGoOn<S(!new), A(!new)>(
    step: Stepper<S, A>, s: S, was: seq<A>, run: seq<A>, marks: seq<nat>, round: (nat, S, S) -> bool)
    requires Rounds(step, s, was, marks, round) && was <= run
    ensures Rounds(step, s, run, marks, round)
  {
    forall k | 0 <= k < |marks| ensures marks[k] <= |run| && run[..marks[k]] == was[..marks[k]] {
    }
  }

  /** One more round, from the last mark to the end of the run. */
  lemma {:induction false} OneMoreRound<S(!new), A(!new)>(
    step: Stepper<S, A>, s: S, was: seq<A>, run: seq<A>, marks: seq<nat>, round: (nat, S, S) -> bool)
    requires marks != [] && marks[|marks| - 1] == |was|
    requires Rounds(step, s, was, marks, round) && was <= run && Legal(step, s, was) && Legal(step, s, run)
    requires round(|marks| - 1, After(step, s, was), After(step, s, run))
    ensures Rounds(step, s, run, marks + [|run|], round)
  {
    RoundsGoOn(step, s, was, run, marks, round);
    assert run[..|run|] == run && run[..|was|] == was;
  }

  /** How many steps of a run are disruptions. */
  ghost function Disruptions<S(!new), A(!new)>(step: Stepper<S, A>, disrupts: (S, A) -> bool, s: S, run: seq<A>): nat
    requires Legal(step, s, run)
    decreases |run|
  {
    if run == [] then 0
    else (if disrupts(s, run[0]) then 1 else 0) + Disruptions(step, disrupts, step(s, run[0]).value, run[1..])
  }

  /** Every step lowers the weight, except that a disruption may raise it by `gain`. */
  ghost predicate Descends<S(!new), A(!new)>(
    step: Stepper<S, A>, inv: S -> bool, weight: S -> int, disrupts: (S, A) -> bool, gain: nat)
  {
    forall s, a :: inv(s) && step(s, a).Some? ==>
      weight(step(s, a).value) <= if disrupts(s, a) then weight(s) + gain else weight(s) - 1
  }

  /** Then a run is no longer than its first weight and its disruptions allow. */
  lemma {:induction false} RunIsBounded<S(!new), A(!new)>(
    step: Stepper<S, A>, inv: S -> bool, weight: S -> int, disrupts: (S, A) -> bool, gain: nat, s: S, run: seq<A>)
    requires Keeps(step, inv) && inv(s) && Legal(step, s, run)
    requires forall t :: inv(t) ==> weight(t) >= 0
    requires Descends(step, inv, weight, disrupts, gain)
    ensures |run| <= weight(s) + (gain + 1) * Disruptions(step, disrupts, s, run)
    decreases |run|
  {
    if run != [] {
      var t := step(s, run[0]).value;
      RunIsBounded(step, inv, weight, disrupts, gain, t, run[1..]);
      var d := Disruptions(step, disrupts, t, run[1..]);
      assert (gain + 1) * (d + 1) == (gain + 1) * d + gain + 1;
    }
  }
}
