/** Draining: why workers left alone come to rest, what a state at rest looks like, and
    what a disconnected worker leaves behind. */
module Draining {
  import opened Prelude
  import opened Topology
  import opened Repository
  import opened Processing
  import opened Runs
  import opened Delivery
  import opened Ledger
  import opened Conservation
  import opened Workload

  // ------------------------------------------------------------------ draining

  /** Steps of the workers and their broker, without new sends. */
  predicate IsWorkerStep(a: Action) {
    !a.Submit? && !a.Redeclare?
  }

  ghost function Workers(cfg: Config): Stepper<State, Action> {
    (s: State, a: Action) => if IsWorkerStep(a) && Enabled(cfg, s, a) then Some(Next(cfg, s, a)) else None
  }

  /** The broker takes a delivery back, or a publish for a live delivery fails. */
  predicate Disrupts(a: Action) {
    a.Lose? || (a.Republish? && !a.ok && a.site.InStore?)
  }

  ghost function Disruptive(): (State, Action) -> bool {
    (s: State, a: Action) => Disrupts(a)
  }

  /** Steps a message can still take: eight for each attempt, and those left in the
      current one. */
  function CopyWeight(cfg: Config, c: Copy): int {
    if c.body.Garbled? || c.queue == DEAD_QUEUE then 0
    else
      var n := 8 * RetriesLeft(cfg, c.body.msg);
      match c.hold
      case Ready => n + 7
      case Held(_, Waiting) => n + 6
      case Held(_, Trying) => n + 5
      case Held(_, Publishing) => n + 4
      case Held(_, Acking) => 1
      case Held(_, Nacking) => n + 8
  }

  function OrphanWeight(cfg: Config, o: Orphan): int {
    if o.body.Garbled? then 1
    else
      var n := 8 * RetriesLeft(cfg, o.body.msg);
      match o.phase
      case Waiting => n + 6
      case Trying => n + 5
      case Publishing => n + 4
      case _ => 1
  }

  ghost function CopyWeights(cfg: Config): Copy -> int { (c: Copy) => CopyWeight(cfg, c) }

  ghost function OrphanWeights(cfg: Config): Orphan -> int { (o: Orphan) => OrphanWeight(cfg, o) }

  ghost function NoEvents(): Event -> int { (e: Event) => 0 }

  ghost function WeightGauge(cfg: Config): Gauge {
    Gauge(CopyWeights(cfg), OrphanWeights(cfg), NoEvents())
  }

  ghost function Weight(cfg: Config): State -> int {
    (s: State) => Total(WeightGauge(cfg), s)
  }

  predicate DisruptiveDeed(d: Deed) {
    d.TakeBack? || (d.Announce? && !d.ok && d.home == AtBroker)
  }

  lemma DeedDescends(cfg: Config, b: nat, d: Deed)
    requires Sensible(cfg, d) && LimitedBy(cfg, b) && !d.Idle? && !d.Enter?
    ensures Delta(cfg, WeightGauge(cfg), d) <= if DisruptiveDeed(d) then 16 * b + 16 else -1
  {
    assert Cap(cfg, LaneOf(d.m)) <= b;
  }

  lemma DeedKind(cfg: Config, s: State, a: Action)
    requires Inv(cfg, s) && Enabled(cfg, s, a) && IsWorkerStep(a)
    ensures var d := DeedOf(cfg, s, a); !d.Idle? && !d.Enter? && (DisruptiveDeed(d) <==> Disrupts(a))
  {
  }

  lemma StepDescends(cfg: Config, b: nat, s: State, a: Action)
    requires WellFiled(cfg.index) && LimitedBy(cfg, b) && Inv(cfg, s) && Enabled(cfg, s, a) && IsWorkerStep(a)
    ensures Inv(cfg, Next(cfg, s, a))
    ensures Weight(cfg)(Next(cfg, s, a)) <= if Disrupts(a) then Weight(cfg)(s) + (16 * b + 16) else Weight(cfg)(s) - 1
  {
    StepKeepsInv(cfg, s, a);
    StepMoves(cfg, WeightGauge(cfg), s, a);
    DeedKind(cfg, s, a);
    DeedDescends(cfg, b, DeedOf(cfg, s, a));
  }

  lemma WeightIsNatural(cfg: Config, s: State)
    ensures Weight(cfg)(s) >= 0
  {
    SumNonNegative(s.store, CopyWeights(cfg));
    SumNonNegative(s.orphans, OrphanWeights(cfg));
    SumNone(s.log, NoEvents());
  }

  lemma WorkersDescend(cfg: Config, b: nat)
    requires WellFiled(cfg.index) && LimitedBy(cfg, b)
    ensures Keeps(Workers(cfg), Invariant(cfg))
    ensures Descends(Workers(cfg), Invariant(cfg), Weight(cfg), Disruptive(), 16 * b + 16)
  {
    forall s, a | Inv(cfg, s) && IsWorkerStep(a) && Enabled(cfg, s, a)
      ensures Inv(cfg, Next(cfg, s, a))
      ensures Weight(cfg)(Next(cfg, s, a)) <= if Disrupts(a) then Weight(cfg)(s) + (16 * b + 16) else Weight(cfg)(s) - 1
    {
      StepDescends(cfg, b, s, a);
    }
  }

  /** Draining terminates: without new sends, a run of any number of workers is no
      longer than the weight of the state it starts from and its disruptions allow. */
  lemma DrainingIsBounded(cfg: Config, b: nat, s: State, run: seq<Action>)
    requires WellFiled(cfg.index) && LimitedBy(cfg, b) && Inv(cfg, s) && Legal(Workers(cfg), s, run)
    ensures |run| <= Weight(cfg)(s) + (16 * b + 16 + 1) * Disruptions(Workers(cfg), Disruptive(), s, run)
  {
    WorkersDescend(cfg, b);
    forall t ensures Weight(cfg)(t) >= 0 { WeightIsNatural(cfg, t); }
    RunIsBounded(Workers(cfg), Invariant(cfg), Weight(cfg), Disruptive(), 16 * b + 16, s, run);
  }

  // ----------------------------------------------------------------- at rest

  /** All lanes empty, nothing held, nothing in hand. */
  ghost predicate Drained(s: State) {
    (forall c :: c in s.store ==> c.queue == DEAD_QUEUE && c.hold.Ready?) && s.orphans == []
  }

  ghost predicate AtRest(cfg: Config, s: State) {
    forall a :: IsWorkerStep(a) && Enabled(cfg, s, a) ==> Disrupts(a)
  }

  lemma BusyJobCanGoOn(cfg: Config, s: State, site: Site)
    requires Inv(cfg, s) && HasJob(s, site) && JobAt(s, site).phase != Waiting
    ensures !AtRest(cfg, s)
  {
    JobIsGood(cfg, s, site);
    var phase := JobAt(s, site).phase;
    var a := if phase == Trying then Finish(site, false, None)
      else if phase == Publishing then Republish(site, true, true)
      else Settle(site);
    var possible := Enabled(cfg, s, a);
    assert possible;
  }

  lemma WaitingJobCanBegin(cfg: Config, s: State, site: Site)
    requires Inv(cfg, s) && HasJob(s, site) && JobAt(s, site).phase == Waiting
    requires forall other :: HasJob(s, other) ==> JobAt(s, other).phase == Waiting
    ensures !AtRest(cfg, s)
  {
    var possible := Enabled(cfg, s, Begin(site));
    assert possible;
  }

  lemma QueuedCopyCanBeDelivered(cfg: Config, s: State, i: nat)
    requires Inv(cfg, s) && i < |s.store| && s.store[i].hold.Ready? && s.store[i].queue != DEAD_QUEUE
    ensures !AtRest(cfg, s)
    decreases i
  {
    if k: nat :| k < i && s.store[k].queue == s.store[i].queue && s.store[k].hold.Ready? {
      QueuedCopyCanBeDelivered(cfg, s, k);
    } else {
      assert s.store[i] in s.store && GoodCopy(cfg, s.originals, s.store[i]);
      var m := s.store[i].body.msg;
      assert GoodOriginal(cfg, m.id, s.originals[m.id]);
      var possible := Enabled(cfg, s, Deliver(i, Worker(0, LaneOf(m))));
      assert possible;
    }
  }

  /** Workers left alone stop only when everything is drained. */
  lemma RestIsDrained(cfg: Config, s: State)
    requires Inv(cfg, s) && AtRest(cfg, s)
    ensures Drained(s)
  {
    assert s.orphans != [] ==> HasJob(s, InOrphans(0));
    assert forall i: nat :: i < |s.store| && s.store[i].hold.Held? ==> HasJob(s, InStore(i));
    forall site | HasJob(s, site) ensures JobAt(s, site).phase == Waiting {
      if JobAt(s, site).phase != Waiting { BusyJobCanGoOn(cfg, s, site); }
    }
    forall site ensures !HasJob(s, site) {
      if HasJob(s, site) { WaitingJobCanBegin(cfg, s, site); }
    }
    forall i: nat | i < |s.store| ensures s.store[i].queue == DEAD_QUEUE && s.store[i].hold.Ready? {
      if s.store[i].hold.Ready? && s.store[i].queue != DEAD_QUEUE { QueuedCopyCanBeDelivered(cfg, s, i); }
    }
  }

  ghost predicate AtEnd(cfg: Config, s: State, id: string)
    requires id in s.originals
  {
    || (exists c :: c in s.store && IsAbout(c.body, id) && c.queue == DEAD_QUEUE)
    || (exists e :: Recorded(cfg, s, e, id))
  }

  /** When the workers have come to rest, every notification that entered the broker,
      whether or not the API learnt of it, has reached its end: in the dead-letter
      queue, delivered, or given up on for good. */
  lemma EveryNotificationEnds(cfg: Config, s: State, id: string)
    requires WellFiled(cfg.index) && Reachable(cfg, s)
    requires AtRest(cfg, s) && EntryCount(s, id) >= 1
    ensures id in s.originals && AtEnd(cfg, s, id)
  {
    ReachableIsGood(cfg, s);
    EnteredIsNotLost(cfg, s, id);
    RestIsDrained(cfg, s);
    if c :| Stored(s, c, id) {
      assert c in s.store && IsAbout(c.body, id);
    }
  }

  /** In particular every notification the API reported as accepted. */
  lemma EveryAcceptedEnds(cfg: Config, s: State, id: string)
    requires WellFiled(cfg.index) && Reachable(cfg, s)
    requires AtRest(cfg, s) && id in s.accepted
    ensures id in s.originals && AtEnd(cfg, s, id)
  {
    ReachableIsBalanced(cfg, s, id);
    EveryNotificationEnds(cfg, s, id);
  }

  // -------------------------------------------------------------- disconnection

  /** The first `n` copies, those held by `w` given back; the others as they are. */
  ghost function GivenBack(store: seq<Copy>, w: Worker, n: nat): seq<Copy>
    requires n <= |store|
  {
    seq(|store|, k requires 0 <= k < |store| =>
      if k < n && HeldBy(store[k], w) then store[k].(hold := Ready) else store[k])
  }

  predicate HeldBy(c: Copy, w: Worker) {
    c.hold.Held? && c.hold.worker == w
  }

  /** The deliveries the worker holds among these copies, as it has them in hand. */
  ghost function InHandOf(store: seq<Copy>, w: Worker): seq<Orphan> {
    if store == [] then []
    else
      var c := store[|store| - 1];
      InHandOf(store[..|store| - 1], w) + if HeldBy(c, w) then [Orphan(w, c.body, c.hold.phase)] else []
  }

  ghost function NotOf(orphans: seq<Orphan>, w: Worker): seq<Orphan> {
    if orphans == [] then []
    else (if orphans[0].worker == w then [] else [orphans[0]]) + NotOf(orphans[1..], w)
  }

  lemma GivenBackNext(store: seq<Copy>, w: Worker, n: nat)
    requires n < |store|
    ensures GivenBack(store, w, n + 1) ==
      if HeldBy(store[n], w) then GivenBack(store, w, n)[n := store[n].(hold := Ready)] else GivenBack(store, w, n)
    ensures InHandOf(store[..n + 1], w) ==
      InHandOf(store[..n], w) + if HeldBy(store[n], w) then [Orphan(w, store[n].body, store[n].hold.phase)] else []
  {
    assert store[..n + 1][..n] == store[..n];
  }

  /** The broker side of a state but for its store: nothing a loss could change. */
  ghost predicate SameBroker(s: State, t: State) {
    t.bindings == s.bindings && t.originals == s.originals && t.accepted == s.accepted
  }

  ghost predicate SameButOrphans(s: State, t: State) {
    SameBroker(s, t) && t.store == s.store && t.log == s.log
  }

  /** What a step that takes the delivery at `i` back does. */
  ghost predicate TakenBack(s: State, i: nat, survives: bool, r: Option<State>)
    requires HasJob(s, InStore(i))
  {
    && r.Some? && SameBroker(s, r.value) && r.value.store == s.store[i := s.store[i].(hold := Ready)]
    && r.value.orphans == s.orphans + if survives then [JobAt(s, InStore(i))] else []
  }

  ghost predicate TakesBack(step: Stepper<State, Action>, survives: bool) {
    forall s, i: nat {:trigger step(s, Lose(i, survives))} ::
      HasJob(s, InStore(i)) ==> TakenBack(s, i, survives, step(s, Lose(i, survives)))
  }

  /** What a step that forgets the orphan at `i` does. */
  ghost predicate Forgotten(s: State, i: nat, r: Option<State>)
    requires i < |s.orphans|
  {
    r.Some? && SameButOrphans(s, r.value) && r.value.orphans == s.orphans[..i] + s.orphans[i + 1..]
  }

  ghost predicate Forgets(step: Stepper<State, Action>) {
    forall s: State, i: nat {:trigger step(s, Vanish(i))} :: i < |s.orphans| ==> Forgotten(s, i, step(s, Vanish(i)))
  }

  lemma LoseTakesBack(cfg: Config, s: State, i: nat, survives: bool)
    requires HasJob(s, InStore(i))
    ensures TakenBack(s, i, survives, System(cfg)(s, Lose(i, survives)))
  {
    var c := s.store[i].(hold := Ready);
    assert Splice(s.store, i, Some(c)) + [] == s.store[i := c];
    var possible := Enabled(cfg, s, Lose(i, survives));
    assert possible;
  }

  lemma VanishForgets(cfg: Config, s: State, i: nat)
    requires i < |s.orphans|
    ensures Forgotten(s, i, System(cfg)(s, Vanish(i)))
  {
    assert Splice(s.orphans, i, None) + [] == s.orphans[..i] + s.orphans[i + 1..];
    var possible := Enabled(cfg, s, Vanish(i));
    assert possible;
  }

  lemma SystemTakesBackAndForgets(cfg: Config, survives: bool)
    ensures TakesBack(System(cfg), survives) && Forgets(System(cfg))
  {
    forall s, i: nat | HasJob(s, InStore(i)) ensures TakenBack(s, i, survives, System(cfg)(s, Lose(i, survives))) {
      LoseTakesBack(cfg, s, i, survives);
    }
    forall s: State, i: nat | i < |s.orphans| ensures Forgotten(s, i, System(cfg)(s, Vanish(i))) {
      VanishForgets(cfg, s, i);
    }
  }

  /** Giving back, one by one, what the worker holds among the first `n` copies. */
  lemma {:induction false} LossesGiveBack(step: Stepper<State, Action>, s: State, w: Worker, survives: bool, n: nat)
    returns (run: seq<Action>)
    requires TakesBack(step, survives) && n <= |s.store|
    ensures Legal(step, s, run) && forall a :: a in run ==> a.Lose? && a.survives == survives
    ensures var t := After(step, s, run);
      && SameBroker(s, t) && t.store == GivenBack(s.store, w, n)
      && t.orphans == s.orphans + if survives then InHandOf(s.store[..n], w) else []
  {
    if n == 0 {
      run := [];
      assert GivenBack(s.store, w, 0) == s.store;
    } else {
      GivenBackNext(s.store, w, n - 1);
      run := LossesGiveBack(step, s, w, survives, n - 1);
      if HeldBy(s.store[n - 1], w) {
        var t := After(step, s, run);
        var a := Lose(n - 1, survives);
        assert HasJob(t, InStore(n - 1)) && TakenBack(t, n - 1, survives, step(t, a));
        AfterOne(step, t, a);
        AfterConcat(step, s, run, [a]);
        run := run + [a];
      }
    }
  }

  /** The run leads from `s` to where the worker's orphans among `b` are forgotten. */
  ghost predicate VanishRun(
    step: Stepper<State, Action>, s: State, w: Worker, a: seq<Orphan>, b: seq<Orphan>, run: seq<Action>)
  {
    && Legal(step, s, run) && (forall k :: 0 <= k < |run| ==> run[k].Vanish?)
    && SameButOrphans(s, After(step, s, run)) && After(step, s, run).orphans == a + NotOf(b, w)
  }

  lemma VanishHead(step: Stepper<State, Action>, s: State, w: Worker, a: seq<Orphan>, b: seq<Orphan>, rest: seq<Action>)
    requires s.orphans == a + b && b != [] && b[0].worker == w
    requires Forgotten(s, |a|, step(s, Vanish(|a|)))
    requires VanishRun(step, step(s, Vanish(|a|)).value, w, a, b[1..], rest)
    ensures VanishRun(step, s, w, a, b, [Vanish(|a|)] + rest)
  {
    Prepend(step, s, Vanish(|a|), rest);
  }

  lemma VanishSkip(step: Stepper<State, Action>, s: State, w: Worker, a: seq<Orphan>, b: seq<Orphan>, run: seq<Action>)
    requires b != [] && b[0].worker != w
    requires VanishRun(step, s, w, a + [b[0]], b[1..], run)
    ensures VanishRun(step, s, w, a, b, run)
  {
    assert a + [b[0]] + NotOf(b[1..], w) == a + NotOf(b, w);
  }

  lemma OrphanForgotten(step: Stepper<State, Action>, s: State, a: seq<Orphan>, b: seq<Orphan>) returns (t: State)
    requires Forgets(step) && s.orphans == a + b && b != []
    ensures step(s, Vanish(|a|)) == Some(t) && Forgotten(s, |a|, Some(t)) && t.orphans == a + b[1..]
  {
    var r := step(s, Vanish(|a|));
    assert Forgotten(s, |a|, r);
    t := r.value;
  }

  /** Forgetting, one by one, what the worker has in hand among the orphans `b`. */
  lemma {:induction false} OrphansVanish(
    step: Stepper<State, Action>, s: State, w: Worker, a: seq<Orphan>, b: seq<Orphan>)
    returns (run: seq<Action>)
    requires Forgets(step) && s.orphans == a + b
    ensures VanishRun(step, s, w, a, b, run)
    decreases |b|
  {
    if b == [] {
      run := [];
    } else if b[0].worker == w {
      var t := OrphanForgotten(step, s, a, b);
      var rest := OrphansVanish(step, t, w, a, b[1..]);
      VanishHead(step, s, w, a, b, rest);
      run := [Vanish(|a|)] + rest;
    } else {
      assert a + b == (a + [b[0]]) + b[1..];
      run := OrphansVanish(step, s, w, a + [b[0]], b[1..]);
      VanishSkip(step, s, w, a, b, run);
    }
  }

  /** A broken connection, at any point, is a run of the system: every unsettled
      delivery of the worker goes back to its place, the worker still has it in hand,
      and nothing else changes at the broker. */
  lemma DisconnectionGivesAllBack(cfg: Config, s: State, w: Worker) returns (run: seq<Action>)
    ensures Legal(System(cfg), s, run) && forall a :: a in run ==> a.Lose? && a.survives
    ensures var t := After(System(cfg), s, run);
      && SameBroker(s, t) && t.store == GivenBack(s.store, w, |s.store|)
      && t.orphans == s.orphans + InHandOf(s.store, w)
  {
    SystemTakesBackAndForgets(cfg, true);
    run := LossesGiveBack(System(cfg), s, w, true, |s.store|);
    assert s.store[..|s.store|] == s.store;
  }

  /** So is a crash: every unsettled delivery goes back to its place, what the worker
      had in hand is gone, and nothing else changes. */
  lemma CrashGivesAllBack(cfg: Config, s: State, w: Worker) returns (run: seq<Action>)
    ensures Legal(System(cfg), s, run) && forall a :: a in run ==> (a.Lose? && !a.survives) || a.Vanish?
    ensures var t := After(System(cfg), s, run);
      && SameBroker(s, t) && t.store == GivenBack(s.store, w, |s.store|)
      && t.orphans == NotOf(s.orphans, w)
  {
    SystemTakesBackAndForgets(cfg, false);
    run := CrashRun(System(cfg), s, w);
  }

  lemma CrashRun(step: Stepper<State, Action>, s: State, w: Worker) returns (run: seq<Action>)
    requires TakesBack(step, false) && Forgets(step)
    ensures Legal(step, s, run) && forall a :: a in run ==> (a.Lose? && !a.survives) || a.Vanish?
    ensures var t := After(step, s, run);
      && SameBroker(s, t) && t.store == GivenBack(s.store, w, |s.store|)
      && t.orphans == NotOf(s.orphans, w)
  {
    var losses := LossesGiveBack(step, s, w, false, |s.store|);
    var t := After(step, s, losses);
    assert t.orphans == [] + s.orphans;
    var ends := OrphansVanish(step, t, w, [], s.orphans);
    AfterConcat(step, s, losses, ends);
    assert [] + NotOf(s.orphans, w) == NotOf(s.orphans, w);
    run := losses + ends;
  }
}
