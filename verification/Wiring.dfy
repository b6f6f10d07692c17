/** The worker's loop is described twice: among everyone else, in the delivery system, and
    behind its two forwarders, on one connection. Here the first description is mapped
    onto the second, so that what is proved of a connection holds of a worker's part in
    any run of the whole deployment. */
module Wiring {
  import opened Prelude
  import opened Processing
  import opened Runs
  import opened Delivery
  import opened Ledger
  import opened Consumer
  import P = Pipeline

  // ------------------------------------------------------------ the mapping

  /** A worker's step as a connection has it: a delivery is pushed; it goes through both
      forwarders to the loop when it is begun; it is settled. */
  function StepsOf(w: Worker, s: State, a: Action): seq<P.Action> {
    match a
    case Deliver(_, v) => if v == w then [P.Push] else []
    case Begin(site) => if Owned(s, site, w) then [P.Take, P.Pass, P.Hand] else []
    case Settle(site) => if Owned(s, site, w) then [P.Settle(JobAt(s, site).phase == Acking)] else []
    case _ => []
  }

  ghost function FlowOf(cfg: Config, w: Worker, s: State, run: seq<Action>): seq<P.Action>
    requires Legal(System(cfg), s, run)
    decreases |run|
  {
    if run == [] then [] else StepsOf(w, s, run[0]) + FlowOf(cfg, w, System(cfg)(s, run[0]).value, run[1..])
  }

  function JobCopy(w: Worker, c: Copy): int {
    if c.hold.Held? && c.hold.worker == w then 1 else 0
  }

  function JobOrphan(w: Worker, o: Orphan): int {
    if o.worker == w then 1 else 0
  }

  ghost function JobGauge(w: Worker): Gauge {
    Gauge((c: Copy) => JobCopy(w, c), (o: Orphan) => JobOrphan(w, o), (e: Event) => 0)
  }

  /** How many deliveries the worker has, begun or not. */
  ghost function Jobs(w: Worker, s: State): int {
    Sum(s.store, JobGauge(w).copy) + Sum(s.orphans, JobGauge(w).orphan)
  }

  /** The worker neither crashes nor loses its connection in this step, and the broker
      minds the worker's prefetch. */
  ghost predicate Connected(w: Worker, prefetch: nat, s: State, a: Action) {
    match a
    case Lose(i, _) => !Owned(s, InStore(i), w)
    case Vanish(i) => !Owned(s, InOrphans(i), w)
    case Deliver(_, v) => v == w && prefetch > 0 ==> Jobs(w, s) < prefetch
    case _ => true
  }

  ghost predicate StaysConnected(cfg: Config, w: Worker, prefetch: nat, s: State, run: seq<Action>)
    requires Legal(System(cfg), s, run)
    decreases |run|
  {
    run == [] ||
    (Connected(w, prefetch, s, run[0]) && StaysConnected(cfg, w, prefetch, System(cfg)(s, run[0]).value, run[1..]))
  }

  // ------------------------------------------------------------- counting jobs

  /** By how many deliveries of the worker a change adds to. */
  function JobChange(w: Worker, s: State, ch: Change): int
    requires Fits(s, ch.site)
  {
    (match ch.site
     case None => 0
     case Some(InStore(i)) => (if ch.copy.Some? then JobCopy(w, ch.copy.value) else 0) - JobCopy(w, s.store[i])
     case Some(InOrphans(i)) =>
       (if ch.orphan.Some? then JobOrphan(w, ch.orphan.value) else 0) - JobOrphan(w, s.orphans[i]))
    + if ch.stray.Some? then JobOrphan(w, ch.stray.value) else 0
  }

  lemma JobsAfterChange(w: Worker, s: State, ch: Change)
    requires Fits(s, ch.site) && forall c :: c in ch.added ==> c.hold.Ready?
    ensures Jobs(w, Apply(s, ch)) == Jobs(w, s) + JobChange(w, s, ch)
  {
    TotalAfterChange(JobGauge(w), s, ch);
    SumNone(ch.added, JobGauge(w).copy);
    SumNone(s.log, JobGauge(w).event);
    SumNone(Apply(s, ch).log, JobGauge(w).event);
  }

  lemma AddedIsReady(cfg: Config, s: State, a: Action)
    requires Enabled(cfg, s, a)
    ensures forall c :: c in Effect(cfg, s, a).added ==> c.hold.Ready?
  {
  }

  /** Jobs that a step adds for the worker: one if it is given a delivery, less one if it
      settles one. */
  function JobsAdded(w: Worker, s: State, a: Action): int {
    match a
    case Deliver(_, v) => if v == w then 1 else 0
    case Settle(site) => if Owned(s, site, w) then -1 else 0
    case _ => 0
  }

  lemma JobsOfTurn(w: Worker, s: State, site: Site, phase: Phase, ch: Change)
    requires HasJob(s, site) && ch == Turn(s, site, phase).(added := ch.added, event := ch.event, fault := ch.fault)
    ensures Fits(s, ch.site) && JobChange(w, s, ch) == 0
  {
  }

  lemma JobsOfEffect(cfg: Config, w: Worker, s: State, a: Action, prefetch: nat)
    requires Enabled(cfg, s, a) && Connected(w, prefetch, s, a)
    ensures JobChange(w, s, Effect(cfg, s, a)) == JobsAdded(w, s, a)
  {
    match a
    case Begin(site) =>
      JobsOfTurn(w, s, site, if JobAt(s, site).body.Garbled? then Acking else Trying, Effect(cfg, s, a));
    case Finish(site, limited, sendErr) =>
      var outcome := Attempted(cfg, JobAt(s, site), limited, sendErr);
      JobsOfTurn(w, s, site, if outcome.Some? then Acking else Publishing, Effect(cfg, s, a));
    case Republish(site, _, ok) => JobsOfTurn(w, s, site, if ok then Acking else Nacking, Effect(cfg, s, a));
    case _ =>
  }

  lemma JobsAfterStep(cfg: Config, w: Worker, s: State, a: Action, prefetch: nat)
    requires Enabled(cfg, s, a) && Connected(w, prefetch, s, a)
    ensures Jobs(w, Next(cfg, s, a)) == Jobs(w, s) + JobsAdded(w, s, a)
  {
    AddedIsReady(cfg, s, a);
    JobsOfEffect(cfg, w, s, a, prefetch);
    JobsAfterChange(w, s, Effect(cfg, s, a));
  }

  lemma OwnedIsCounted(w: Worker, s: State, site: Site)
    requires Owned(s, site, w)
    ensures Jobs(w, s) >= 1
  {
    SumNonNegative(s.store, JobGauge(w).copy);
    SumNonNegative(s.orphans, JobGauge(w).orphan);
    match site
    case InStore(i) =>
      SumDominates(s.store, i, JobGauge(w).copy);
      assert JobGauge(w).copy(s.store[i]) == 1;
    case InOrphans(i) =>
      SumDominates(s.orphans, i, JobGauge(w).orphan);
      assert JobGauge(w).orphan(s.orphans[i]) == 1;
  }

  lemma NoneOwned(w: Worker, s: State)
    requires forall site :: !Owned(s, site, w)
    ensures Jobs(w, s) == 0 && Free(s, w)
  {
    forall site | HasJob(s, site) ensures JobAt(s, site).worker != w {
      assert !Owned(s, site, w);
    }
    forall c | c in s.store ensures JobGauge(w).copy(c) == 0 {
      var i: nat :| i < |s.store| && s.store[i] == c;
      assert !Owned(s, InStore(i), w);
    }
    forall o | o in s.orphans ensures JobGauge(w).orphan(o) == 0 {
      var i: nat :| i < |s.orphans| && s.orphans[i] == o;
      assert !Owned(s, InOrphans(i), w);
    }
    SumNone(s.store, JobGauge(w).copy);
    SumNone(s.orphans, JobGauge(w).orphan);
  }

  // ------------------------------------------------------------------- the link

  /** The worker has begun one delivery and no other. */
  ghost predicate Begun(s: State, w: Worker) {
    exists site :: BegunAt(s, w, site)
  }

  ghost predicate BegunAt(s: State, w: Worker, site: Site) {
    Owned(s, site, w) && JobAt(s, site).phase != Waiting && Mine(s, site, JobAt(s, site))
  }

  /** The forwarders are idle, the loop handles a delivery exactly if the worker has begun
      one, and what is pushed and unsettled is what the worker has. */
  ghost predicate Linked(w: Worker, prefetch: nat, s: State, f: P.State) {
    && P.Sound(prefetch, f) && f.open && !f.cancelled
    && f.first.Receiving? && f.second.Receiving?
    && (if f.loop.Handling? then Begun(s, w) else f.loop.Waiting? && Free(s, w))
    && f.delivered - |f.settled| == Jobs(w, s)
  }

  /** The worker's own turn at a delivery leaves it the one begun. */
  lemma OwnTurn(cfg: Config, w: Worker, s: State, a: Action, site: Site)
    requires Enabled(cfg, s, a) && Owned(s, site, w)
    requires a == Begin(site) || (a.Finish? && a.site == site) || (a.Republish? && a.site == site)
    requires Mine(s, site, JobAt(s, site))
    ensures Begun(Next(cfg, s, a), w)
  {
    var job := JobAt(s, site);
    var ch := Effect(cfg, s, a);
    AddedIsReady(cfg, s, a);
    var phase := if site.InStore? then ch.copy.value.hold.phase else ch.orphan.value.phase;
    TurnKeepsMine(s, site, job, ch, phase);
    assert BegunAt(Next(cfg, s, a), w, site);
  }

  lemma FreeJobIsMine(s: State, w: Worker, site: Site)
    requires Free(s, w) && Owned(s, site, w)
    ensures Mine(s, site, JobAt(s, site))
  {
  }

  lemma BegunIsMine(s: State, w: Worker, site: Site)
    requires Begun(s, w) && Owned(s, site, w) && JobAt(s, site).phase != Waiting
    ensures Mine(s, site, JobAt(s, site))
  {
  }

  lemma BegunIsNotFree(s: State, w: Worker)
    requires Begun(s, w)
    ensures !Free(s, w)
  {
  }

  /** Others' steps leave what is begun as it is. */
  lemma OthersKeepBegun(cfg: Config, w: Worker, s: State, a: Action)
    requires Begun(s, w) && Enabled(cfg, s, a) && Foreign(s, a, w)
    ensures Begun(Next(cfg, s, a), w)
  {
    var site :| BegunAt(s, w, site);
    OthersKeepMine(cfg, s, a, site, JobAt(s, site));
    assert BegunAt(Next(cfg, s, a), w, Followed(cfg, s, a, site));
  }

  // --------------------------------------------------------------------- steps

  /** What holds after some steps of the connection that a step of the worker makes. */
  ghost predicate LinkedBy(w: Worker, prefetch: nat, t: State, f: P.State, steps: seq<P.Action>) {
    Legal(P.Flow(prefetch), f, steps) && Linked(w, prefetch, t, After(P.Flow(prefetch), f, steps))
  }

  lemma OthersKeepLink(cfg: Config, w: Worker, prefetch: nat, s: State, a: Action, f: P.State)
    requires Linked(w, prefetch, s, f) && Enabled(cfg, s, a) && Connected(w, prefetch, s, a) && Foreign(s, a, w)
    ensures LinkedBy(w, prefetch, Next(cfg, s, a), f, StepsOf(w, s, a))
  {
    JobsAfterStep(cfg, w, s, a, prefetch);
    if f.loop.Handling? { OthersKeepBegun(cfg, w, s, a); } else { OthersKeepFree(cfg, s, a, w); }
    if a.Deliver? && a.worker == w {
      P.StepKeepsSound(prefetch, f, P.Push);
      AfterOne(P.Flow(prefetch), f, P.Push);
    }
  }

  /** A delivery goes through both forwarders at once. */
  lemma ThroughBothHops(prefetch: nat, f: P.State)
    requires P.Sound(prefetch, f) && f.first.Receiving? && f.second.Receiving? && f.loop.Waiting? && f.raw != []
    ensures Legal(P.Flow(prefetch), f, [P.Take, P.Pass, P.Hand])
    ensures var g := After(P.Flow(prefetch), f, [P.Take, P.Pass, P.Hand]);
      P.Sound(prefetch, g)
      && g == f.(raw := f.raw[1..], loop := P.Handling(f.raw[0]), handled := f.handled + [f.raw[0]])
  {
    var f1 := P.Next(prefetch, f, P.Take);
    var f2 := P.Next(prefetch, f1, P.Pass);
    P.StepKeepsSound(prefetch, f, P.Take);
    P.StepKeepsSound(prefetch, f1, P.Pass);
    P.StepKeepsSound(prefetch, f2, P.Hand);
    AfterOne(P.Flow(prefetch), f2, P.Hand);
    Prepend(P.Flow(prefetch), f1, P.Pass, [P.Hand]);
    Prepend(P.Flow(prefetch), f, P.Take, [P.Pass] + [P.Hand]);
    assert [P.Take] + ([P.Pass] + [P.Hand]) == [P.Take, P.Pass, P.Hand];
  }

  lemma BeginKeepsLink(cfg: Config, w: Worker, prefetch: nat, s: State, site: Site, f: P.State)
    requires Linked(w, prefetch, s, f) && Enabled(cfg, s, Begin(site)) && Owned(s, site, w)
    ensures LinkedBy(w, prefetch, Next(cfg, s, Begin(site)), f, [P.Take, P.Pass, P.Hand])
  {
    if f.loop.Handling? { BegunIsNotFree(s, w); }
    OwnedIsCounted(w, s, site);
    FreeJobIsMine(s, w, site);
    OwnTurn(cfg, w, s, Begin(site), site);
    JobsAfterStep(cfg, w, s, Begin(site), prefetch);
    ThroughBothHops(prefetch, f);
  }

  lemma TurnKeepsLink(cfg: Config, w: Worker, prefetch: nat, s: State, a: Action, site: Site, f: P.State)
    requires Linked(w, prefetch, s, f) && Enabled(cfg, s, a) && Owned(s, site, w)
    requires (a.Finish? && a.site == site) || (a.Republish? && a.site == site)
    ensures LinkedBy(w, prefetch, Next(cfg, s, a), f, [])
  {
    assert JobAt(s, site).phase != Waiting;
    BegunIsMine(s, w, site);
    OwnTurn(cfg, w, s, a, site);
    JobsAfterStep(cfg, w, s, a, prefetch);
  }

  lemma SettleKeepsLink(cfg: Config, w: Worker, prefetch: nat, s: State, site: Site, ack: bool, f: P.State)
    requires Linked(w, prefetch, s, f) && Enabled(cfg, s, Settle(site)) && Owned(s, site, w)
    ensures LinkedBy(w, prefetch, Next(cfg, s, Settle(site)), f, [P.Settle(ack)])
  {
    assert JobAt(s, site).phase != Waiting;
    BegunIsMine(s, w, site);
    SettledIsFree(s, site, JobAt(s, site));
    JobsAfterStep(cfg, w, s, Settle(site), prefetch);
    P.StepKeepsSound(prefetch, f, P.Settle(ack));
    AfterOne(P.Flow(prefetch), f, P.Settle(ack));
  }

  lemma StepKeepsLink(cfg: Config, w: Worker, prefetch: nat, s: State, a: Action, f: P.State)
    requires Linked(w, prefetch, s, f) && Enabled(cfg, s, a) && Connected(w, prefetch, s, a)
    ensures LinkedBy(w, prefetch, Next(cfg, s, a), f, StepsOf(w, s, a))
  {
    if Foreign(s, a, w) {
      OthersKeepLink(cfg, w, prefetch, s, a, f);
    } else {
      match a
      case Begin(site) => BeginKeepsLink(cfg, w, prefetch, s, site, f);
      case Finish(site, _, _) => TurnKeepsLink(cfg, w, prefetch, s, a, site, f);
      case Republish(site, _, _) => TurnKeepsLink(cfg, w, prefetch, s, a, site, f);
      case Settle(site) => SettleKeepsLink(cfg, w, prefetch, s, site, JobAt(s, site).phase == Acking, f);
      case _ =>
    }
  }

  // ---------------------------------------------------------------------- runs

  lemma {:induction false} RunKeepsLink(cfg: Config, w: Worker, prefetch: nat, s: State, run: seq<Action>, f: P.State)
    requires Linked(w, prefetch, s, f) && Legal(System(cfg), s, run) && StaysConnected(cfg, w, prefetch, s, run)
    ensures LinkedBy(w, prefetch, After(System(cfg), s, run), f, FlowOf(cfg, w, s, run))
    decreases |run|
  {
    if run != [] {
      var t := System(cfg)(s, run[0]).value;
      var steps := StepsOf(w, s, run[0]);
      StepKeepsLink(cfg, w, prefetch, s, run[0], f);
      var g := After(P.Flow(prefetch), f, steps);
      RunKeepsLink(cfg, w, prefetch, t, run[1..], g);
      AfterConcat(P.Flow(prefetch), f, steps, FlowOf(cfg, w, t, run[1..]));
    }
  }

  /** A worker's part in a run, on one connection, is a run of that connection: what it is
      given is pushed, what it begins comes through both forwarders, what it settles is
      settled. So it has at most the prefetch in hand, and has begun and settled its
      deliveries one by one. */
  lemma WorkerIsConnection(cfg: Config, w: Worker, prefetch: nat, s: State, run: seq<Action>)
    requires Legal(System(cfg), s, run) && StaysConnected(cfg, w, prefetch, s, run)
    requires forall site :: !Owned(s, site, w)
    ensures Legal(P.Flow(prefetch), P.Fresh(), FlowOf(cfg, w, s, run))
    ensures var t := After(System(cfg), s, run);
      var f := After(P.Flow(prefetch), P.Fresh(), FlowOf(cfg, w, s, run));
      && Linked(w, prefetch, t, f)
      && Jobs(w, t) == f.delivered - |f.settled|
      && (prefetch > 0 ==> Jobs(w, t) <= prefetch)
  {
    NoneOwned(w, s);
    RunKeepsLink(cfg, w, prefetch, s, run, P.Fresh());
  }

  // --------------------------------------------------------------- settlements

  /** How a sequence of calls settles deliveries: true for an ack, false for a nack. */
  function Verdicts(calls: seq<Call>): seq<bool> {
    if calls == [] then []
    else (if Settles(calls[0]) then [calls[0] == AckCall] else []) + Verdicts(calls[1..])
  }

  function FlowVerdicts(steps: seq<P.Action>): seq<bool> {
    if steps == [] then [] else (if steps[0].Settle? then [steps[0].ack] else []) + FlowVerdicts(steps[1..])
  }

  lemma {:induction false} VerdictsConcat(a: seq<Call>, b: seq<Call>)
    ensures Verdicts(a + b) == Verdicts(a) + Verdicts(b)
  {
    if a == [] {
      assert a + b == b;
    } else {
      assert (a + b)[0] == a[0] && (a + b)[1..] == a[1..] + b;
      VerdictsConcat(a[1..], b);
      var first := if Settles(a[0]) then [a[0] == AckCall] else [];
      assert first + (Verdicts(a[1..]) + Verdicts(b)) == first + Verdicts(a[1..]) + Verdicts(b);
    }
  }

  lemma {:induction false} FlowVerdictsConcat(a: seq<P.Action>, b: seq<P.Action>)
    ensures FlowVerdicts(a + b) == FlowVerdicts(a) + FlowVerdicts(b)
  {
    if a == [] {
      assert a + b == b;
    } else {
      assert (a + b)[0] == a[0] && (a + b)[1..] == a[1..] + b;
      FlowVerdictsConcat(a[1..], b);
      var first := if a[0].Settle? then [a[0].ack] else [];
      assert first + (FlowVerdicts(a[1..]) + FlowVerdicts(b)) == first + FlowVerdicts(a[1..]) + FlowVerdicts(b);
    }
  }

  lemma StepVerdicts(cfg: Config, w: Worker, s: State, a: Action)
    ensures FlowVerdicts(StepsOf(w, s, a)) == Verdicts(CallsOf(cfg, w, s, a))
  {
    if a.Begin? {
      assert [P.Take, P.Pass, P.Hand][1..] == [P.Pass, P.Hand] && [P.Pass, P.Hand][1..] == [P.Hand];
    }
    forall x: P.Action ensures FlowVerdicts([x]) == if x.Settle? then [x.ack] else [] {
      assert [x][1..] == [];
    }
    forall c: Call ensures Verdicts([c]) == if Settles(c) then [c == AckCall] else [] {
      assert [c][1..] == [];
    }
  }

  /** The acks and nacks of the connection are those the consumer calls, in order. */
  lemma {:induction false} SettlementsAreTheCalls(cfg: Config, w: Worker, s: State, run: seq<Action>)
    requires Legal(System(cfg), s, run)
    ensures FlowVerdicts(FlowOf(cfg, w, s, run)) == Verdicts(Projected(cfg, w, s, run))
    decreases |run|
  {
    if run != [] {
      var t := System(cfg)(s, run[0]).value;
      SettlementsAreTheCalls(cfg, w, t, run[1..]);
      StepVerdicts(cfg, w, s, run[0]);
      FlowVerdictsConcat(StepsOf(w, s, run[0]), FlowOf(cfg, w, t, run[1..]));
      VerdictsConcat(CallsOf(cfg, w, s, run[0]), Projected(cfg, w, t, run[1..]));
    }
  }
}
