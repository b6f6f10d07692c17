/** Book-keeping over runs: quantities summed over the copies in the broker, the
    orphans at the workers and the record, and what each step does to them. */
module Ledger {
  import opened Prelude
  import opened Notification
  import opened Topology
  import opened Repository
  import opened Sending
  import opened Processing
  import opened Delivery

  datatype Gauge = Gauge(copy: Copy -> int, orphan: Orphan -> int, event: Event -> int)

  ghost function Total(g: Gauge, s: State): int {
    Sum(s.store, g.copy) + Sum(s.orphans, g.orphan) + Sum(s.log, g.event)
  }

  lemma TotalAfterChange(g: Gauge, s: State, ch: Change)
    requires Fits(s, ch.site)
    ensures Total(g, Apply(s, ch)) == Total(g, s)
      + (match ch.site
         case None => 0
         case Some(InStore(i)) => Weigh(ch.copy, g.copy) - g.copy(s.store[i])
         case Some(InOrphans(i)) => Weigh(ch.orphan, g.orphan) - g.orphan(s.orphans[i]))
      + Sum(ch.added, g.copy) + Weigh(ch.stray, g.orphan) + Weigh(ch.event, g.event) + Weigh(ch.fault, g.event)
  {
    var t := Apply(s, ch);
    var store := if ch.site.Some? && ch.site.value.InStore? then Splice(s.store, ch.site.value.i, ch.copy) else s.store;
    var orphans :=
      if ch.site.Some? && ch.site.value.InOrphans? then Splice(s.orphans, ch.site.value.i, ch.orphan) else s.orphans;
    SumConcat(store, ch.added, g.copy);
    SumConcat(orphans, Singleton(ch.stray), g.orphan);
    SumSingleton(ch.stray, g.orphan);
    SumConcat(s.log + Singleton(ch.event), Singleton(ch.fault), g.event);
    SumConcat(s.log, Singleton(ch.event), g.event);
    SumSingleton(ch.event, g.event);
    SumSingleton(ch.fault, g.event);
    if ch.site.Some? {
      match ch.site.value
      case InStore(i) => SumSplice(s.store, i, ch.copy, g.copy);
      case InOrphans(i) => SumSplice(s.orphans, i, ch.orphan, g.orphan);
    }
  }

  // ------------------------------------------------------------------- deeds

  /** Whether a job is a copy the broker still counts as delivered, or an orphan. */
  datatype Home = AtBroker | InHand

  /** A step seen from the one message it deals with. */
  datatype Deed =
    | Idle
    | Enter(m: Message)
    | Take(w: Worker, m: Message)
    | Start(home: Home, w: Worker, m: Message)
    | End(home: Home, w: Worker, m: Message, outcome: Option<Event>)
    | Announce(home: Home, w: Worker, m: Message, took: bool, ok: bool)
    | Close(home: Home, w: Worker, m: Message, phase: Phase)
    | TakeBack(w: Worker, m: Message, phase: Phase, survives: bool)
    | Forget(w: Worker, m: Message, phase: Phase)

  ghost predicate Plausible(cfg: Config, m: Message) {
    0 <= m.retryCount <= Cap(cfg, LaneOf(m)) && LaneOf(m).Valid() && LaneOf(m).Queue() != DEAD_QUEUE
  }

  ghost predicate Sensible(cfg: Config, d: Deed) {
    && (!d.Idle? ==> Plausible(cfg, d.m))
    && (d.Enter? ==> d.m.retryCount == 0)
    && (d.End? && d.outcome.Some? ==>
          d.outcome.value == Event.Delivered(d.m) || (d.outcome.value.Dropped? && d.outcome.value.msg == d.m))
    && (d.Announce? && d.ok ==> d.took)
    && (d.Close? ==> d.phase in {Acking, Nacking})
  }

  /** What the gauge gives a job in a phase. */
  ghost function Value(g: Gauge, home: Home, w: Worker, m: Message, phase: Phase): int {
    if home == AtBroker then g.copy(Copy(LaneOf(m).Queue(), Encoded(m), Held(w, phase)))
    else g.orphan(Orphan(w, Encoded(m), phase))
  }

  ghost function Queued(g: Gauge, m: Message): int {
    g.copy(Copy(LaneOf(m).Queue(), Encoded(m), Ready))
  }

  /** How much a deed moves the gauge. */
  ghost function Delta(cfg: Config, g: Gauge, d: Deed): int {
    match d
    case Idle => 0
    case Enter(m) => Queued(g, m) + g.event(Entered(m))
    case Take(w, m) => Value(g, AtBroker, w, m, Waiting) - Queued(g, m)
    case Start(home, w, m) =>
      Value(g, home, w, m, Trying) - Value(g, home, w, m, Waiting) + g.event(Attempt(m))
        + (if home == InHand then g.event(Unsettled(m)) else 0)
    case End(home, w, m, outcome) =>
      Value(g, home, w, m, if outcome.Some? then Acking else Publishing) - Value(g, home, w, m, Trying)
        + Weigh(outcome, g.event)
    case Announce(home, w, m, took, ok) =>
      Value(g, home, w, m, if ok then Acking else Nacking) - Value(g, home, w, m, Publishing)
        + (if took then g.copy(Added(cfg, m)) else 0)
        + (if !ok && home == AtBroker then g.event(Unsettled(m)) else 0)
    case Close(home, w, m, phase) =>
      (if home == AtBroker && phase == Nacking then Queued(g, m) else 0) - Value(g, home, w, m, phase)
    case TakeBack(w, m, phase, survives) =>
      Queued(g, m) - Value(g, AtBroker, w, m, phase)
        + (if survives then Value(g, InHand, w, m, phase) else 0)
        + (if Spoils(phase) then g.event(Unsettled(m)) else 0)
    case Forget(w, m, phase) => -Value(g, InHand, w, m, phase)
  }

  function HomeOf(site: Site): Home {
    if site.InStore? then AtBroker else InHand
  }

  /** The deed an enabled step of a good state performs. */
  ghost function DeedOf(cfg: Config, s: State, a: Action): Deed
    requires Inv(cfg, s) && Enabled(cfg, s, a)
  {
    match a
    case Submit(_, _, _, took, _) => if took then Enter(Composed(cfg, a).value) else Idle
    case Redeclare(_) => Idle
    case Deliver(i, w) => assert s.store[i] in s.store; Take(w, s.store[i].body.msg)
    case Begin(site) =>
      assert GoodOrphan(cfg, s.originals, JobAt(s, site)) by { JobIsGood(cfg, s, site); }
      Start(HomeOf(site), JobAt(s, site).worker, JobAt(s, site).body.msg)
    case Finish(site, limited, sendErr) =>
      var job := JobAt(s, site);
      End(HomeOf(site), job.worker, job.body.msg, Attempted(cfg, job, limited, sendErr))
    case Republish(site, took, ok) => Announce(HomeOf(site), JobAt(s, site).worker, JobAt(s, site).body.msg, took, ok)
    case Settle(site) =>
      assert GoodOrphan(cfg, s.originals, JobAt(s, site)) by { JobIsGood(cfg, s, site); }
      Close(HomeOf(site), JobAt(s, site).worker, JobAt(s, site).body.msg, JobAt(s, site).phase)
    case Lose(i, survives) =>
      assert GoodOrphan(cfg, s.originals, JobAt(s, InStore(i))) by { JobIsGood(cfg, s, InStore(i)); }
      TakeBack(JobAt(s, InStore(i)).worker, s.store[i].body.msg, JobAt(s, InStore(i)).phase, survives)
    case Vanish(i) =>
      assert GoodOrphan(cfg, s.originals, s.orphans[i]) by { JobIsGood(cfg, s, InOrphans(i)); }
      Forget(s.orphans[i].worker, s.orphans[i].body.msg, s.orphans[i].phase)
  }

  /** A job of a good state is the copy or the orphan its deed speaks of. */
  lemma JobForm(cfg: Config, s: State, site: Site)
    requires Inv(cfg, s) && HasJob(s, site)
    ensures JobAt(s, site).body.Encoded? && Plausible(cfg, JobAt(s, site).body.msg)
    ensures var job := JobAt(s, site); var m := job.body.msg;
      if site.InStore? then s.store[site.i] == Copy(LaneOf(m).Queue(), Encoded(m), Held(job.worker, job.phase))
      else s.orphans[site.i] == Orphan(job.worker, Encoded(m), job.phase)
  {
    JobIsGood(cfg, s, site);
    if site.InStore? { assert s.store[site.i] in s.store; }
  }

  lemma TurnMoves(cfg: Config, g: Gauge, s: State, site: Site, phase: Phase, ch: Change)
    requires Inv(cfg, s) && HasJob(s, site)
    requires ch == Turn(s, site, phase).(added := ch.added, event := ch.event, fault := ch.fault)
    ensures Fits(s, ch.site) && JobAt(s, site).body.Encoded? && Plausible(cfg, JobAt(s, site).body.msg)
    ensures var job := JobAt(s, site); var m := job.body.msg;
      Total(g, Apply(s, ch)) == Total(g, s)
        + Value(g, HomeOf(site), job.worker, m, phase) - Value(g, HomeOf(site), job.worker, m, job.phase)
        + Sum(ch.added, g.copy) + Weigh(ch.event, g.event) + Weigh(ch.fault, g.event)
  {
    TotalAfterChange(g, s, ch);
    JobForm(cfg, s, site);
  }

  lemma SubmitMoves(cfg: Config, g: Gauge, s: State, a: Action)
    requires WellFiled(cfg.index) && Inv(cfg, s) && Enabled(cfg, s, a) && a.Submit?
    ensures Total(g, Next(cfg, s, a)) == Total(g, s) + Delta(cfg, g, DeedOf(cfg, s, a))
  {
    var m := Composed(cfg, a).value;
    ComposedIsDeliverable(cfg.tables, cfg.index, a.req, a.id, a.at);
    LanesAreDistinct(LaneOf(m), LaneOf(m));
    FanoutIsOneCopy(s.bindings, m);
    SumOne(Copy(LaneOf(m).Queue(), Encoded(m), Ready), g.copy);
    TotalAfterChange(g, s, Entering(s, m, a.took));
  }

  lemma RepublishMoves(cfg: Config, g: Gauge, s: State, site: Site, took: bool, ok: bool)
    requires Inv(cfg, s) && HasJob(s, site) && JobAt(s, site).body.Encoded? && JobAt(s, site).phase == Publishing
    ensures var job := JobAt(s, site); var ch := Republishing(cfg, s, site, took, ok);
      Fits(s, ch.site) && Total(g, Apply(s, ch)) ==
        Total(g, s) + Delta(cfg, g, Announce(HomeOf(site), job.worker, job.body.msg, took, ok))
  {
    RepublishAdds(cfg, g, s, site, took, ok);
    TurnMoves(cfg, g, s, site, if ok then Acking else Nacking, Republishing(cfg, s, site, took, ok));
  }

  lemma RepublishAdds(cfg: Config, g: Gauge, s: State, site: Site, took: bool, ok: bool)
    requires Inv(cfg, s) && HasJob(s, site) && JobAt(s, site).body.Encoded?
    ensures Sum(Republishing(cfg, s, site, took, ok).added, g.copy) ==
      if took then g.copy(Added(cfg, JobAt(s, site).body.msg)) else 0
  {
    var m := JobAt(s, site).body.msg;
    JobIsGood(cfg, s, site);
    RetryIsOneCopy(cfg, s, m);
    SumOne(Added(cfg, m), g.copy);
  }

  lemma FinishMoves(cfg: Config, g: Gauge, s: State, site: Site, outcome: Option<Event>)
    requires Inv(cfg, s) && HasJob(s, site) && JobAt(s, site).body.Encoded? && JobAt(s, site).phase == Trying
    ensures var job := JobAt(s, site); var ch := Finishing(s, site, outcome);
      Fits(s, ch.site) && Total(g, Apply(s, ch)) ==
        Total(g, s) + Delta(cfg, g, End(HomeOf(site), job.worker, job.body.msg, outcome))
  {
    TurnMoves(cfg, g, s, site, if outcome.Some? then Acking else Publishing, Finishing(s, site, outcome));
  }

  lemma BeginMoves(cfg: Config, g: Gauge, s: State, site: Site)
    requires Inv(cfg, s) && HasJob(s, site) && JobAt(s, site).phase == Waiting
    ensures JobAt(s, site).body.Encoded?
    ensures var job := JobAt(s, site); var ch := Beginning(s, site);
      Fits(s, ch.site) && Total(g, Apply(s, ch)) ==
        Total(g, s) + Delta(cfg, g, Start(HomeOf(site), job.worker, job.body.msg))
  {
    JobIsGood(cfg, s, site);
    TurnMoves(cfg, g, s, site, Trying, Beginning(s, site));
  }

  lemma SettleMoves(cfg: Config, g: Gauge, s: State, site: Site)
    requires Inv(cfg, s) && HasJob(s, site) && JobAt(s, site).phase in {Acking, Nacking}
    ensures JobAt(s, site).body.Encoded?
    ensures var job := JobAt(s, site); var ch := Settling(s, site);
      Fits(s, ch.site) && Total(g, Apply(s, ch)) ==
        Total(g, s) + Delta(cfg, g, Close(HomeOf(site), job.worker, job.body.msg, job.phase))
  {
    JobForm(cfg, s, site);
    TotalAfterChange(g, s, Settling(s, site));
  }

  /** What taking a delivery back changes, in terms of the message. */
  lemma LosingForm(cfg: Config, s: State, i: nat, survives: bool)
    requires Inv(cfg, s) && HasJob(s, InStore(i))
    ensures s.store[i].body.Encoded?
    ensures var job := JobAt(s, InStore(i)); var m := job.body.msg; var ch := Losing(s, i, survives);
      && s.store[i] == Copy(LaneOf(m).Queue(), Encoded(m), Held(job.worker, job.phase))
      && ch.site == Some(InStore(i)) && ch.added == [] && ch.event == None
      && ch.copy == Some(Copy(LaneOf(m).Queue(), Encoded(m), Ready))
      && ch.stray == (if survives then Some(Orphan(job.worker, Encoded(m), job.phase)) else None)
      && ch.fault == (if Spoils(job.phase) then Some(Unsettled(m)) else None)
  {
    JobForm(cfg, s, InStore(i));
  }

  lemma LoseMoves(cfg: Config, g: Gauge, s: State, i: nat, survives: bool)
    requires Inv(cfg, s) && HasJob(s, InStore(i))
    ensures s.store[i].body.Encoded?
    ensures var job := JobAt(s, InStore(i)); var ch := Losing(s, i, survives);
      Fits(s, ch.site) && Total(g, Apply(s, ch)) ==
        Total(g, s) + Delta(cfg, g, TakeBack(job.worker, job.body.msg, job.phase, survives))
  {
    LosingForm(cfg, s, i, survives);
    TotalAfterChange(g, s, Losing(s, i, survives));
  }

  lemma DeliverMoves(cfg: Config, g: Gauge, s: State, a: Action)
    requires Inv(cfg, s) && Enabled(cfg, s, a) && a.Deliver?
    ensures Total(g, Next(cfg, s, a)) == Total(g, s) + Delta(cfg, g, DeedOf(cfg, s, a))
  {
    assert s.store[a.i] in s.store && GoodCopy(cfg, s.originals, s.store[a.i]);
    LanesAreDistinct(a.worker.lane, a.worker.lane);
    TotalAfterChange(g, s, Effect(cfg, s, a));
  }

  lemma DeedIsSensible(cfg: Config, s: State, a: Action)
    requires WellFiled(cfg.index) && Inv(cfg, s) && Enabled(cfg, s, a)
    ensures Sensible(cfg, DeedOf(cfg, s, a))
  {
    match a
    case Submit(_, _, _, _, _) =>
      ComposedIsDeliverable(cfg.tables, cfg.index, a.req, a.id, a.at);
      LanesAreDistinct(LaneOf(Composed(cfg, a).value), LaneOf(Composed(cfg, a).value));
    case Redeclare(_) =>
    case Deliver(i, w) =>
      assert s.store[i] in s.store && GoodCopy(cfg, s.originals, s.store[i]);
      LanesAreDistinct(w.lane, w.lane);
    case Begin(site) => JobIsGood(cfg, s, site);
    case Finish(site, _, _) => JobIsGood(cfg, s, site);
    case Republish(site, _, _) => JobIsGood(cfg, s, site);
    case Settle(site) => JobIsGood(cfg, s, site);
    case Lose(i, _) => JobIsGood(cfg, s, InStore(i));
    case Vanish(i) => JobIsGood(cfg, s, InOrphans(i));
  }

  /** A step moves a gauge by what its deed says. */
  lemma StepMoves(cfg: Config, g: Gauge, s: State, a: Action)
    requires WellFiled(cfg.index) && Inv(cfg, s) && Enabled(cfg, s, a)
    ensures Total(g, Next(cfg, s, a)) == Total(g, s) + Delta(cfg, g, DeedOf(cfg, s, a))
    ensures Sensible(cfg, DeedOf(cfg, s, a))
  {
    DeedIsSensible(cfg, s, a);
    match a
    case Submit(_, _, _, _, _) => SubmitMoves(cfg, g, s, a);
    case Redeclare(_) => TotalAfterChange(g, s, UNCHANGED);
    case Deliver(_, _) => DeliverMoves(cfg, g, s, a);
    case Begin(site) => BeginMoves(cfg, g, s, site);
    case Finish(site, limited, sendErr) =>
      FinishMoves(cfg, g, s, site, Attempted(cfg, JobAt(s, site), limited, sendErr));
    case Republish(site, took, ok) => RepublishMoves(cfg, g, s, site, took, ok);
    case Settle(site) => SettleMoves(cfg, g, s, site);
    case Lose(i, survives) => LoseMoves(cfg, g, s, i, survives);
    case Vanish(i) =>
      JobForm(cfg, s, InOrphans(i));
      TotalAfterChange(g, s, UNCHANGED.(site := Some(InOrphans(i))));
  }

  // ---------------------------------------------- gauges that never rise

  ghost predicate NeverRaised(cfg: Config, g: Gauge) {
    forall d :: Sensible(cfg, d) ==> Delta(cfg, g, d) <= 0
  }

  ghost predicate Unraised(cfg: Config, g: Gauge, s: State) {
    Inv(cfg, s) && Total(g, s) <= 0
  }

  ghost function StaysUnraised(cfg: Config, g: Gauge): State -> bool {
    (s: State) => Unraised(cfg, g, s)
  }

  /** A gauge that no deed raises is nowhere above zero. */
  lemma NeverAboveZero(cfg: Config, g: Gauge, s: State)
    requires WellFiled(cfg.index) && Reachable(cfg, s) && NeverRaised(cfg, g)
    ensures Total(g, s) <= 0
  {
    forall t, a | Unraised(cfg, g, t) && Enabled(cfg, t, a) ensures Unraised(cfg, g, Next(cfg, t, a)) {
      StepKeepsInv(cfg, t, a);
      StepMoves(cfg, g, t, a);
    }
    assert StaysUnraised(cfg, g)(s);
  }
}
