/** Nothing is lost and nothing multiplies unaccounted for: per notification, the
    copies still to be dealt with and the outcomes recorded balance what entered
    the broker against the attempts that ended without an effective ack. */
module Conservation {
  import opened Prelude
  import opened Notification
  import opened Topology
  import opened Repository
  import opened Sending
  import opened Processing
  import opened Delivery
  import opened Ledger

  // ------------------------------------------------- counts for one notification

  predicate IsAbout(body: Body, id: string) {
    body.Encoded? && body.msg.id == id
  }

  /** Copies of the notification that are not about to be acked. */
  ghost function LiveCopy(id: string): Copy -> int {
    (c: Copy) => if IsAbout(c.body, id) && !(c.hold.Held? && c.hold.phase == Acking) then 1 else 0
  }

  /** Orphaned attempts that may still send or publish. */
  ghost function BusyOrphan(id: string): Orphan -> int {
    (o: Orphan) => if IsAbout(o.body, id) && o.phase in {Trying, Publishing} then 1 else 0
  }

  function Arrived(id: string, e: Event): int {
    if e.Entered? && e.msg.id == id then 1 else 0
  }

  /** Successful sends and permanent drops. */
  function Outcome(id: string, e: Event): int {
    if (e.Delivered? || e.Dropped?) && e.msg.id == id then 1 else 0
  }

  function Tried(id: string, e: Event): int {
    if e.Attempt? && e.msg.id == id then 1 else 0
  }

  function Spoilt(id: string, e: Event): int {
    if e.Unsettled? && e.msg.id == id then 1 else 0
  }

  ghost function Entries(id: string): Event -> int { (e: Event) => Arrived(id, e) }

  ghost function Outcomes(id: string): Event -> int { (e: Event) => Outcome(id, e) }

  ghost function Attempts(id: string): Event -> int { (e: Event) => Tried(id, e) }

  ghost function Faults(id: string): Event -> int { (e: Event) => Spoilt(id, e) }

  ghost function Nothing<T(!new)>(): T -> int {
    (x: T) => 0
  }

  // ------------------------------------------------------------------ gauges

  ghost function EntryGauge(id: string): Gauge {
    Gauge(Nothing(), Nothing(), Entries(id))
  }

  ghost function FaultGauge(id: string): Gauge {
    Gauge(Nothing(), Nothing(), Faults(id))
  }

  ghost function LowerEvent(id: string): Event -> int {
    (e: Event) => Outcome(id, e) - Arrived(id, e)
  }

  ghost function UpperEvent(id: string): Event -> int {
    (e: Event) => Outcome(id, e) - Arrived(id, e) - Spoilt(id, e)
  }

  ghost function Lower(id: string): Gauge {
    Gauge(LiveCopy(id), Nothing(), LowerEvent(id))
  }

  ghost function Upper(id: string): Gauge {
    Gauge(LiveCopy(id), BusyOrphan(id), UpperEvent(id))
  }

  /** How many attempts lie behind a copy or an outcome. */
  function Behind(queue: string, m: Message, hold: Hold): int {
    if queue == DEAD_QUEUE then m.retryCount + 1
    else if hold.Ready? then m.retryCount
    else match hold.phase
      case Trying => m.retryCount + 1
      case Publishing => m.retryCount + 1
      case Acking => 0
      case _ => m.retryCount
  }

  ghost function AgeCopy(id: string): Copy -> int {
    (c: Copy) => if IsAbout(c.body, id) then Behind(c.queue, c.body.msg, c.hold) else 0
  }

  ghost function AgeOrphan(id: string): Orphan -> int {
    (o: Orphan) => if IsAbout(o.body, id) && o.phase in {Trying, Publishing} then o.body.msg.retryCount + 1 else 0
  }

  ghost function AgeEvent(id: string): Event -> int {
    (e: Event) => (if Outcome(id, e) == 1 then e.msg.retryCount + 1 else 0) - Tried(id, e)
  }

  ghost function Age(id: string): Gauge {
    Gauge(AgeCopy(id), AgeOrphan(id), AgeEvent(id))
  }

  lemma LowerNeverFalls(cfg: Config, id: string, d: Deed)
    requires Sensible(cfg, d)
    ensures Delta(cfg, Lower(id), d) >= 0
  {
  }

  lemma UpperNeverRises(cfg: Config, id: string, d: Deed)
    requires Sensible(cfg, d)
    ensures Delta(cfg, Upper(id), d) <= 0
  {
  }

  lemma AgeKeptByAttempts(cfg: Config, id: string, d: Deed)
    requires Sensible(cfg, d) && (d.Start? || d.End?)
    requires d.m.id == id ==> !Disturbs(d)
    ensures Delta(cfg, Age(id), d) == 0
  {
  }

  lemma AgeKeptByAnnouncing(cfg: Config, id: string, d: Deed)
    requires Sensible(cfg, d) && d.Announce?
    requires d.m.id == id ==> !Disturbs(d)
    ensures Delta(cfg, Age(id), d) == 0
  {
  }

  lemma AgeKeptBySettling(cfg: Config, id: string, d: Deed)
    requires Sensible(cfg, d) && (d.Close? || d.TakeBack? || d.Forget?)
    requires d.m.id == id ==> !Disturbs(d)
    ensures Delta(cfg, Age(id), d) == 0
  {
  }

  /** As long as no attempt was spoilt, every attempt is accounted for by the copy
      or the outcome it led to. */
  lemma AgeIsKept(cfg: Config, id: string, d: Deed)
    requires Sensible(cfg, d)
    requires !d.Idle? && d.m.id == id ==> !Disturbs(d)
    ensures Delta(cfg, Age(id), d) == 0
  {
    match d
    case Idle =>
    case Enter(_) =>
    case Take(_, _) =>
    case Start(_, _, _) => AgeKeptByAttempts(cfg, id, d);
    case End(_, _, _, _) => AgeKeptByAttempts(cfg, id, d);
    case Announce(_, _, _, _, _) => AgeKeptByAnnouncing(cfg, id, d);
    case _ => AgeKeptBySettling(cfg, id, d);
  }

  /** Deeds that spoil an attempt, or that deal with an attempt already spoilt. */
  predicate Disturbs(d: Deed) {
    || (d.Start? && d.home == InHand)
    || (d.Announce? && (!d.ok || d.home == InHand))
    || (d.TakeBack? && Spoils(d.phase))
    || (d.Forget? && d.phase in {Trying, Publishing})
  }

  /** Deeds that spoil an attempt: it will not end in an ack the broker receives. */
  predicate Spoiling(d: Deed) {
    || (d.Start? && d.home == InHand)
    || (d.Announce? && !d.ok && d.home == AtBroker)
    || (d.TakeBack? && Spoils(d.phase))
  }

  lemma EntriesCount(cfg: Config, id: string, d: Deed)
    requires Sensible(cfg, d)
    ensures Delta(cfg, EntryGauge(id), d) == if d.Enter? && d.m.id == id then 1 else 0
  {
  }

  lemma FaultsCount(cfg: Config, id: string, d: Deed)
    requires Sensible(cfg, d)
    ensures Delta(cfg, FaultGauge(id), d) == if !d.Idle? && d.m.id == id && Spoiling(d) then 1 else 0
  {
  }

  // -------------------------------------------------------- counts of a state

  ghost function Live(s: State, id: string): int { Sum(s.store, LiveCopy(id)) }

  ghost function Busy(s: State, id: string): int { Sum(s.orphans, BusyOrphan(id)) }

  ghost function EntryCount(s: State, id: string): int { Sum(s.log, Entries(id)) }

  ghost function OutcomeCount(s: State, id: string): int { Sum(s.log, Outcomes(id)) }

  ghost function AttemptCount(s: State, id: string): int { Sum(s.log, Attempts(id)) }

  ghost function FaultCount(s: State, id: string): int { Sum(s.log, Faults(id)) }

  /** The gauges in terms of the counts. */
  lemma GaugesCount(s: State, id: string)
    ensures Total(Lower(id), s) == Live(s, id) + OutcomeCount(s, id) - EntryCount(s, id)
    ensures Total(Upper(id), s) ==
      Live(s, id) + Busy(s, id) + OutcomeCount(s, id) - EntryCount(s, id) - FaultCount(s, id)
    ensures Total(EntryGauge(id), s) == EntryCount(s, id)
    ensures Total(FaultGauge(id), s) == FaultCount(s, id)
    ensures Live(s, id) >= 0 && Busy(s, id) >= 0 && OutcomeCount(s, id) >= 0 && FaultCount(s, id) >= 0
  {
    SumNone(s.store, Nothing<Copy>());
    SumNone(s.orphans, Nothing<Orphan>());
    SumNone(s.log, Nothing<Event>());
    SumCombine(s.log, LowerEvent(id), Outcomes(id), Entries(id), Nothing());
    SumCombine(s.log, UpperEvent(id), Outcomes(id), Entries(id), Faults(id));
    SumNonNegative(s.store, LiveCopy(id));
    SumNonNegative(s.orphans, BusyOrphan(id));
    SumNonNegative(s.log, Outcomes(id));
    SumNonNegative(s.log, Faults(id));
  }

  /** The books of one notification: its copies and outcomes are at least what
      entered, and exceed it by no more than the spoilt attempts. */
  ghost predicate Books(id: string, s: State) {
    && Total(Lower(id), s) >= 0
    && Total(Upper(id), s) <= 0
    && (FaultCount(s, id) == 0 ==> Total(Age(id), s) == 0)
  }

  ghost predicate Once(id: string, s: State) {
    && 0 <= EntryCount(s, id) <= 1
    && (id !in s.originals ==> EntryCount(s, id) == 0)
    && (id in s.accepted ==> EntryCount(s, id) == 1)
  }

  /** What holds of one notification in every reachable state. */
  ghost predicate Balanced(cfg: Config, id: string, s: State) {
    Inv(cfg, s) && Books(id, s) && Once(id, s)
  }

  /** The state moved by a deed. */
  ghost predicate MovedBy(cfg: Config, id: string, s: State, t: State, d: Deed) {
    && Sensible(cfg, d)
    && Total(Lower(id), t) == Total(Lower(id), s) + Delta(cfg, Lower(id), d)
    && Total(Upper(id), t) == Total(Upper(id), s) + Delta(cfg, Upper(id), d)
    && Total(Age(id), t) == Total(Age(id), s) + Delta(cfg, Age(id), d)
    && Total(EntryGauge(id), t) == Total(EntryGauge(id), s) + Delta(cfg, EntryGauge(id), d)
    && Total(FaultGauge(id), t) == Total(FaultGauge(id), s) + Delta(cfg, FaultGauge(id), d)
  }

  lemma StepIsDeed(cfg: Config, id: string, s: State, a: Action)
    requires WellFiled(cfg.index) && Inv(cfg, s) && Enabled(cfg, s, a)
    ensures MovedBy(cfg, id, s, Next(cfg, s, a), DeedOf(cfg, s, a))
  {
    StepMoves(cfg, Lower(id), s, a);
    StepMoves(cfg, Upper(id), s, a);
    StepMoves(cfg, Age(id), s, a);
    StepMoves(cfg, EntryGauge(id), s, a);
    StepMoves(cfg, FaultGauge(id), s, a);
  }

  /** An orphan busy with an unfinished attempt. */
  ghost predicate BusyWith(s: State, id: string) {
    exists j :: 0 <= j < |s.orphans| && IsAbout(s.orphans[j].body, id) && s.orphans[j].phase in {Trying, Publishing}
  }

  /** A busy orphan shows that an attempt was spoilt before. */
  lemma BusyIsFaulty(s: State, id: string)
    requires Total(Lower(id), s) >= 0 && Total(Upper(id), s) <= 0 && BusyWith(s, id)
    ensures FaultCount(s, id) > 0
  {
    GaugesCount(s, id);
    var j :| 0 <= j < |s.orphans| && IsAbout(s.orphans[j].body, id) && s.orphans[j].phase in {Trying, Publishing};
    SumDominates(s.orphans, j, BusyOrphan(id));
  }

  lemma DisturbingIsSpoilingOrBusy(cfg: Config, s: State, a: Action)
    requires Inv(cfg, s) && Enabled(cfg, s, a)
    ensures var d := DeedOf(cfg, s, a); !d.Idle? && Disturbs(d) && !Spoiling(d) ==> BusyWith(s, d.m.id)
  {
    var d := DeedOf(cfg, s, a);
    if !d.Idle? && Disturbs(d) && !Spoiling(d) {
      var j := if a.Vanish? then a.i else a.site.i;
      JobIsGood(cfg, s, InOrphans(j));
      assert IsAbout(s.orphans[j].body, d.m.id) && s.orphans[j].phase in {Trying, Publishing};
    }
  }

  lemma DeedKeepsBooks(cfg: Config, id: string, s: State, t: State, d: Deed)
    requires MovedBy(cfg, id, s, t, d) && Books(id, s)
    requires !d.Idle? && d.m.id == id && Disturbs(d) && !Spoiling(d) ==> BusyWith(s, id)
    ensures Books(id, t)
    ensures EntryCount(t, id) == EntryCount(s, id) + if d.Enter? && d.m.id == id then 1 else 0
  {
    LowerNeverFalls(cfg, id, d);
    UpperNeverRises(cfg, id, d);
    EntriesCount(cfg, id, d);
    FaultsCount(cfg, id, d);
    GaugesCount(s, id);
    GaugesCount(t, id);
    if !d.Idle? && d.m.id == id && Disturbs(d) {
      if !Spoiling(d) { BusyIsFaulty(s, id); }
    } else {
      AgeIsKept(cfg, id, d);
    }
  }

  lemma SubmitEntersOnce(cfg: Config, id: string, s: State, a: Action)
    requires WellFiled(cfg.index) && Inv(cfg, s) && Once(id, s) && Enabled(cfg, s, a) && a.Submit?
    requires EntryCount(Next(cfg, s, a), id) == EntryCount(s, id) + if a.took && a.id == id then 1 else 0
    ensures Once(id, Next(cfg, s, a))
  {
    var t := Next(cfg, s, a);
    assert t.originals == s.originals[a.id := Composed(cfg, a).value];
    assert t.accepted == if a.ok then s.accepted + {a.id} else s.accepted;
  }

  lemma OtherEntersOnce(cfg: Config, id: string, s: State, a: Action)
    requires Once(id, s) && Enabled(cfg, s, a) && !a.Submit?
    requires EntryCount(Next(cfg, s, a), id) == EntryCount(s, id)
    ensures Once(id, Next(cfg, s, a))
  {
    var t := Next(cfg, s, a);
    assert t.originals == s.originals && t.accepted == s.accepted;
  }

  lemma StepKeepsBalance(cfg: Config, id: string, s: State, a: Action)
    requires WellFiled(cfg.index) && Balanced(cfg, id, s) && Enabled(cfg, s, a)
    ensures Balanced(cfg, id, Next(cfg, s, a))
  {
    StepKeepsInv(cfg, s, a);
    StepIsDeed(cfg, id, s, a);
    DisturbingIsSpoilingOrBusy(cfg, s, a);
    DeedKeepsBooks(cfg, id, s, Next(cfg, s, a), DeedOf(cfg, s, a));
    if a.Submit? {
      ComposedIsDeliverable(cfg.tables, cfg.index, a.req, a.id, a.at);
      SubmitEntersOnce(cfg, id, s, a);
    } else {
      OtherEntersOnce(cfg, id, s, a);
    }
  }

  ghost function Balance(cfg: Config, id: string): State -> bool {
    (s: State) => Balanced(cfg, id, s)
  }

  lemma ReachableIsBalanced(cfg: Config, s: State, id: string)
    requires WellFiled(cfg.index) && Reachable(cfg, s)
    ensures Balanced(cfg, id, s)
  {
    forall t, a | Balanced(cfg, id, t) && Enabled(cfg, t, a) ensures Balanced(cfg, id, Next(cfg, t, a)) {
      StepKeepsBalance(cfg, id, t, a);
    }
    assert Balance(cfg, id)(s);
  }

  // ------------------------------------------------------------ main results

  /** Conservation: the copies to be dealt with and the outcomes of a notification
      are never fewer than what entered the broker, and never more than that plus
      the attempts spoilt. */
  lemma CopiesAreConserved(cfg: Config, s: State, id: string)
    requires WellFiled(cfg.index) && Reachable(cfg, s)
    ensures
      && 0 <= EntryCount(s, id) <= 1
      && EntryCount(s, id) <= Live(s, id) + OutcomeCount(s, id)
      && Live(s, id) + OutcomeCount(s, id) + Busy(s, id) <= EntryCount(s, id) + FaultCount(s, id)
  {
    ReachableIsBalanced(cfg, s, id);
    GaugesCount(s, id);
  }

  ghost predicate Stored(s: State, c: Copy, id: string)
    requires id in s.originals
  {
    && c in s.store && IsAbout(c.body, id) && c.body.msg.SameAs(s.originals[id])
    && (c.queue == LaneOf(s.originals[id]).Queue() || c.queue == DEAD_QUEUE)
    && !(c.hold.Held? && c.hold.phase == Acking)
  }

  /** A recorded end: a delivery of something the notification renders to, or a drop for a
      reason that is true of it. */
  ghost predicate Recorded(cfg: Config, s: State, e: Event, id: string)
    requires id in s.originals
  {
    && e in s.log && e.msg.id == id && e.msg.SameAs(s.originals[id])
    && ((e.Delivered? && Sendable(cfg, s.originals[id])) || (e.Dropped? && DroppedFor(cfg, e.(msg := s.originals[id]))))
  }

  /** Whatever the faults, a notification that entered the broker, whether or not the
      API learnt of it, is on its lane's queue or held from it, or in the dead-letter
      queue, or has been delivered, or was given up on for a recorded permanent error. */
  lemma EnteredIsNotLost(cfg: Config, s: State, id: string)
    requires WellFiled(cfg.index) && Reachable(cfg, s)
    requires EntryCount(s, id) >= 1
    ensures id in s.originals
    ensures (exists c :: Stored(s, c, id)) || (exists e :: Recorded(cfg, s, e, id))
  {
    ReachableIsBalanced(cfg, s, id);
    CopiesAreConserved(cfg, s, id);
    GaugesCount(s, id);
    if Live(s, id) > 0 {
      var i := SumWitness(s.store, LiveCopy(id));
      assert GoodCopy(cfg, s.originals, s.store[i]);
      assert Stored(s, s.store[i], id);
    } else {
      var k := SumWitness(s.log, Outcomes(id));
      assert GoodEvent(cfg, s.originals, s.log[k]);
      assert Recorded(cfg, s, s.log[k], id);
    }
  }

  /** No silent loss: so it is with every notification whose send succeeded. */
  lemma NothingIsLost(cfg: Config, s: State, id: string)
    requires WellFiled(cfg.index) && Reachable(cfg, s)
    requires id in s.accepted
    ensures id in s.originals
    ensures (exists c :: Stored(s, c, id)) || (exists e :: Recorded(cfg, s, e, id))
  {
    ReachableIsBalanced(cfg, s, id);
    EnteredIsNotLost(cfg, s, id);
  }

  /** A notification none of whose attempts was spoilt is, once in the broker, in
      exactly one place or has exactly one outcome. */
  lemma UnspoiltIsInOnePlace(cfg: Config, s: State, id: string)
    requires WellFiled(cfg.index) && Reachable(cfg, s)
    requires FaultCount(s, id) == 0
    ensures Live(s, id) + OutcomeCount(s, id) == EntryCount(s, id) && Busy(s, id) == 0
  {
    CopiesAreConserved(cfg, s, id);
    GaugesCount(s, id);
  }

  /** Every copy of the notification is parked in the dead-letter queue. */
  ghost predicate Parked(s: State, id: string) {
    forall c :: c in s.store && IsAbout(c.body, id) ==> c.queue == DEAD_QUEUE
  }

  lemma ParkedAges(cfg: Config, s: State, id: string)
    requires Inv(cfg, s) && id in s.originals && Parked(s, id)
    ensures Sum(s.store, AgeCopy(id)) == (Cap(cfg, LaneOf(s.originals[id])) + 1) * Live(s, id)
  {
    var n := Cap(cfg, LaneOf(s.originals[id])) + 1;
    forall c | c in s.store ensures Marks(AgeCopy(id), LiveCopy(id), n, c) {
      assert GoodCopy(cfg, s.originals, c);
    }
    SumMarked(s.store, AgeCopy(id), LiveCopy(id), n);
  }

  lemma IdleOrphansAges(s: State, id: string)
    requires Busy(s, id) == 0
    ensures Sum(s.orphans, AgeOrphan(id)) == 0
  {
    SumZero(s.orphans, BusyOrphan(id));
    forall o | o in s.orphans ensures AgeOrphan(id)(o) == 0 {
      assert BusyOrphan(id)(o) == 0;
    }
    SumNone(s.orphans, AgeOrphan(id));
  }

  lemma FruitlessAges(s: State, id: string)
    requires OutcomeCount(s, id) == 0
    ensures Sum(s.log, AgeEvent(id)) == -AttemptCount(s, id)
  {
    SumZero(s.log, Outcomes(id));
    forall e | e in s.log ensures AgeEvent(id)(e) == Nothing<Event>()(e) - Attempts(id)(e) - Nothing<Event>()(e) {
      assert Outcomes(id)(e) == 0;
    }
    SumNone(s.log, Nothing<Event>());
    SumCombine(s.log, AgeEvent(id), Nothing(), Attempts(id), Nothing());
  }

  lemma EnteredIsKnown(s: State, id: string)
    requires Once(id, s) && EntryCount(s, id) == 1
    ensures id in s.originals
  {
  }

  lemma ExhaustedState(cfg: Config, s: State, id: string)
    requires Balanced(cfg, id, s) && FaultCount(s, id) == 0 && EntryCount(s, id) == 1
    requires OutcomeCount(s, id) == 0 && Busy(s, id) == 0 && Live(s, id) == 1 && Parked(s, id)
    ensures id in s.originals && AttemptCount(s, id) == Cap(cfg, LaneOf(s.originals[id])) + 1
  {
    EnteredIsKnown(s, id);
    ParkedAges(cfg, s, id);
    IdleOrphansAges(s, id);
    FruitlessAges(s, id);
  }

  /** A notification that only ever failed transiently, without a spoilt attempt,
      and that is no longer in its lane, was tried once and then once more for each
      retry its lane allows. */
  lemma ExhaustedAfterAllRetries(cfg: Config, s: State, id: string)
    requires WellFiled(cfg.index) && Reachable(cfg, s)
    requires FaultCount(s, id) == 0 && EntryCount(s, id) == 1 && OutcomeCount(s, id) == 0 && Parked(s, id)
    ensures id in s.originals && Live(s, id) == 1 && AttemptCount(s, id) == Cap(cfg, LaneOf(s.originals[id])) + 1
  {
    ReachableIsBalanced(cfg, s, id);
    UnspoiltIsInOnePlace(cfg, s, id);
    ExhaustedState(cfg, s, id);
  }

  /** Lane purity: whatever is on a lane's queue is of that lane's type and priority,
      addressed for it, and but for its retry count what the API composed. */
  lemma LanesArePure(cfg: Config, s: State, lane: Lane, c: Copy)
    requires WellFiled(cfg.index) && Reachable(cfg, s)
    requires lane.Valid() && c in s.store && c.queue == lane.Queue()
    ensures c.body.Encoded? && c.body.msg.typ == lane.typ && c.body.msg.priority == lane.priority
    ensures RecipientOk(cfg.tables, lane.typ, c.body.msg.recipient)
    ensures c.body.msg.id in s.originals && c.body.msg.SameAs(s.originals[c.body.msg.id])
    ensures 0 <= c.body.msg.retryCount <= Cap(cfg, lane)
  {
    ReachableIsGood(cfg, s);
    assert GoodCopy(cfg, s.originals, c);
    var m := c.body.msg;
    assert GoodOriginal(cfg, m.id, s.originals[m.id]);
    LanesAreDistinct(lane, lane);
    LanesAreDistinct(lane, LaneOf(m));
  }

  /** The broker confirms an unroutable message and discards it: what it takes leaves a
      copy exactly when the message's routing key is bound. */
  lemma ConfirmedIsKeptWhenBound(cfg: Config, s: State, a: Action)
    requires WellFiled(cfg.index) && Enabled(cfg, s, a) && a.Submit? && a.took
    requires forall c :: c in s.store ==> !IsAbout(c.body, a.id)
    ensures var m := Composed(cfg, a).value;
      (exists c :: c in Next(cfg, s, a).store && IsAbout(c.body, a.id))
      <==> (exists b :: b in s.bindings && b.key == RoutingKey(m.typ, m.priority))
  {
    var m := Composed(cfg, a).value;
    ComposedIsDeliverable(cfg.tables, cfg.index, a.req, a.id, a.at);
    var added := Fanout(s.bindings, RoutingKey(m.typ, m.priority), m);
    assert Next(cfg, s, a).store == s.store + added;
    if added != [] { assert added[0] in Next(cfg, s, a).store && IsAbout(added[0].body, a.id); }
  }

  /** So the whole topology has to be there first: on a broker that lacks the binding
      of its lane, any request that can be composed is accepted, confirmed and lost. */
  lemma UnboundIsAcceptedAndLost(cfg: Config, s: State, req: Request, id: string, at: int)
    requires WellFiled(cfg.index) && Compose(cfg.tables, cfg.index, req, id, at).Success?
    requires id !in s.originals && forall e :: e in s.log ==> e.msg.id != id
    requires forall c :: c in s.store ==> !IsAbout(c.body, id)
    requires Lane(req.typ, Defaulted(req.priority)).Bound().key !in set b | b in s.bindings :: b.key
    ensures var a := Submit(req, id, at, true, true);
      Enabled(cfg, s, a)
      && id in Next(cfg, s, a).accepted
      && (forall c :: c in Next(cfg, s, a).store ==> !IsAbout(c.body, id))
      && (forall e :: !Recorded(cfg, Next(cfg, s, a), e, id))
  {
    var a := Submit(req, id, at, true, true);
    ConfirmedIsKeptWhenBound(cfg, s, a);
  }

  /** When publishing the retry or dead letter fails, the nack puts the delivery
      back as it was: same place, same body, same retry count. */
  lemma FailedRequeueChangesNothing(cfg: Config, s: State, i: nat, took: bool)
    requires Enabled(cfg, s, Republish(InStore(i), took, false))
    ensures var t := Next(cfg, s, Republish(InStore(i), took, false));
      && Enabled(cfg, t, Settle(InStore(i)))
      && i < |Next(cfg, t, Settle(InStore(i))).store|
      && Next(cfg, t, Settle(InStore(i))).store[i] == s.store[i].(hold := Ready)
  {
  }

  /** The publish fails although the broker takes it, and the nack follows. */
  ghost predicate LeavesAfterNack(cfg: Config, s: State, i: nat, store: seq<Copy>) {
    && Enabled(cfg, s, Republish(InStore(i), true, false))
    && var t := Next(cfg, s, Republish(InStore(i), true, false));
    Enabled(cfg, t, Settle(InStore(i))) && Next(cfg, t, Settle(InStore(i))).store == store
  }

  lemma RequeueAnyway(cfg: Config, s: State, i: nat, extra: Copy)
    requires HasJob(s, InStore(i)) && s.store[i].hold.phase == Publishing && s.store[i].body.Encoded?
    requires
      var (m, key) := Retry(cfg, s.store[i].hold.worker.lane, s.store[i].body.msg);
      Fanout(s.bindings, key, m) == [extra]
    ensures Enabled(cfg, s, Republish(InStore(i), true, false))
    ensures Next(cfg, s, Republish(InStore(i), true, false)).store
      == s.store[i := s.store[i].(hold := Held(s.store[i].hold.worker, Nacking))] + [extra]
  {
  }

  lemma NackPutsBack(cfg: Config, s: State, i: nat)
    requires HasJob(s, InStore(i)) && s.store[i].hold.phase == Nacking
    ensures Enabled(cfg, s, Settle(InStore(i)))
    ensures Next(cfg, s, Settle(InStore(i))).store == s.store[i := s.store[i].(hold := Ready)]
  {
  }

  lemma RequeueThenNack(cfg: Config, s: State, i: nat, extra: Copy)
    requires HasJob(s, InStore(i)) && s.store[i].hold.phase == Publishing && s.store[i].body.Encoded?
    requires
      var (m, key) := Retry(cfg, s.store[i].hold.worker.lane, s.store[i].body.msg);
      Fanout(s.bindings, key, m) == [extra]
    ensures LeavesAfterNack(cfg, s, i, s.store[i := s.store[i].(hold := Ready)] + [extra])
  {
    RequeueAnyway(cfg, s, i, extra);
    var t := Next(cfg, s, Republish(InStore(i), true, false));
    NackPutsBack(cfg, t, i);
    assert t.store[i := t.store[i].(hold := Ready)] == s.store[i := s.store[i].(hold := Ready)] + [extra];
  }

  lemma RequeueStores(cfg: Config, s: State, i: nat)
    requires Inv(cfg, s) && HasJob(s, InStore(i))
    ensures s.store[i].body.Encoded?
    ensures
      var (m, key) := Retry(cfg, s.store[i].hold.worker.lane, s.store[i].body.msg);
      Fanout(s.bindings, key, m) == [Added(cfg, s.store[i].body.msg)]
  {
    JobIsGood(cfg, s, InStore(i));
    RetryIsOneCopy(cfg, s, s.store[i].body.msg);
  }

  /** A failed publish may have reached the broker all the same. Then the delivery goes
      back to its place and the retry, or the dead letter, is stored as well. */
  lemma AmbiguousRequeueDuplicates(cfg: Config, s: State, i: nat)
    requires Inv(cfg, s) && HasJob(s, InStore(i)) && s.store[i].hold.phase == Publishing
    ensures s.store[i].body.Encoded?
    ensures LeavesAfterNack(cfg, s, i, s.store[i := s.store[i].(hold := Ready)] + [Added(cfg, s.store[i].body.msg)])
  {
    RequeueStores(cfg, s, i);
    RequeueThenNack(cfg, s, i, Added(cfg, s.store[i].body.msg));
  }

  /** So may a send that the API reports as failed: the caller learns of no
      notification, and there is one, or there is none. */
  lemma UnconfirmedMayBeKept(cfg: Config, s: State, req: Request, id: string, at: int, took: bool)
    requires WellFiled(cfg.index) && Inv(cfg, s) && id !in s.originals
    requires Compose(cfg.tables, cfg.index, req, id, at).Success?
    ensures var a := Submit(req, id, at, took, false);
      var m := Compose(cfg.tables, cfg.index, req, id, at).value;
      && Enabled(cfg, s, a) && Next(cfg, s, a).accepted == s.accepted && id !in s.accepted
      && Next(cfg, s, a).store == s.store + (if took then [Copy(LaneOf(m).Queue(), Encoded(m), Ready)] else [])
  {
    var m := Compose(cfg.tables, cfg.index, req, id, at).value;
    ComposedIsDeliverable(cfg.tables, cfg.index, req, id, at);
    FanoutIsOneCopy(s.bindings, m);
  }
}
