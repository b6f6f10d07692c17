/** Bounded work: how many attempts a run can make. Each entry into the broker, and each
    attempt that did not end in an effective ack, pays for one attempt and for the
    retries the message's own lane allows. */
module Workload {
  import opened Prelude
  import opened Notification
  import opened Topology
  import opened Repository
  import opened Processing
  import opened Delivery
  import opened Ledger
  import opened Conservation

  /** Which notifications are counted. */
  type Choice = string -> bool

  /** Retries a message still has. */
  function RetriesLeft(cfg: Config, m: Message): nat {
    Max(cfg.Limit(LaneOf(m)) - m.retryCount, 0)
  }

  /** Attempts a copy can still give rise to if none is spoilt. */
  function CopyWork(cfg: Config, c: Copy): int {
    if c.body.Garbled? || c.queue == DEAD_QUEUE then 0
    else if c.hold.Ready? || c.hold.phase == Waiting || c.hold.phase == Nacking then RetriesLeft(cfg, c.body.msg) + 1
    else if c.hold.phase == Acking then 0
    else RetriesLeft(cfg, c.body.msg)
  }

  function OrphanWork(cfg: Config, o: Orphan): int {
    if o.body.Encoded? && o.phase in {Trying, Publishing} then RetriesLeft(cfg, o.body.msg) else 0
  }

  predicate Counted(choice: Choice, body: Body) {
    body.Encoded? && choice(body.msg.id)
  }

  /** What an entry or a spoilt attempt allows: a first attempt and all retries. */
  function Allowance(cfg: Config, e: Event): int {
    if e.Entered? || e.Unsettled? then Cap(cfg, LaneOf(e.msg)) + 1 else 0
  }

  ghost function CopyWorks(cfg: Config, choice: Choice): Copy -> int {
    (c: Copy) => if Counted(choice, c.body) then CopyWork(cfg, c) else 0
  }

  ghost function OrphanWorks(cfg: Config, choice: Choice): Orphan -> int {
    (o: Orphan) => if Counted(choice, o.body) then OrphanWork(cfg, o) else 0
  }

  ghost function AttemptsOf(choice: Choice): Event -> int {
    (e: Event) => if e.Attempt? && choice(e.msg.id) then 1 else 0
  }

  ghost function Allowances(cfg: Config, choice: Choice): Event -> int {
    (e: Event) => if choice(e.msg.id) then Allowance(cfg, e) else 0
  }

  ghost function EventWorks(cfg: Config, choice: Choice): Event -> int {
    (e: Event) => if choice(e.msg.id) then (if e.Attempt? then 1 else 0) - Allowance(cfg, e) else 0
  }

  /** Attempts made and still possible, less those allowed. */
  ghost function Work(cfg: Config, choice: Choice): Gauge {
    Gauge(CopyWorks(cfg, choice), OrphanWorks(cfg, choice), EventWorks(cfg, choice))
  }

  lemma WorkOfAttempts(cfg: Config, choice: Choice, d: Deed)
    requires Sensible(cfg, d) && (d.Start? || d.End?)
    ensures Delta(cfg, Work(cfg, choice), d) <= 0
  {
  }

  lemma WorkOfAnnouncing(cfg: Config, choice: Choice, d: Deed)
    requires Sensible(cfg, d) && d.Announce?
    ensures Delta(cfg, Work(cfg, choice), d) <= 0
  {
  }

  lemma WorkOfSettling(cfg: Config, choice: Choice, d: Deed)
    requires Sensible(cfg, d) && (d.Close? || d.TakeBack? || d.Forget?)
    ensures Delta(cfg, Work(cfg, choice), d) <= 0
  {
  }

  lemma WorkNeverRises(cfg: Config, choice: Choice, d: Deed)
    requires Sensible(cfg, d)
    ensures Delta(cfg, Work(cfg, choice), d) <= 0
  {
    match d
    case Idle =>
    case Enter(_) =>
    case Take(_, _) =>
    case Start(_, _, _) => WorkOfAttempts(cfg, choice, d);
    case End(_, _, _, _) => WorkOfAttempts(cfg, choice, d);
    case Announce(_, _, _, _, _) => WorkOfAnnouncing(cfg, choice, d);
    case _ => WorkOfSettling(cfg, choice, d);
  }

  /** Amortised work bound: in every reachable state, and for whichever notifications
      one counts, the attempts made are at most those that entries and spoilt attempts
      allow, each by the limit of its message's own lane. */
  lemma WorkIsBounded(cfg: Config, choice: Choice, s: State)
    requires WellFiled(cfg.index) && Reachable(cfg, s)
    ensures Sum(s.log, AttemptsOf(choice)) <= Sum(s.log, Allowances(cfg, choice))
  {
    forall d | Sensible(cfg, d) ensures Delta(cfg, Work(cfg, choice), d) <= 0 { WorkNeverRises(cfg, choice, d); }
    NeverAboveZero(cfg, Work(cfg, choice), s);
    SumNonNegative(s.store, CopyWorks(cfg, choice));
    SumNonNegative(s.orphans, OrphanWorks(cfg, choice));
    SumNone(s.log, Nothing<Event>());
    SumCombine(s.log, EventWorks(cfg, choice), AttemptsOf(choice), Allowances(cfg, choice), Nothing());
  }

  ghost function Only(id: string): Choice {
    (x: string) => x == id
  }

  ghost function EntriesAndFaults(id: string): Event -> int {
    (e: Event) => Arrived(id, e) + Spoilt(id, e)
  }

  /** The lane of a recorded event is that of its notification, and a valid one. */
  lemma EventLane(cfg: Config, s: State, e: Event)
    requires Inv(cfg, s) && e in s.log
    ensures e.msg.id in s.originals && LaneOf(e.msg) == LaneOf(s.originals[e.msg.id]) && LaneOf(e.msg).Valid()
  {
    assert GoodEvent(cfg, s.originals, e);
    assert GoodOriginal(cfg, e.msg.id, s.originals[e.msg.id]);
  }

  lemma AllowanceOfOne(cfg: Config, id: string, n: nat, e: Event)
    requires e.msg.id == id ==> Cap(cfg, LaneOf(e.msg)) + 1 == n
    ensures Marks(Allowances(cfg, Only(id)), EntriesAndFaults(id), n, e)
  {
    assert Only(id)(e.msg.id) == (e.msg.id == id);
    assert Allowances(cfg, Only(id))(e) == if e.msg.id == id then Allowance(cfg, e) else 0;
    assert EntriesAndFaults(id)(e) == if e.msg.id == id && (e.Entered? || e.Unsettled?) then 1 else 0;
  }

  lemma AllowancesOfOne(cfg: Config, s: State, id: string)
    requires Inv(cfg, s) && id in s.originals
    ensures Sum(s.log, Allowances(cfg, Only(id)))
      == (Cap(cfg, LaneOf(s.originals[id])) + 1) * (EntryCount(s, id) + FaultCount(s, id))
  {
    var n := Cap(cfg, LaneOf(s.originals[id])) + 1;
    forall e | e in s.log ensures Marks(Allowances(cfg, Only(id)), EntriesAndFaults(id), n, e) {
      EventLane(cfg, s, e);
      AllowanceOfOne(cfg, id, n, e);
    }
    SumMarked(s.log, Allowances(cfg, Only(id)), EntriesAndFaults(id), n);
    SumNone(s.log, Nothing<Event>());
    SumCombine(s.log, Entries(id), EntriesAndFaults(id), Faults(id), Nothing());
  }

  /** A notification is attempted at most once, and once more per retry its lane
      allows, for its entry and for each spoilt attempt on it. */
  lemma AttemptsPerNotification(cfg: Config, s: State, id: string)
    requires WellFiled(cfg.index) && Reachable(cfg, s) && id in s.originals
    ensures AttemptCount(s, id) <= (Cap(cfg, LaneOf(s.originals[id])) + 1) * (EntryCount(s, id) + FaultCount(s, id))
  {
    ReachableIsGood(cfg, s);
    WorkIsBounded(cfg, Only(id), s);
    AllowancesOfOne(cfg, s, id);
    forall e | e in s.log ensures Marks(AttemptsOf(Only(id)), Attempts(id), 1, e) {
      assert Only(id)(e.msg.id) == (e.msg.id == id);
    }
    SumMarked(s.log, AttemptsOf(Only(id)), Attempts(id), 1);
  }

  // -------------------------------------------------- spoilt attempts are attempts

  /** Attempts at the broker that are under way and not spoilt. */
  ghost function SoundAttempts(id: string): Copy -> int {
    (c: Copy) => if IsAbout(c.body, id) && c.hold.Held? && Spoils(c.hold.phase) then 1 else 0
  }

  ghost function SpoiltLessTried(id: string): Event -> int {
    (e: Event) => Spoilt(id, e) - Tried(id, e)
  }

  /** Attempts under way or spoilt, less those made. */
  ghost function Outstanding(id: string): Gauge {
    Gauge(SoundAttempts(id), Nothing(), SpoiltLessTried(id))
  }

  lemma OutstandingNeverRises(cfg: Config, id: string, d: Deed)
    requires Sensible(cfg, d)
    ensures Delta(cfg, Outstanding(id), d) <= 0
  {
  }

  /** What pays for further work is itself work: no notification has more spoilt
      attempts, and attempts under way, than attempts. */
  lemma SpoiltAreAttempts(cfg: Config, s: State, id: string)
    requires WellFiled(cfg.index) && Reachable(cfg, s)
    ensures FaultCount(s, id) + Sum(s.store, SoundAttempts(id)) <= AttemptCount(s, id)
    ensures FaultCount(s, id) <= AttemptCount(s, id)
  {
    forall d | Sensible(cfg, d) ensures Delta(cfg, Outstanding(id), d) <= 0 { OutstandingNeverRises(cfg, id, d); }
    NeverAboveZero(cfg, Outstanding(id), s);
    SumNonNegative(s.store, SoundAttempts(id));
    SumNone(s.orphans, Nothing<Orphan>());
    SumNone(s.log, Nothing<Event>());
    SumCombine(s.log, SpoiltLessTried(id), Faults(id), Attempts(id), Nothing());
  }

  // --------------------------------------------------------------- all together

  /** No lane allows more than `b` retries. */
  ghost predicate LimitedBy(cfg: Config, b: nat) {
    forall lane: Lane :: lane.Valid() ==> Cap(cfg, lane) <= b
  }

  ghost function Everything(): Choice {
    (x: string) => true
  }

  function Pays(e: Event): int {
    if e.Entered? || e.Unsettled? then 1 else 0
  }

  ghost function Paying(): Event -> int {
    (e: Event) => Pays(e)
  }

  ghost function Rounds(b: nat): Event -> int {
    (e: Event) => if Pays(e) == 1 then b + 1 else 0
  }

  lemma AllowanceWithinRound(cfg: Config, b: nat, e: Event)
    requires Cap(cfg, LaneOf(e.msg)) <= b
    ensures Allowance(cfg, e) <= if Pays(e) == 1 then b + 1 else 0
  {
  }

  /** With one limit for all lanes: (limit + 1) attempts for each entry and for each
      spoilt attempt. */
  lemma AllWorkIsBounded(cfg: Config, b: nat, s: State)
    requires WellFiled(cfg.index) && LimitedBy(cfg, b) && Reachable(cfg, s)
    ensures Sum(s.log, AttemptsOf(Everything())) <= (b + 1) * Sum(s.log, Paying())
  {
    ReachableIsGood(cfg, s);
    WorkIsBounded(cfg, Everything(), s);
    forall e | e in s.log ensures Allowances(cfg, Everything())(e) <= Rounds(b)(e) {
      EventLane(cfg, s, e);
      AllowanceWithinRound(cfg, b, e);
    }
    SumBetween(s.log, Allowances(cfg, Everything()), Rounds(b));
    SumMarked(s.log, Rounds(b), Paying(), b + 1);
  }
}
