/** The delivery protocol as a step system: the API publishing, the broker's
    queues, and any number of workers, with ambiguous publishes, lost
    settlements, broken connections and crashes at any point.

    The broker stores copies in arrival order; a copy that goes back to its queue
    goes back to its place. A held copy carries the state of the worker's handling
    of it. When the broker takes a held copy back, the worker may still have the
    delivery in hand: it becomes an orphan, which the worker handles like any
    other but whose settlement reaches nobody. */
module Delivery {
  import opened Prelude
  import opened Notification
  import opened Topology
  import opened Repository
  import opened Sending
  import opened Processing
  import opened Runs

  /** A message body as the worker finds it: a coded message or anything else. */
  datatype Body = Encoded(msg: Message) | Garbled

  /** A worker process serves one lane. */
  datatype Worker = Worker(id: nat, lane: Lane)

  /** Where the handling of a delivery stands: not begun, inside the processor,
      about to publish the retry or dead letter, about to ack, about to nack. */
  datatype Phase = Waiting | Trying | Publishing | Acking | Nacking

  datatype Hold = Ready | Held(worker: Worker, phase: Phase)

  datatype Copy = Copy(queue: string, body: Body, hold: Hold)

  datatype Orphan = Orphan(worker: Worker, body: Body, phase: Phase)

  /** The record of a run. `Unsettled` marks an attempt that does not end in an ack
      the broker receives; it is noted when that becomes certain. */
  datatype Event =
    | Entered(msg: Message)
    | Attempt(msg: Message)
    | Delivered(msg: Message)
    | Dropped(msg: Message, stage: Stage)
    | Unsettled(msg: Message)

  datatype State = State(
    bindings: seq<Binding>,
    store: seq<Copy>,
    orphans: seq<Orphan>,
    originals: map<string, Message>,
    accepted: set<string>,
    log: seq<Event>)

  datatype Site = InStore(i: nat) | InOrphans(i: nat)

  datatype Action =
    | Submit(req: Request, id: string, at: int, took: bool, ok: bool)
    | Redeclare(b: Binding)
    | Deliver(i: nat, worker: Worker)
    | Begin(site: Site)
    | Finish(site: Site, limited: bool, sendErr: Option<Err>)
    | Republish(site: Site, took: bool, ok: bool)
    | Settle(site: Site)
    | Lose(i: nat, survives: bool)
    | Vanish(i: nat)

  // ------------------------------------------------------------------- jobs

  predicate HasJob(s: State, site: Site) {
    match site
    case InStore(i) => i < |s.store| && s.store[i].hold.Held?
    case InOrphans(i) => i < |s.orphans|
  }

  function JobAt(s: State, site: Site): Orphan
    requires HasJob(s, site)
  {
    match site
    case InStore(i) => Orphan(s.store[i].hold.worker, s.store[i].body, s.store[i].hold.phase)
    case InOrphans(i) => s.orphans[i]
  }

  /** A worker handles one delivery at a time. */
  ghost predicate Free(s: State, w: Worker) {
    forall site :: HasJob(s, site) && JobAt(s, site).worker == w ==> JobAt(s, site).phase == Waiting
  }

  // ---------------------------------------------------------------- changes

  /** What one step does: it replaces or removes the copy or orphan at `site`, adds
      copies and at most one orphan, and records at most two events. */
  datatype Change = Change(
    site: Option<Site>,
    copy: Option<Copy>,
    orphan: Option<Orphan>,
    added: seq<Copy>,
    stray: Option<Orphan>,
    event: Option<Event>,
    fault: Option<Event>)

  predicate Fits(s: State, site: Option<Site>) {
    match site
    case None => true
    case Some(InStore(i)) => i < |s.store|
    case Some(InOrphans(i)) => i < |s.orphans|
  }

  function Apply(s: State, ch: Change): State
    requires Fits(s, ch.site)
  {
    var store :=
      if ch.site.Some? && ch.site.value.InStore? then Splice(s.store, ch.site.value.i, ch.copy) else s.store;
    var orphans :=
      if ch.site.Some? && ch.site.value.InOrphans? then Splice(s.orphans, ch.site.value.i, ch.orphan) else s.orphans;
    s.(store := store + ch.added,
       orphans := orphans + Singleton(ch.stray),
       log := s.log + Singleton(ch.event) + Singleton(ch.fault))
  }

  const UNCHANGED := Change(None, None, None, [], None, None, None)

  /** The job at `site` goes on to another phase. */
  function Turn(s: State, site: Site, phase: Phase): Change
    requires HasJob(s, site)
  {
    var job := JobAt(s, site);
    UNCHANGED.(site := Some(site),
               copy := if site.InStore? then Some(s.store[site.i].(hold := Held(job.worker, phase))) else None,
               orphan := if site.InOrphans? then Some(job.(phase := phase)) else None)
  }

  /** The copies a published message is stored as: one in every queue its routing
      key is bound to, and none at all if there is no such queue. */
  function Fanout(bindings: seq<Binding>, key: string, m: Message): seq<Copy> {
    var queues := Route(bindings, key);
    seq(|queues|, k requires 0 <= k < |queues| => Copy(queues[k], Encoded(m), Ready))
  }

  function LaneOf(m: Message): Lane {
    Lane(m.typ, m.priority)
  }

  /** What a worker publishes after a transient failure, and under which key. */
  function Retry(cfg: Config, lane: Lane, m: Message): (Message, string) {
    if m.CanRetry(cfg.Limit(lane)) then (m.Retried(), RoutingKey(m.typ, m.priority)) else (m, DEAD_KEY)
  }

  function Composed(cfg: Config, a: Action): Result<Message, SendError>
    requires a.Submit?
  {
    Compose(cfg.tables, cfg.index, a.req, a.id, a.at)
  }

  /** What a publish by the API does at the broker, if the broker takes it. */
  function Entering(s: State, m: Message, took: bool): Change {
    if took then UNCHANGED.(added := Fanout(s.bindings, RoutingKey(m.typ, m.priority), m), event := Some(Entered(m)))
    else UNCHANGED
  }

  function Registered(s: State, id: string, m: Message, ok: bool): State {
    s.(originals := s.originals[id := m], accepted := if ok then s.accepted + {id} else s.accepted)
  }

  /** A body that does not decode is acked at once; any other goes to the processor. */
  function Beginning(s: State, site: Site): Change
    requires HasJob(s, site)
  {
    var body := JobAt(s, site).body;
    if body.Garbled? then Turn(s, site, Acking)
    else Turn(s, site, Trying).(event := Some(Attempt(body.msg)),
                                fault := if site.InOrphans? then Some(Unsettled(body.msg)) else None)
  }

  /** The recorded outcome of an attempt; none if it failed transiently. */
  function Attempted(cfg: Config, job: Orphan, limited: bool, sendErr: Option<Err>): Option<Event>
    requires job.body.Encoded?
  {
    var f := Process(cfg, job.worker.lane.typ, job.body.msg, limited, sendErr);
    if f.None? then Some(Event.Delivered(job.body.msg))
    else if IsPermanent(f.value.err) then Some(Dropped(job.body.msg, f.value.stage))
    else None
  }

  function Finishing(s: State, site: Site, outcome: Option<Event>): Change
    requires HasJob(s, site)
  {
    Turn(s, site, if outcome.Some? then Acking else Publishing).(event := outcome)
  }

  /** The retry or dead letter is published first; the original is acked only if
      that succeeded, and nacked otherwise. */
  function Republishing(cfg: Config, s: State, site: Site, took: bool, ok: bool): Change
    requires HasJob(s, site) && JobAt(s, site).body.Encoded?
  {
    var job := JobAt(s, site);
    var (m, key) := Retry(cfg, job.worker.lane, job.body.msg);
    Turn(s, site, if ok then Acking else Nacking).(
      added := if took then Fanout(s.bindings, key, m) else [],
      fault := if !ok && site.InStore? then Some(Unsettled(job.body.msg)) else None)
  }

  function Settling(s: State, site: Site): Change
    requires HasJob(s, site)
  {
    UNCHANGED.(site := Some(site),
               copy := if site.InStore? && JobAt(s, site).phase == Nacking then Some(s.store[site.i].(hold := Ready))
                       else None)
  }

  /** An attempt whose delivery the broker takes back will not be acked any more. */
  predicate Spoils(phase: Phase) {
    phase == Trying || phase == Publishing || phase == Acking
  }

  /** The broker takes a delivery back, because the worker crashed or its connection
      broke; in the second case the worker may still have it in hand. */
  function Losing(s: State, i: nat, survives: bool): Change
    requires HasJob(s, InStore(i))
  {
    var job := JobAt(s, InStore(i));
    UNCHANGED.(site := Some(InStore(i)),
               copy := Some(s.store[i].(hold := Ready)),
               stray := if survives then Some(job) else None,
               fault := if Spoils(job.phase) && job.body.Encoded? then Some(Unsettled(job.body.msg)) else None)
  }

  /** What a step asks of the state; a worker that is busy begins nothing, and only
      the topology's own bindings are declared. */
  ghost predicate Enabled(cfg: Config, s: State, a: Action) {
    && Admissible(cfg, s, a)
    && (a.Begin? ==> Free(s, JobAt(s, a.site).worker))
    && (a.Redeclare? ==> Canonical(a.b))
  }

  predicate Admissible(cfg: Config, s: State, a: Action) {
    match a
    case Submit(_, id, _, took, ok) => Composed(cfg, a).Success? && id !in s.originals && (ok ==> took)
    case Redeclare(_) => true
    case Deliver(i, w) =>
      && i < |s.store| && s.store[i].hold.Ready? && w.lane.Valid() && s.store[i].queue == w.lane.Queue()
      && forall k :: 0 <= k < i && s.store[k].queue == s.store[i].queue ==> !s.store[k].hold.Ready?
    case Begin(site) => HasJob(s, site) && JobAt(s, site).phase == Waiting
    case Finish(site, _, _) => HasJob(s, site) && JobAt(s, site).phase == Trying && JobAt(s, site).body.Encoded?
    case Republish(site, took, ok) =>
      HasJob(s, site) && JobAt(s, site).phase == Publishing && JobAt(s, site).body.Encoded? && (ok ==> took)
    case Settle(site) => HasJob(s, site) && (JobAt(s, site).phase == Acking || JobAt(s, site).phase == Nacking)
    case Lose(i, _) => HasJob(s, InStore(i))
    case Vanish(i) => HasJob(s, InOrphans(i))
  }

  function Effect(cfg: Config, s: State, a: Action): (ch: Change)
    requires Enabled(cfg, s, a)
    ensures Fits(s, ch.site)
  {
    match a
    case Submit(_, _, _, took, _) => Entering(s, Composed(cfg, a).value, took)
    case Redeclare(_) => UNCHANGED
    case Deliver(i, w) => UNCHANGED.(site := Some(InStore(i)), copy := Some(s.store[i].(hold := Held(w, Waiting))))
    case Begin(site) => Beginning(s, site)
    case Finish(site, limited, sendErr) => Finishing(s, site, Attempted(cfg, JobAt(s, site), limited, sendErr))
    case Republish(site, took, ok) => Republishing(cfg, s, site, took, ok)
    case Settle(site) => Settling(s, site)
    case Lose(i, survives) => Losing(s, i, survives)
    case Vanish(i) => UNCHANGED.(site := Some(InOrphans(i)))
  }

  function Next(cfg: Config, s: State, a: Action): State
    requires Enabled(cfg, s, a)
  {
    var t := Apply(s, Effect(cfg, s, a));
    match a
    case Submit(_, id, _, _, ok) => Registered(t, id, Composed(cfg, a).value, ok)
    case Redeclare(b) => t.(bindings := if b in s.bindings then s.bindings else s.bindings + [b])
    case _ => t
  }

  // ------------------------------------------------------------------- runs

  /** The step function of a deployment. */
  ghost function System(cfg: Config): Stepper<State, Action> {
    (s: State, a: Action) => if Enabled(cfg, s, a) then Some(Next(cfg, s, a)) else None
  }

  /** Publishers declare the whole topology before they publish anything. */
  ghost predicate Initial(s: State) {
    Complete(s.bindings) && s == State(s.bindings, [], [], map[], {}, [])
  }

  ghost function Starting(): State -> bool {
    (s: State) => Initial(s)
  }

  /** The state is where some run of the deployment leads. */
  ghost predicate Reachable(cfg: Config, s: State) {
    Meets(System(cfg), Starting(), s)
  }

  /** Reachable means: at the end of a run, of any length and with any faults. */
  lemma ReachableAfterRuns(cfg: Config, s: State)
    ensures Reachable(cfg, s) <==> exists s0, run :: Leads(System(cfg), Starting(), s0, run, s)
  {
    ReachableByRun(System(cfg), Starting(), s);
  }

  // ------------------------------------------------------------- invariant

  function Cap(cfg: Config, lane: Lane): nat {
    Max(cfg.Limit(lane), 0)
  }

  /** A copy of a notification the API composed: equal to the original in every
      field but a retry count within the lane's limit. */
  ghost predicate GoodMessage(cfg: Config, originals: map<string, Message>, m: Message) {
    m.id in originals && m.SameAs(originals[m.id]) && 0 <= m.retryCount <= Cap(cfg, LaneOf(m))
  }

  ghost predicate GoodOriginal(cfg: Config, id: string, m: Message) {
    Deliverable(cfg.tables, cfg.index, m) && m.id == id && m.retryCount == 0
  }

  /** A stored copy is on the queue of its own lane, held at most by a worker of
      that lane, or parked in the dead-letter queue with its retries used up. */
  ghost predicate GoodCopy(cfg: Config, originals: map<string, Message>, c: Copy) {
    && c.body.Encoded? && GoodMessage(cfg, originals, c.body.msg)
    && (if c.queue == DEAD_QUEUE then c.hold.Ready? && c.body.msg.retryCount == Cap(cfg, LaneOf(c.body.msg))
        else c.queue == LaneOf(c.body.msg).Queue() && (c.hold.Held? ==> c.hold.worker.lane == LaneOf(c.body.msg)))
  }

  ghost predicate GoodOrphan(cfg: Config, originals: map<string, Message>, o: Orphan) {
    o.body.Encoded? && GoodMessage(cfg, originals, o.body.msg) && o.worker.lane == LaneOf(o.body.msg)
  }

  ghost predicate GoodEvent(cfg: Config, originals: map<string, Message>, e: Event) {
    && GoodMessage(cfg, originals, e.msg)
    && (e.Entered? ==> e.msg.retryCount == 0)
    && (e.Delivered? ==> Sendable(cfg, e.msg))
    && (e.Dropped? ==> DroppedFor(cfg, e))
  }

  /** The message renders to something that can be sent. */
  ghost predicate Sendable(cfg: Config, m: Message) {
    Rendered(cfg, m).Some? && Rendered(cfg, m).value.body != ""
  }

  /** Why a message was given up on: it does not render, it renders to nothing, or the
      provider refused what it renders to. */
  ghost predicate DroppedFor(cfg: Config, e: Event)
    requires e.Dropped?
  {
    || (e.stage == Rendering && Rendered(cfg, e.msg).None?)
    || (e.stage == Building && Rendered(cfg, e.msg).Some? && Rendered(cfg, e.msg).value.body == "")
    || (e.stage == Delivering && Sendable(cfg, e.msg))
  }

  ghost predicate Inv(cfg: Config, s: State) {
    && Complete(s.bindings)
    && (forall c :: c in s.store ==> GoodCopy(cfg, s.originals, c))
    && (forall o :: o in s.orphans ==> GoodOrphan(cfg, s.originals, o))
    && (forall e :: e in s.log ==> GoodEvent(cfg, s.originals, e))
    && (forall id :: id in s.originals ==> GoodOriginal(cfg, id, s.originals[id]))
    && s.accepted <= s.originals.Keys
  }

  ghost predicate GoodChange(cfg: Config, originals: map<string, Message>, ch: Change) {
    && (ch.copy.Some? ==> GoodCopy(cfg, originals, ch.copy.value))
    && (ch.orphan.Some? ==> GoodOrphan(cfg, originals, ch.orphan.value))
    && (ch.stray.Some? ==> GoodOrphan(cfg, originals, ch.stray.value))
    && (forall c :: c in ch.added ==> GoodCopy(cfg, originals, c))
    && (ch.event.Some? ==> GoodEvent(cfg, originals, ch.event.value))
    && (ch.fault.Some? ==> GoodEvent(cfg, originals, ch.fault.value))
  }

  /** On the declared topology a message of a valid lane is stored as exactly one
      copy on its lane's queue, and a dead letter as one in the dead-letter queue. */
  lemma FanoutIsOneCopy(bindings: seq<Binding>, m: Message)
    requires Complete(bindings) && LaneOf(m).Valid()
    ensures Fanout(bindings, RoutingKey(m.typ, m.priority), m) == [Copy(LaneOf(m).Queue(), Encoded(m), Ready)]
    ensures Fanout(bindings, DEAD_KEY, m) == [Copy(DEAD_QUEUE, Encoded(m), Ready)]
  {
    RoutesExactly(bindings, RoutingKey(m.typ, m.priority));
    RoutesExactly(bindings, DEAD_KEY);
    assert Route(bindings, RoutingKey(m.typ, m.priority)) == [LaneOf(m).Queue()];
  }

  /** What a worker's publish adds to the store of a good state: a retry with one more
      on its count, or the message as it is, parked, if no retry is left. */
  function Added(cfg: Config, m: Message): Copy {
    if m.retryCount < cfg.Limit(LaneOf(m))
    then Copy(LaneOf(m).Queue(), Encoded(m.(retryCount := m.retryCount + 1)), Ready)
    else Copy("notifications.dead", Encoded(m), Ready)
  }

  lemma RetryIsOneCopy(cfg: Config, s: State, m: Message)
    requires Inv(cfg, s) && GoodMessage(cfg, s.originals, m)
    ensures var (r, key) := Retry(cfg, LaneOf(m), m);
      Fanout(s.bindings, key, r) == [Added(cfg, m)] && GoodCopy(cfg, s.originals, Added(cfg, m))
  {
    assert GoodOriginal(cfg, m.id, s.originals[m.id]);
    var lane := LaneOf(m);
    LanesAreDistinct(lane, lane);
    FanoutIsOneCopy(s.bindings, m);
    FanoutIsOneCopy(s.bindings, m.Retried());
  }

  lemma JobIsGood(cfg: Config, s: State, site: Site)
    requires Inv(cfg, s) && HasJob(s, site)
    ensures GoodOrphan(cfg, s.originals, JobAt(s, site))
    ensures site.InStore? ==> s.store[site.i].queue == LaneOf(JobAt(s, site).body.msg).Queue()
    ensures LaneOf(JobAt(s, site).body.msg).Valid() && LaneOf(JobAt(s, site).body.msg).Queue() != DEAD_QUEUE
  {
    match site
    case InStore(i) => assert s.store[i] in s.store; assert GoodCopy(cfg, s.originals, s.store[i]);
    case InOrphans(i) => assert s.orphans[i] in s.orphans;
    var m := JobAt(s, site).body.msg;
    assert GoodOriginal(cfg, m.id, s.originals[m.id]);
    LanesAreDistinct(LaneOf(m), LaneOf(m));
  }

  lemma EffectIsGood(cfg: Config, s: State, a: Action)
    requires WellFiled(cfg.index) && Inv(cfg, s) && Enabled(cfg, s, a) && !a.Submit?
    ensures GoodChange(cfg, s.originals, Effect(cfg, s, a))
  {
    match a
    case Redeclare(_) =>
    case Deliver(i, w) => DeliverIsGood(cfg, s, i, w);
    case Begin(site) => TurnIsGood(cfg, s, site);
    case Finish(_, _, _) => FinishIsGood(cfg, s, a);
    case Republish(_, _, _) => RepublishIsGood(cfg, s, a);
    case Settle(site) => JobIsGood(cfg, s, site);
    case Lose(i, _) => JobIsGood(cfg, s, InStore(i));
    case Vanish(_) =>
  }

  lemma DeliverIsGood(cfg: Config, s: State, i: nat, w: Worker)
    requires Inv(cfg, s) && Enabled(cfg, s, Deliver(i, w))
    ensures GoodChange(cfg, s.originals, Effect(cfg, s, Deliver(i, w)))
  {
    assert s.store[i] in s.store;
    var m := s.store[i].body.msg;
    assert GoodOriginal(cfg, m.id, s.originals[m.id]);
    LanesAreDistinct(w.lane, LaneOf(m));
  }

  lemma RepublishIsGood(cfg: Config, s: State, a: Action)
    requires Inv(cfg, s) && Enabled(cfg, s, a) && a.Republish?
    ensures GoodChange(cfg, s.originals, Effect(cfg, s, a))
  {
    TurnIsGood(cfg, s, a.site);
    RetryIsOneCopy(cfg, s, JobAt(s, a.site).body.msg);
  }

  lemma TurnIsGood(cfg: Config, s: State, site: Site)
    requires Inv(cfg, s) && HasJob(s, site)
    ensures forall phase :: GoodChange(cfg, s.originals, Turn(s, site, phase))
    ensures GoodOrphan(cfg, s.originals, JobAt(s, site))
  {
    JobIsGood(cfg, s, site);
  }

  /** At the worker, no attempt is given up because of the template reference or
      the recipient: the API checked both. */
  lemma AttemptNeverMisaddressed(cfg: Config, s: State, site: Site, limited: bool, sendErr: Option<Err>)
    requires Inv(cfg, s) && HasJob(s, site) && JobAt(s, site).body.Encoded?
    ensures var job := JobAt(s, site);
      var f := Process(cfg, job.worker.lane.typ, job.body.msg, limited, sendErr);
      f.Some? ==> f.value.stage !in {Resolving, Addressing} && (IsPermanent(f.value.err) ==> f.value.stage != Limiting)
  {
    JobIsGood(cfg, s, site);
    var m := JobAt(s, site).body.msg;
    assert GoodOriginal(cfg, m.id, s.originals[m.id]);
    ComposedNeverMisaddressed(cfg, s.originals[m.id], limited, sendErr);
  }

  /** What an attempt of a good state records: what its message renders to, and what the
      limiter and the provider answer, decide it. */
  ghost predicate OutcomeDecided(cfg: Config, m: Message, limited: bool, sendErr: Option<Err>, outcome: Option<Event>) {
    if Rendered(cfg, m).None? then outcome == Some(Dropped(m, Rendering))
    else if !Sendable(cfg, m) then outcome == Some(Dropped(m, Building))
    else if limited then outcome == None
    else if sendErr.None? then outcome == Some(Event.Delivered(m))
    else if IsPermanent(sendErr.value) then outcome == Some(Dropped(m, Delivering))
    else outcome == None
  }

  lemma AttemptIsDecided(cfg: Config, s: State, site: Site, limited: bool, sendErr: Option<Err>)
    requires Inv(cfg, s) && HasJob(s, site) && JobAt(s, site).body.Encoded?
    ensures var job := JobAt(s, site);
      OutcomeDecided(cfg, job.body.msg, limited, sendErr, Attempted(cfg, job, limited, sendErr))
  {
    JobIsGood(cfg, s, site);
    var m := JobAt(s, site).body.msg;
    assert GoodOriginal(cfg, m.id, s.originals[m.id]);
    ResolvedByIndex(cfg.index, m.templateId, m.typ);
    AddressableAsValidated(cfg, m.typ, m);
    AttemptDecides(cfg, m.typ, m, limited, sendErr);
  }

  /** The end of an attempt adds to the record exactly what it did: a delivery if and only
      if there was something to send, the limiter let it through and the provider took
      it; a drop, with its reason, if and only if it failed for good; and otherwise
      nothing. */
  lemma FinishRecords(cfg: Config, s: State, site: Site, limited: bool, sendErr: Option<Err>)
    requires Inv(cfg, s) && Enabled(cfg, s, Finish(site, limited, sendErr))
    ensures var m := JobAt(s, site).body.msg;
      var content := Rendered(cfg, m);
      var log := Next(cfg, s, Finish(site, limited, sendErr)).log;
      && (log == s.log + [Event.Delivered(m)] <==>
            content.Some? && content.value.body != "" && !limited && sendErr.None?)
      && (log == s.log + [Dropped(m, Rendering)] <==> content.None?)
      && (log == s.log + [Dropped(m, Building)] <==> content.Some? && content.value.body == "")
      && (log == s.log + [Dropped(m, Delivering)] <==>
            content.Some? && content.value.body != "" && !limited && sendErr.Some? && IsPermanent(sendErr.value))
      && (log == s.log <==>
            content.Some? && content.value.body != "" && (limited || (sendErr.Some? && !IsPermanent(sendErr.value))))
  {
    AttemptIsDecided(cfg, s, site, limited, sendErr);
    var m := JobAt(s, site).body.msg;
    var outcome := Attempted(cfg, JobAt(s, site), limited, sendErr);
    var t := Next(cfg, s, Finish(site, limited, sendErr));
    assert t.log == s.log + Singleton(outcome);
    RecordTells(s.log, outcome, Event.Delivered(m));
    RecordTells(s.log, outcome, Dropped(m, Rendering));
    RecordTells(s.log, outcome, Dropped(m, Building));
    RecordTells(s.log, outcome, Dropped(m, Delivering));
  }

  lemma RecordTells(log: seq<Event>, outcome: Option<Event>, e: Event)
    ensures log + Singleton(outcome) == log + [e] <==> outcome == Some(e)
    ensures log + Singleton(outcome) == log <==> outcome == None
  {
    var now := log + Singleton(outcome);
    if outcome.Some? {
      assert now[|log|] == outcome.value && (log + [e])[|log|] == e;
    }
  }

  lemma FinishIsGood(cfg: Config, s: State, a: Action)
    requires Inv(cfg, s) && Enabled(cfg, s, a) && a.Finish?
    ensures GoodChange(cfg, s.originals, Effect(cfg, s, a))
  {
    TurnIsGood(cfg, s, a.site);
    AttemptIsDecided(cfg, s, a.site, a.limited, a.sendErr);
  }

  lemma SplicedMembers<T>(s: seq<T>, i: nat, put: Option<T>, x: T)
    requires i < |s| && x in Splice(s, i, put)
    ensures x in s || put == Some(x)
  {
  }

  lemma ApplyKeepsGood(cfg: Config, s: State, ch: Change)
    requires Inv(cfg, s) && Fits(s, ch.site) && GoodChange(cfg, s.originals, ch)
    ensures Inv(cfg, Apply(s, ch))
  {
    var t := Apply(s, ch);
    forall c | c in t.store ensures GoodCopy(cfg, s.originals, c) {
      if c !in ch.added && ch.site.Some? && ch.site.value.InStore? {
        SplicedMembers(s.store, ch.site.value.i, ch.copy, c);
      }
    }
    forall o | o in t.orphans ensures GoodOrphan(cfg, s.originals, o) {
      if ch.stray != Some(o) && ch.site.Some? && ch.site.value.InOrphans? {
        SplicedMembers(s.orphans, ch.site.value.i, ch.orphan, o);
      }
    }
    forall e | e in t.log ensures GoodEvent(cfg, s.originals, e) {
      assert e in s.log || ch.event == Some(e) || ch.fault == Some(e);
    }
  }

  lemma OriginalsGrow(cfg: Config, s: State, id: string, m: Message, ok: bool)
    requires Inv(cfg, s) && id !in s.originals && GoodOriginal(cfg, id, m)
    ensures Inv(cfg, Registered(s, id, m, ok))
  {
    var now := Registered(s, id, m, ok).originals;
    forall x: Message | GoodMessage(cfg, s.originals, x) ensures GoodMessage(cfg, now, x) {
      assert x.id != id;
    }
  }

  lemma EnteringIsGood(cfg: Config, s: State, m: Message, took: bool)
    requires Inv(cfg, s) && m.id in s.originals && m == s.originals[m.id]
    ensures GoodChange(cfg, s.originals, Entering(s, m, took))
  {
    assert GoodOriginal(cfg, m.id, s.originals[m.id]);
    FanoutIsOneCopy(s.bindings, m);
    LanesAreDistinct(LaneOf(m), LaneOf(m));
  }

  lemma SubmitKeepsInv(cfg: Config, s: State, a: Action)
    requires WellFiled(cfg.index) && Inv(cfg, s) && Enabled(cfg, s, a) && a.Submit?
    ensures Inv(cfg, Next(cfg, s, a))
  {
    var m := Composed(cfg, a).value;
    ComposedIsDeliverable(cfg.tables, cfg.index, a.req, a.id, a.at);
    OriginalsGrow(cfg, s, a.id, m, a.ok);
    var u := Registered(s, a.id, m, a.ok);
    EnteringIsGood(cfg, u, m, a.took);
    ApplyKeepsGood(cfg, u, Entering(u, m, a.took));
    assert Entering(u, m, a.took) == Entering(s, m, a.took);
  }

  lemma StepKeepsInv(cfg: Config, s: State, a: Action)
    requires WellFiled(cfg.index) && Inv(cfg, s) && Enabled(cfg, s, a)
    ensures Inv(cfg, Next(cfg, s, a))
  {
    if a.Submit? {
      SubmitKeepsInv(cfg, s, a);
    } else {
      EffectIsGood(cfg, s, a);
      ApplyKeepsGood(cfg, s, Effect(cfg, s, a));
    }
  }

  ghost function Invariant(cfg: Config): State -> bool {
    (s: State) => Inv(cfg, s)
  }

  lemma SystemKeepsInv(cfg: Config)
    requires WellFiled(cfg.index)
    ensures Keeps(System(cfg), Invariant(cfg))
  {
    forall s, a | Inv(cfg, s) && Enabled(cfg, s, a) ensures Inv(cfg, Next(cfg, s, a)) {
      StepKeepsInv(cfg, s, a);
    }
  }

  /** In every reachable state each stored copy is on its own lane's queue or spent
      in the dead-letter queue, every copy and record is of a composed notification
      and equal to it but for the retry count, the count is within the lane's
      limit, and nothing was dropped for its template reference or recipient. */
  lemma ReachableIsGood(cfg: Config, s: State)
    requires WellFiled(cfg.index) && Reachable(cfg, s)
    ensures Inv(cfg, s)
  {
    SystemKeepsInv(cfg);
    InitialIsGood(cfg);
    assert Invariant(cfg)(s);
  }

  lemma InitialIsGood(cfg: Config)
    ensures StartsIn(Starting(), Invariant(cfg))
  {
  }
}
