/** The broker topology: one queue per lane plus the dead-letter queue, each
    bound to a direct exchange, declared idempotently by every process. */
module Topology {
  import opened Prelude
  import opened Notification
  import opened Runs

  const DEAD_QUEUE := "notifications.dead"
  const DEAD_KEY := "dead"

  function RoutingKey(typ: string, priority: string): string {
    typ + "." + priority
  }

  function QueueName(typ: string, priority: string): string {
    RoutingKey(typ, priority)
  }

  datatype Binding = Binding(queue: string, key: string)

  datatype Lane = Lane(typ: string, priority: string) {
    predicate Valid() {
      ValidType(typ) && ValidPriority(priority)
    }

    function Queue(): string {
      QueueName(typ, priority)
    }

    function Bound(): Binding {
      Binding(QueueName(typ, priority), RoutingKey(typ, priority))
    }
  }

  function AllTypes(): seq<string> {
    [EMAIL, SMS, PUSH]
  }

  function AllPriorities(): seq<string> {
    [TRANSACTIONAL, BULK]
  }

  const DEAD_BINDING := Binding(DEAD_QUEUE, DEAD_KEY)

  /** A binding the topology is meant to have. */
  ghost predicate Canonical(b: Binding) {
    b == DEAD_BINDING || exists lane: Lane :: lane.Valid() && b == lane.Bound()
  }

  /** The six lanes, and the names they go by: a lane's queue, and the key it is bound to,
      are its type and priority with a dot between. */
  lemma LaneNames(lane: Lane)
    ensures lane.Valid() <==> lane in {
      Lane("email", "transactional"), Lane("email", "bulk"), Lane("sms", "transactional"), Lane("sms", "bulk"),
      Lane("push", "transactional"), Lane("push", "bulk")}
    ensures lane.Queue() == lane.typ + "." + lane.priority
    ensures lane.Bound() == Binding(lane.Queue(), RoutingKey(lane.typ, lane.priority))
    ensures RoutingKey(lane.typ, lane.priority) == lane.Queue()
    ensures DEAD_BINDING == Binding("notifications.dead", "dead")
  {
  }

  /** Lane names tell lanes apart, and never collide with the dead-letter names. */
  lemma LanesAreDistinct(a: Lane, b: Lane)
    requires a.Valid() && b.Valid()
    ensures a.Queue() == b.Queue() <==> a == b
    ensures a.Queue() != DEAD_QUEUE && a.Queue() != DEAD_KEY
  {
    var x, y := a.Queue(), b.Queue();
    assert x[0] == a.typ[0] && y[0] == b.typ[0];
    assert x[|x| - 1] == a.priority[|a.priority| - 1] && y[|y| - 1] == b.priority[|b.priority| - 1];
    assert DEAD_QUEUE[0] == 'n' && DEAD_KEY[0] == 'd';
  }

  // ---------------------------------------------------------------- routing

  /** The queues a direct exchange hands a message with this key to. */
  function Route(bindings: seq<Binding>, key: string): (queues: seq<string>)
    ensures queues == [] <==> forall b :: b in bindings ==> b.key != key
  {
    if bindings == [] then []
    else (if bindings[0].key == key then [bindings[0].queue] else []) + Route(bindings[1..], key)
  }

  ghost predicate Distinct(bindings: seq<Binding>) {
    forall i, j :: 0 <= i < j < |bindings| ==> bindings[i] != bindings[j]
  }

  /** Bindings of a broker on which the whole topology has been declared. */
  ghost predicate Complete(bindings: seq<Binding>) {
    && Distinct(bindings)
    && (forall b :: b in bindings <==> Canonical(b))
  }

  lemma {:induction false} RouteUnique(bindings: seq<Binding>, b: Binding)
    requires Distinct(bindings) && b in bindings
    requires forall c :: c in bindings && c.key == b.key ==> c == b
    ensures Route(bindings, b.key) == [b.queue]
  {
    if bindings[0] == b {
      assert Route(bindings[1..], b.key) == [];
    } else {
      assert bindings[0] in bindings;
      RouteUnique(bindings[1..], b);
    }
  }

  /** On a declared topology each lane key routes to exactly its own queue, the
      dead-letter key to exactly the dead-letter queue, and nothing else routes. */
  lemma RoutesExactly(bindings: seq<Binding>, key: string)
    requires Complete(bindings)
    ensures forall lane: Lane :: lane.Valid() && key == RoutingKey(lane.typ, lane.priority) ==>
      Route(bindings, key) == [lane.Queue()]
    ensures key == DEAD_KEY ==> Route(bindings, key) == [DEAD_QUEUE]
    ensures Route(bindings, key) == [] <==>
      key != DEAD_KEY && forall lane: Lane :: lane.Valid() ==> lane.Bound().key != key
  {
    forall b | b in bindings && b.key == key
      ensures Route(bindings, key) == [b.queue]
    {
      forall c | c in bindings && c.key == b.key ensures c == b {
        OneQueuePerKey(b, c);
      }
      RouteUnique(bindings, b);
    }
    assert Canonical(DEAD_BINDING);
    forall lane: Lane | lane.Valid() ensures lane.Bound() in bindings {
      assert Canonical(lane.Bound());
    }
  }

  lemma OneQueuePerKey(a: Binding, b: Binding)
    requires Canonical(a) && Canonical(b) && a.key == b.key
    ensures a == b
  {
    if a != DEAD_BINDING {
      var la: Lane :| la.Valid() && a == la.Bound();
      LanesAreDistinct(la, la);
    }
    if b != DEAD_BINDING {
      var lb: Lane :| lb.Valid() && b == lb.Bound();
      LanesAreDistinct(lb, lb);
    }
  }

  // ------------------------------------------------------------ declaration

  datatype Op = DeclareExchange | DeclareQueue(name: string) | Bind(b: Binding)

  /** What the broker holds of the topology. */
  datatype Topo = Topo(exchange: bool, queues: set<string>, bindings: seq<Binding>) {
    /** The broker refuses to bind a queue or an exchange it does not know. */
    predicate Accepts(op: Op) {
      op.Bind? ==> exchange && op.b.queue in queues
    }

    /** Declarations are idempotent. */
    function After(op: Op): Topo {
      match op
      case DeclareExchange => this.(exchange := true)
      case DeclareQueue(name) => this.(queues := queues + {name})
      case Bind(b) => if b in bindings then this else this.(bindings := bindings + [b])
    }

    ghost predicate Has(op: Op) {
      match op
      case DeclareExchange => exchange
      case DeclareQueue(name) => name in queues
      case Bind(b) => b in bindings
    }
  }

  /** Number of declarations in a run. */
  const STEPS: nat := 15

  /** The declarations of a run, in the order they are issued: the exchange, queue and
      binding of each lane, and the dead-letter queue and its binding. */
  function Planned(n: nat): Op
    requires n < STEPS
  {
    if n == 0 then DeclareExchange
    else if n == 13 then DeclareQueue(DEAD_QUEUE)
    else if n == 14 then Bind(DEAD_BINDING)
    else
      var lane := Lane(AllTypes()[(n - 1) / 4], AllPriorities()[(n - 1) % 4 / 2]);
      if n % 2 == 1 then DeclareQueue(lane.Queue()) else Bind(lane.Bound())
  }

  /** The plan as a value; there is nothing to issue after its end. */
  function Plan(): nat -> Op {
    (n: nat) => if n < STEPS then Planned(n) else DeclareExchange
  }

  /** The plan as the nested loops go through it. */
  ghost predicate InLoopOrder(plan: nat -> Op) {
    && plan(0) == DeclareExchange && plan(13) == DeclareQueue(DEAD_QUEUE) && plan(14) == Bind(DEAD_BINDING)
    && forall i, j :: 0 <= i < |AllTypes()| && 0 <= j < |AllPriorities()| ==> HasLaneAt(plan, i, j)
  }

  ghost predicate HasLaneAt(plan: nat -> Op, i: nat, j: nat)
    requires i < |AllTypes()| && j < |AllPriorities()|
  {
    var lane := Lane(AllTypes()[i], AllPriorities()[j]);
    plan(1 + 4 * i + 2 * j) == DeclareQueue(lane.Queue()) && plan(2 + 4 * i + 2 * j) == Bind(lane.Bound())
  }

  /** The exchange comes first, and each binding right after its queue. */
  ghost predicate BindsDeclared(plan: nat -> Op) {
    && plan(0) == DeclareExchange
    && forall n: nat :: n < STEPS && plan(n).Bind? ==> n >= 2 && plan(n - 1) == DeclareQueue(plan(n).b.queue)
  }

  lemma PlannedAt(i: nat, j: nat)
    requires i < |AllTypes()| && j < |AllPriorities()|
    ensures HasLaneAt(Plan(), i, j)
  {
    assert (4 * i + 2 * j) / 4 == i && (4 * i + 2 * j) % 4 / 2 == j;
    assert (1 + 4 * i + 2 * j) / 4 == i && (1 + 4 * i + 2 * j) % 4 / 2 == j;
  }

  lemma PlanIsInLoopOrder()
    ensures InLoopOrder(Plan())
  {
    forall i, j | 0 <= i < |AllTypes()| && 0 <= j < |AllPriorities()| ensures HasLaneAt(Plan(), i, j) {
      PlannedAt(i, j);
    }
  }

  lemma QueueBeforeBinding(n: nat)
    requires n < STEPS && Planned(n).Bind?
    ensures n >= 2 && Planned(n - 1) == DeclareQueue(Planned(n).b.queue)
  {
    if n < 13 { assert (n - 2) / 4 == (n - 1) / 4 && (n - 2) % 4 / 2 == (n - 1) % 4 / 2; }
  }

  lemma PlanBindsDeclared()
    ensures BindsDeclared(Plan())
  {
    forall n: nat | n < STEPS && Planned(n).Bind?
      ensures n >= 2 && Planned(n - 1) == DeclareQueue(Planned(n).b.queue)
    {
      QueueBeforeBinding(n);
    }
  }

  /** The broker after the first `n` declarations of a run that began on `t`. */
  function Replay(plan: nat -> Op, t: Topo, n: nat): Topo {
    if n == 0 then t else Replay(plan, t, n - 1).After(plan(n - 1))
  }

  /** Whatever was declared stays declared. */
  lemma {:induction false} ReplayHas(plan: nat -> Op, t: Topo, n: nat, k: nat)
    requires k < n
    ensures Replay(plan, t, n).Has(plan(k))
  {
    if k < n - 1 {
      ReplayHas(plan, t, n - 1, k);
    }
  }

  lemma BindAccepted(plan: nat -> Op, t: Topo, n: nat)
    requires n < STEPS && BindsDeclared(plan)
    ensures Replay(plan, t, n).Accepts(plan(n))
  {
    if plan(n).Bind? {
      ReplayHas(plan, t, n, 0);
      ReplayHas(plan, t, n, n - 1);
    }
  }

  /** The broker as one declaring process drives it. */
  class Declarer {
    var broker: Topo

    constructor (t: Topo)
      ensures broker == t
    {
      broker := t;
    }

    /** Issues the declaration numbered `n` of the run that began on `start`; the
        channel fails after `budget` answers. */
    method Issue(op: Op, ghost plan: nat -> Op, ghost start: Topo, n: nat, budget: nat) returns (ok: bool)
      requires n < STEPS && BindsDeclared(plan) && op == plan(n)
      requires n <= budget && broker == Replay(plan, start, n)
      modifies this
      ensures ok <==> n < budget
      ensures broker == Replay(plan, start, if ok then n + 1 else n)
    {
      BindAccepted(plan, start, n);
      ok := n < budget && broker.Accepts(op);
      if ok {
        broker := broker.After(op);
      }
    }

    method DeclareLane(typ: string, priority: string, ghost plan: nat -> Op, ghost start: Topo, n: nat, budget: nat)
      returns (ok: bool)
      requires n + 1 < STEPS && BindsDeclared(plan)
      requires plan(n) == DeclareQueue(QueueName(typ, priority)) && plan(n + 1) == Bind(Lane(typ, priority).Bound())
      requires n <= budget && broker == Replay(plan, start, n)
      modifies this
      ensures ok <==> n + 1 < budget
      ensures broker == Replay(plan, start, if ok then n + 2 else budget)
    {
      var name := QueueName(typ, priority);
      ok := Issue(DeclareQueue(name), plan, start, n, budget);
      if !ok { return; }
      ok := Issue(Bind(Binding(name, RoutingKey(typ, priority))), plan, start, n + 1, budget);
    }

    method DeclareAll(ghost plan: nat -> Op, budget: nat) returns (ok: bool)
      requires BindsDeclared(plan) && InLoopOrder(plan)
      modifies this
      ensures ok <==> budget >= STEPS
      ensures broker == Replay(plan, old(broker), if ok then STEPS else budget)
    {
      ghost var start := broker;
      ok := Issue(DeclareExchange, plan, start, 0, budget);
      if !ok { return; }
      var n := 1;
      for i := 0 to |AllTypes()|
        invariant n == 1 + 4 * i && n <= budget && broker == Replay(plan, start, n)
      {
        for j := 0 to |AllPriorities()|
          invariant n == 1 + 4 * i + 2 * j && n <= budget && broker == Replay(plan, start, n)
        {
          assert HasLaneAt(plan, i, j);
          ok := DeclareLane(AllTypes()[i], AllPriorities()[j], plan, start, n, budget);
          if !ok { return; }
          n := n + 2;
        }
      }
      ok := Issue(DeclareQueue(DEAD_QUEUE), plan, start, n, budget);
      if !ok { return; }
      ok := Issue(Bind(DEAD_BINDING), plan, start, n + 1, budget);
    }

    /** One run of the declaration. It performs a prefix of the plan, and reports
        success exactly when that prefix is the whole plan. */
    method DeclareTopology(budget: nat) returns (ok: bool)
      modifies this
      ensures ok <==> budget >= STEPS
      ensures broker == Replay(Plan(), old(broker), if ok then STEPS else budget)
    {
      PlanBindsDeclared();
      PlanIsInLoopOrder();
      ok := DeclareAll(Plan(), budget);
    }
  }

  /** The plan binds every canonical binding and no other. */
  lemma PlanBinds(b: Binding)
    ensures Canonical(b) <==> exists n: nat :: n < STEPS && Planned(n) == Bind(b)
  {
    if b == DEAD_BINDING {
      assert Planned(14) == Bind(b);
    } else if Canonical(b) {
      var lane: Lane :| lane.Valid() && b == lane.Bound();
      var i := if lane.typ == EMAIL then 0 else if lane.typ == SMS then 1 else 2;
      var j := if lane.priority == TRANSACTIONAL then 0 else 1;
      PlannedAt(i, j);
      assert Planned(2 + 4 * i + 2 * j) == Plan()(2 + 4 * i + 2 * j) == Bind(b);
    }
    if n: nat :| n < STEPS && Planned(n) == Bind(b) && n != 14 {
      var lane := Lane(AllTypes()[(n - 1) / 4], AllPriorities()[(n - 1) % 4 / 2]);
      assert lane.Valid() && b == lane.Bound();
    }
  }

  // ---------------------------------------------- any number of declarers

  /** A broker shared by declaring processes: how far each one has come, and
      whether some process has finished. */
  datatype Shared = Shared(broker: Topo, at: map<nat, nat>, declared: bool)

  /** A process issues its next declaration, or is interrupted and starts over. */
  datatype Move = Proceed(p: nat) | Interrupt(p: nat)

  function Position(c: Shared, p: nat): nat {
    if p in c.at then c.at[p] else 0
  }

  /** A refused declaration would leave everything as it is. */
  function Moved(c: Shared, m: Move): Shared
    requires m.Proceed? ==> Position(c, m.p) < STEPS
  {
    match m
    case Interrupt(p) => c.(at := c.at - {p})
    case Proceed(p) =>
      var n := Position(c, p);
      if !c.broker.Accepts(Planned(n)) then c
      else Shared(c.broker.After(Planned(n)), c.at[p := n + 1], c.declared || n + 1 == STEPS)
  }

  function Declaring(): Stepper<Shared, Move> {
    (c: Shared, m: Move) => if m.Proceed? && Position(c, m.p) >= STEPS then None else Some(Moved(c, m))
  }

  ghost predicate HasFirst(t: Topo, n: nat) {
    forall k: nat :: k < n && k < STEPS ==> t.Has(Planned(k))
  }

  ghost predicate Sound(c: Shared) {
    && Distinct(c.broker.bindings)
    && (forall b :: b in c.broker.bindings ==> Canonical(b))
    && (forall p :: p in c.at ==> HasFirst(c.broker, c.at[p]))
    && (c.declared ==> HasFirst(c.broker, STEPS))
  }

  lemma AfterKeeps(t: Topo, op: Op, n: nat)
    requires HasFirst(t, n)
    ensures HasFirst(t.After(op), n) && t.After(op).Has(op)
  {
    forall k: nat | k < n && k < STEPS ensures t.After(op).Has(Planned(k)) {
      assert t.Has(Planned(k));
    }
  }

  /** The broker never refuses a declaration, in any interleaving. */
  lemma NeverRefused(c: Shared, p: nat)
    requires Sound(c) && Position(c, p) < STEPS
    ensures c.broker.Accepts(Planned(Position(c, p)))
  {
    var n := Position(c, p);
    if Planned(n).Bind? {
      QueueBeforeBinding(n);
      assert c.broker.Has(Planned(0)) && c.broker.Has(Planned(n - 1));
    }
  }

  lemma AfterKeepsBindings(t: Topo, n: nat)
    requires n < STEPS && Distinct(t.bindings) && forall b :: b in t.bindings ==> Canonical(b)
    ensures var u := t.After(Planned(n)); Distinct(u.bindings) && forall b :: b in u.bindings ==> Canonical(b)
    ensures HasFirst(t, STEPS) ==> t.After(Planned(n)).bindings == t.bindings
  {
    if Planned(n).Bind? { PlanBinds(Planned(n).b); }
    assert HasFirst(t, STEPS) ==> t.Has(Planned(n));
  }

  lemma MoveKeepsSound(c: Shared, m: Move)
    requires Sound(c) && (m.Proceed? ==> Position(c, m.p) < STEPS)
    ensures Sound(Moved(c, m))
    ensures c.declared ==> Moved(c, m).declared && Moved(c, m).broker.bindings == c.broker.bindings
  {
    if m.Proceed? {
      NeverRefused(c, m.p);
      var n := Position(c, m.p);
      var d := Moved(c, m);
      AfterKeepsBindings(c.broker, n);
      forall p | p in d.at ensures HasFirst(d.broker, d.at[p]) {
        AfterKeeps(c.broker, Planned(n), if p == m.p then n else c.at[p]);
      }
      if c.declared { AfterKeeps(c.broker, Planned(n), STEPS); }
    }
  }

  /** Sound, and with the bindings of `c` if those were complete. */
  ghost function SoundSince(c: Shared): Shared -> bool {
    (d: Shared) => Sound(d) && (c.declared ==> d.declared && d.broker.bindings == c.broker.bindings)
  }

  lemma DeclaringKeepsSound(c: Shared)
    ensures Keeps(Declaring(), SoundSince(c))
  {
    forall d, m | SoundSince(c)(d) && Declaring()(d, m).Some? ensures SoundSince(c)(Moved(d, m)) {
      MoveKeepsSound(d, m);
    }
  }

  lemma DeclaredIsComplete(c: Shared)
    requires Sound(c) && c.declared
    ensures Complete(c.broker.bindings)
  {
    forall b | Canonical(b) ensures b in c.broker.bindings {
      PlanBinds(b);
      var n: nat :| n < STEPS && Planned(n) == Bind(b);
      assert c.broker.Has(Planned(n));
    }
  }

  /** Over every interleaving of complete and interrupted runs the bindings stay
      within the canonical set, and once one run is complete they are the whole
      of it for ever after. */
  lemma TopologyConverges(c: Shared, run: seq<Move>)
    requires Sound(c) && Legal(Declaring(), c, run)
    ensures var d := After(Declaring(), c, run);
      && Sound(d)
      && (c.declared ==> d.declared && d.broker.bindings == c.broker.bindings)
      && (d.declared ==> Complete(d.broker.bindings))
  {
    DeclaringKeepsSound(c);
    RunKeeps(Declaring(), SoundSince(c), c, run);
    var d := After(Declaring(), c, run);
    if d.declared { DeclaredIsComplete(d); }
  }

  /** A process that runs alone performs the plan from where it stands, as a
      declaring run does, and completes the topology when it reaches the end. */
  lemma {:induction false} LoneRunReplays(t: Topo, c: Shared, p: nat, run: seq<Move>)
    requires Sound(c) && Legal(Declaring(), c, run) && Position(c, p) <= STEPS
    requires forall m :: m in run ==> m == Proceed(p)
    requires c.broker == Replay(Plan(), t, Position(c, p))
    ensures var d := After(Declaring(), c, run);
      && Position(d, p) == Position(c, p) + |run| <= STEPS
      && d.broker == Replay(Plan(), t, Position(d, p))
      && (run != [] && Position(d, p) == STEPS ==> d.declared)
    decreases |run|
  {
    if run != [] {
      assert run[0] in run;
      NeverRefused(c, p);
      MoveKeepsSound(c, run[0]);
      assert forall m :: m in run[1..] ==> m in run;
      var d := Moved(c, run[0]);
      LoneRunReplays(t, d, p, run[1..]);
      TopologyConverges(d, run[1..]);
    }
  }
}
