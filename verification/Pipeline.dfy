/** From the broker to the handling loop inside one worker process: the library's
    channel, two forwarding goroutines joined by channels without buffers, and the
    loop that handles and settles one delivery at a time. Deliveries are numbered in
    the order the broker sends them on this connection. */
module Pipeline {
  import opened Prelude
  import opened Runs

  /** A forwarder waits for a delivery, waits to pass one on, or has returned and
      closed its channel. */
  datatype Hop = Receiving | Holding(tag: nat) | Done

  datatype Loop = Waiting | Handling(tag: nat) | Returned

  datatype Settlement = Settlement(tag: nat, ack: bool)

  /** `raw` is what the library holds for the first forwarder. */
  datatype State = State(
    open: bool,
    cancelled: bool,
    delivered: nat,
    raw: seq<nat>,
    first: Hop,
    second: Hop,
    loop: Loop,
    handled: seq<nat>,
    settled: seq<Settlement>)

  /** The broker pushes, the connection closes with what the library still keeps, the
      context is cancelled; and then the steps of the two forwarders and the loop. */
  datatype Action =
    | Push
    | Close(kept: nat)
    | Cancel
    | Take
    | Pass
    | EndFirst
    | Hand
    | EndSecond
    | Settle(ack: bool)
    | EndLoop

  /** Both selects may ignore a cancelled context as long as a delivery is there too;
      passing a delivery on cannot be cancelled. A prefetch of zero sets no limit. */
  predicate Enabled(prefetch: nat, s: State, a: Action) {
    match a
    case Push => s.open && (prefetch > 0 ==> s.delivered - |s.settled| < prefetch)
    case Close(kept) => s.open && kept <= |s.raw|
    case Cancel => true
    case Take => s.first.Receiving? && s.raw != []
    case Pass => s.first.Holding? && s.second.Receiving?
    case EndFirst => s.first.Receiving? && s.raw == [] && !s.open
    case Hand => s.second.Holding? && s.loop.Waiting?
    case EndSecond => s.second.Receiving? && (s.cancelled || s.first.Done?)
    case Settle(_) => s.loop.Handling?
    case EndLoop => s.loop.Waiting? && (s.cancelled || s.second.Done?)
  }

  function Next(prefetch: nat, s: State, a: Action): State
    requires Enabled(prefetch, s, a)
  {
    match a
    case Push => s.(delivered := s.delivered + 1, raw := s.raw + [s.delivered])
    case Close(kept) => s.(open := false, raw := s.raw[..kept])
    case Cancel => s.(cancelled := true)
    case Take => s.(first := Holding(s.raw[0]), raw := s.raw[1..])
    case Pass => s.(second := s.first, first := Receiving)
    case EndFirst => s.(first := Done)
    case Hand => s.(loop := Handling(s.second.tag), handled := s.handled + [s.second.tag], second := Receiving)
    case EndSecond => s.(second := Done)
    case Settle(ack) => s.(loop := Waiting, settled := s.settled + [Settlement(s.loop.tag, ack)])
    case EndLoop => s.(loop := Returned)
  }

  function Flow(prefetch: nat): Stepper<State, Action> {
    (s: State, a: Action) => if Enabled(prefetch, s, a) then Some(Next(prefetch, s, a)) else None
  }

  function Fresh(): State {
    State(true, false, 0, [], Receiving, Receiving, Waiting, [], [])
  }

  // --------------------------------------------------------------- invariant

  function Held(hop: Hop): seq<nat> {
    if hop.Holding? then [hop.tag] else []
  }

  /** Everything the process has got hold of, the furthest first. */
  function InProcess(s: State): seq<nat> {
    s.handled + Held(s.second) + Held(s.first) + s.raw
  }

  ghost predicate Counting(tags: seq<nat>, from: nat) {
    forall k :: 0 <= k < |tags| ==> tags[k] == from + k
  }

  ghost predicate InLine(s: State) {
    var n := |s.handled|;
    var n2 := n + |Held(s.second)|;
    var n1 := n2 + |Held(s.first)|;
    && Counting(s.handled, 0)
    && (s.second.Holding? ==> s.second.tag == n)
    && (s.first.Holding? ==> s.first.tag == n2)
    && Counting(s.raw, n1)
    && n1 + |s.raw| <= s.delivered
    && (s.open ==> n1 + |s.raw| == s.delivered)
  }

  ghost predicate SettledInTurn(s: State) {
    && (forall k :: 0 <= k < |s.settled| ==> s.settled[k].tag == k)
    && (if s.loop.Handling? then |s.handled| == |s.settled| + 1 && s.loop.tag == |s.settled|
        else |s.handled| == |s.settled|)
  }

  ghost predicate EndsForReason(s: State) {
    && (s.first.Done? ==> !s.open && s.raw == [])
    && (s.second.Done? ==> s.cancelled || s.first.Done?)
    && (s.loop.Returned? ==> s.cancelled || s.second.Done?)
  }

  ghost predicate Sound(prefetch: nat, s: State) {
    && InLine(s) && SettledInTurn(s) && EndsForReason(s)
    && (prefetch > 0 ==> s.delivered - |s.settled| <= prefetch)
  }

  ghost function Soundness(prefetch: nat): State -> bool {
    (s: State) => Sound(prefetch, s)
  }

  lemma TakingKeepsLine(prefetch: nat, s: State)
    requires InLine(s) && Enabled(prefetch, s, Take)
    ensures InLine(Next(prefetch, s, Take))
  {
  }

  lemma PassingKeepsLine(prefetch: nat, s: State, a: Action)
    requires InLine(s) && Enabled(prefetch, s, a) && (a.Pass? || a.Hand?)
    ensures InLine(Next(prefetch, s, a))
  {
  }

  lemma ArrivingKeepsLine(prefetch: nat, s: State, a: Action)
    requires InLine(s) && Enabled(prefetch, s, a) && (a.Push? || a.Close?)
    ensures InLine(Next(prefetch, s, a))
  {
  }

  lemma StepKeepsLine(prefetch: nat, s: State, a: Action)
    requires InLine(s) && Enabled(prefetch, s, a)
    ensures InLine(Next(prefetch, s, a))
  {
    match a
    case Push => ArrivingKeepsLine(prefetch, s, a);
    case Close(_) => ArrivingKeepsLine(prefetch, s, a);
    case Take => TakingKeepsLine(prefetch, s);
    case Pass => PassingKeepsLine(prefetch, s, a);
    case Hand => PassingKeepsLine(prefetch, s, a);
    case _ =>
  }

  lemma StepKeepsTurn(prefetch: nat, s: State, a: Action)
    requires InLine(s) && SettledInTurn(s) && Enabled(prefetch, s, a)
    ensures SettledInTurn(Next(prefetch, s, a))
  {
  }

  lemma StepKeepsReasons(prefetch: nat, s: State, a: Action)
    requires EndsForReason(s) && Enabled(prefetch, s, a)
    ensures EndsForReason(Next(prefetch, s, a))
  {
  }

  lemma StepKeepsSound(prefetch: nat, s: State, a: Action)
    requires Sound(prefetch, s) && Enabled(prefetch, s, a)
    ensures Sound(prefetch, Next(prefetch, s, a))
  {
    StepKeepsLine(prefetch, s, a);
    StepKeepsTurn(prefetch, s, a);
    StepKeepsReasons(prefetch, s, a);
  }

  lemma FlowKeepsSound(prefetch: nat)
    ensures Keeps(Flow(prefetch), Soundness(prefetch))
  {
    forall s, a | Sound(prefetch, s) && Enabled(prefetch, s, a) ensures Sound(prefetch, Next(prefetch, s, a)) {
      StepKeepsSound(prefetch, s, a);
    }
  }

  // ------------------------------------------------------------ main results

  lemma InLineCounts(s: State, k: nat)
    requires InLine(s) && k < |InProcess(s)|
    ensures InProcess(s)[k] == k
  {
    var a, b, c := |s.handled|, |Held(s.second)|, |Held(s.first)|;
    if a <= k < a + b {
      assert InProcess(s)[k] == Held(s.second)[k - a];
    } else if a + b <= k < a + b + c {
      assert InProcess(s)[k] == Held(s.first)[k - a - b];
    }
  }

  /** Pipeline order: through both forwarders and any interleaving with cancellation
      and disconnection, deliveries keep the broker's order. What reached the loop
      is what the broker sent first, each once and none left out; it is settled in
      that order, each by one ack or nack, and before the next is begun; and with a
      prefetch limit the unsettled deliveries never exceed it. */
  lemma OrderIsKept(prefetch: nat, run: seq<Action>)
    requires Legal(Flow(prefetch), Fresh(), run)
    ensures var s := After(Flow(prefetch), Fresh(), run);
      && (forall k :: 0 <= k < |InProcess(s)| ==> InProcess(s)[k] == k)
      && |InProcess(s)| <= s.delivered && (s.open ==> |InProcess(s)| == s.delivered)
      && |s.settled| <= |s.handled| <= |s.settled| + 1
      && (forall k :: 0 <= k < |s.settled| ==> s.settled[k].tag == s.handled[k] == k)
      && (prefetch > 0 ==> s.delivered - |s.settled| <= prefetch)
  {
    FlowKeepsSound(prefetch);
    RunKeeps(Flow(prefetch), Soundness(prefetch), Fresh(), run);
    var s := After(Flow(prefetch), Fresh(), run);
    forall k: nat | k < |InProcess(s)| ensures InProcess(s)[k] == k {
      InLineCounts(s, k);
    }
  }

  /** Nothing more gets to the loop. */
  predicate Cut(s: State) {
    s.second.Done? || s.loop.Returned?
  }

  ghost predicate CutAt(prefetch: nat, handled: seq<nat>, s: State) {
    Sound(prefetch, s) && Cut(s) && s.handled == handled
  }

  ghost function Cutting(prefetch: nat, handled: seq<nat>): State -> bool {
    (s: State) => CutAt(prefetch, handled, s)
  }

  /** Once the second forwarder or the loop has returned, the deliveries not handled
      by then are stranded: whatever happens afterwards, none of them is handled or
      settled, while the one in hand may still be settled. */
  lemma StrandedStaysUnsettled(prefetch: nat, s: State, run: seq<Action>)
    requires Sound(prefetch, s) && Cut(s) && Legal(Flow(prefetch), s, run)
    ensures var t := After(Flow(prefetch), s, run);
      && t.handled == s.handled
      && (forall k :: 0 <= k < |t.settled| ==> t.settled[k].tag < |s.handled|)
  {
    forall u, a | CutAt(prefetch, s.handled, u) && Enabled(prefetch, u, a)
      ensures CutAt(prefetch, s.handled, Next(prefetch, u, a))
    {
      StepKeepsSound(prefetch, u, a);
    }
    RunKeeps(Flow(prefetch), Cutting(prefetch, s.handled), s, run);
  }

  /** A loop that ends without being cancelled ends because the connection closed,
      and only after handling and settling all the library had kept. */
  lemma UncancelledLoopServesAll(prefetch: nat, run: seq<Action>)
    requires Legal(Flow(prefetch), Fresh(), run)
    ensures var s := After(Flow(prefetch), Fresh(), run);
      s.loop.Returned? && !s.cancelled ==> !s.open && InProcess(s) == s.handled && |s.settled| == |s.handled|
  {
    FlowKeepsSound(prefetch);
    RunKeeps(Flow(prefetch), Soundness(prefetch), Fresh(), run);
  }

  ghost predicate ClosedWith(prefetch: nat, n: nat, s: State) {
    Sound(prefetch, s) && !s.open && |InProcess(s)| == n
  }

  ghost function ClosedHolding(prefetch: nat, n: nat): State -> bool {
    (s: State) => ClosedWith(prefetch, n, s)
  }

  lemma ClosedStaysClosed(prefetch: nat, n: nat, s: State, a: Action)
    requires ClosedWith(prefetch, n, s) && Enabled(prefetch, s, a)
    ensures ClosedWith(prefetch, n, Next(prefetch, s, a))
  {
    StepKeepsSound(prefetch, s, a);
  }

  lemma ServedAtTheEnd(prefetch: nat, n: nat, s: State)
    requires ClosedWith(prefetch, n, s) && s.loop.Returned? && !s.cancelled
    ensures |s.settled| == |s.handled| == n
  {
  }

  /** When the connection closes, what the process has got hold of and what the library
      keeps is still handled and settled, and nothing else, unless it is cancelled. */
  lemma KeptIsServed(prefetch: nat, s: State, kept: nat, run: seq<Action>)
    requires Sound(prefetch, s) && Enabled(prefetch, s, Close(kept))
    requires Legal(Flow(prefetch), Next(prefetch, s, Close(kept)), run)
    ensures var t := After(Flow(prefetch), Next(prefetch, s, Close(kept)), run);
      t.loop.Returned? && !t.cancelled ==>
        |t.settled| == |t.handled| == |s.handled| + |Held(s.second)| + |Held(s.first)| + kept
  {
    var n := |s.handled| + |Held(s.second)| + |Held(s.first)| + kept;
    StepKeepsSound(prefetch, s, Close(kept));
    assert |InProcess(Next(prefetch, s, Close(kept)))| == n;
    forall u, a | ClosedWith(prefetch, n, u) && Enabled(prefetch, u, a)
      ensures ClosedWith(prefetch, n, Next(prefetch, u, a))
    {
      ClosedStaysClosed(prefetch, n, u, a);
    }
    RunKeeps(Flow(prefetch), ClosedHolding(prefetch, n), Next(prefetch, s, Close(kept)), run);
    var t := After(Flow(prefetch), Next(prefetch, s, Close(kept)), run);
    if t.loop.Returned? && !t.cancelled { ServedAtTheEnd(prefetch, n, t); }
  }

  // ---------------------------------------------------------------- progress

  /** Steps the process does not take by itself. */
  predicate External(a: Action) {
    a.Push? || a.Close? || a.Cancel?
  }

  ghost function Externally(): (State, Action) -> bool {
    (s: State, a: Action) => External(a)
  }

  ghost predicate AtRest(prefetch: nat, s: State) {
    forall a :: Enabled(prefetch, s, a) ==> External(a)
  }

  /** Steps left to the process: four for each delivery, and the three returns. */
  function StepsLeft(s: State): int {
    4 * |s.raw|
    + (match s.first case Receiving => 1 case Holding(_) => 4 case Done => 0)
    + (match s.second case Receiving => 1 case Holding(_) => 3 case Done => 0)
    + (match s.loop case Waiting => 1 case Handling(_) => 2 case Returned => 0)
  }

  ghost function Remaining(): State -> int {
    (s: State) => StepsLeft(s)
  }

  lemma StepDescends(prefetch: nat, s: State, a: Action)
    requires Enabled(prefetch, s, a)
    ensures StepsLeft(Next(prefetch, s, a)) <= if External(a) then StepsLeft(s) + 4 else StepsLeft(s) - 1
  {
  }

  lemma FlowDescends(prefetch: nat)
    ensures Descends(Flow(prefetch), Soundness(prefetch), Remaining(), Externally(), 4)
  {
    forall s, a | Enabled(prefetch, s, a)
      ensures Remaining()(Next(prefetch, s, a)) <= if Externally()(s, a) then Remaining()(s) + 4 else Remaining()(s) - 1
    {
      StepDescends(prefetch, s, a);
    }
  }

  /** The process comes to rest: its own steps are bounded by four for each delivery
      pushed and a constant. */
  lemma ProcessComesToRest(prefetch: nat, run: seq<Action>)
    requires Legal(Flow(prefetch), Fresh(), run)
    ensures |run| <= 3 + 5 * Disruptions(Flow(prefetch), Externally(), Fresh(), run)
  {
    FlowKeepsSound(prefetch);
    FlowDescends(prefetch);
    RunIsBounded(Flow(prefetch), Soundness(prefetch), Remaining(), Externally(), 4, Fresh(), run);
  }

  /** At rest, and neither cancelled nor disconnected, it has settled everything the
      broker delivered and waits for more. */
  lemma RestIsServed(prefetch: nat, s: State)
    requires Sound(prefetch, s) && AtRest(prefetch, s) && s.open && !s.cancelled
    ensures |s.settled| == |s.handled| == s.delivered
    ensures s.raw == [] && s.first.Receiving? && s.second.Receiving? && s.loop.Waiting?
    ensures Enabled(prefetch, s, Push)
  {
    var settling, handing, passing, taking :=
      Enabled(prefetch, s, Settle(true)), Enabled(prefetch, s, Hand),
      Enabled(prefetch, s, Pass), Enabled(prefetch, s, Take);
    assert !settling && !handing && !passing && !taking;
  }

  /** At rest after a cancellation or on a closed connection the loop has returned; and
      if it was never cancelled, with everything the library kept handled and settled. */
  lemma RestIsOver(prefetch: nat, s: State)
    requires Sound(prefetch, s) && AtRest(prefetch, s) && (s.cancelled || !s.open)
    ensures s.loop.Returned?
    ensures !s.cancelled ==> InProcess(s) == s.handled && |s.settled| == |s.handled| && s.first.Done? && s.second.Done?
  {
    var settling, handing, passing, taking :=
      Enabled(prefetch, s, Settle(true)), Enabled(prefetch, s, Hand),
      Enabled(prefetch, s, Pass), Enabled(prefetch, s, Take);
    var looping, adapting, forwarding :=
      Enabled(prefetch, s, EndLoop), Enabled(prefetch, s, EndSecond), Enabled(prefetch, s, EndFirst);
    assert !settling && !handing && !passing && !taking && !looping && !adapting && !forwarding;
  }

  // ------------------------------------------------- the goroutines themselves

  datatype Party = Forwarder | Adapter | Worker

  /** Steps a goroutine takes part in; the passing on is a joint step. */
  predicate Own(party: Party, a: Action) {
    match party
    case Forwarder => a.Take? || a.Pass? || a.EndFirst?
    case Adapter => a.Pass? || a.Hand? || a.EndSecond?
    case Worker => a.Hand? || a.Settle? || a.EndLoop?
  }

  /** How many deliveries have got past the first forwarder. */
  function Passed(s: State): nat {
    |s.handled| + |Held(s.second)|
  }

  /** The part of the state that only the party's own steps change. */
  ghost predicate Untouched(party: Party, s: State, t: State) {
    match party
    case Forwarder => t.first == s.first && Passed(t) == Passed(s)
    case Adapter => t.second == s.second && t.handled == s.handled
    case Worker => t.loop == s.loop && t.handled == s.handled && t.settled == s.settled
  }

  lemma OthersLeaveUntouched(prefetch: nat, party: Party, s: State, a: Action)
    requires Enabled(prefetch, s, a) && !Own(party, a)
    ensures Untouched(party, s, Next(prefetch, s, a))
  {
  }

  /** A round of the first forwarder passes one delivery on, unless the library has
      none and the connection is still open. */
  ghost predicate ForwardRound(s: State, t: State) {
    t.first.Receiving? && (Passed(t) == Passed(s) + 1 || (Passed(t) == Passed(s) && t.raw == [] && t.open))
  }

  /** A round of the adapter hands one delivery on, unless none waits and neither the
      context nor the first forwarder is over. */
  ghost predicate AdaptRound(s: State, t: State) {
    && t.second.Receiving? && s.handled <= t.handled
    && (|t.handled| == |s.handled| + 1 || (t.handled == s.handled && t.first.Receiving? && !t.cancelled))
  }

  /** A round of the loop settles one delivery, as its handling says, unless none waits
      and neither the context nor the second forwarder is over. */
  ghost predicate RunRound(s: State, t: State, ack: bool) {
    && t.loop.Waiting?
    && (t.settled == s.settled + [Settlement(|s.settled|, ack)]
        || (t.settled == s.settled && t.second.Receiving? && !t.cancelled))
  }

  /** The adapter may return: cut off, or cancelled with no delivery waiting, or
      cancelled and its select goes that way. */
  predicate AdaptMayEnd(s: State, stop: bool) {
    s.first.Done? || (s.cancelled && (stop || !s.first.Holding?))
  }

  /** The loop may return, in the same way. */
  predicate RunMayEnd(s: State, stop: bool) {
    s.second.Done? || (s.cancelled && (stop || !s.second.Holding?))
  }

  /** What the adapter hands on if nothing else happens. */
  function HandedAlone(s: State, stops: seq<bool>): seq<nat> {
    if stops != [] && s.first.Holding? && !(s.cancelled && stops[0]) && s.loop.Waiting? then [s.first.tag] else []
  }

  /** What the loop settles if nothing else happens. */
  function SettledAlone(s: State, turns: seq<(bool, bool)>): seq<Settlement> {
    if turns != [] && s.second.Holding? && !(s.cancelled && turns[0].0)
    then [Settlement(s.second.tag, turns[0].1)] else []
  }

  ghost function ForwardRounds(): (nat, State, State) -> bool {
    (k: nat, s: State, t: State) => ForwardRound(s, t)
  }

  ghost function AdaptRounds(): (nat, State, State) -> bool {
    (k: nat, s: State, t: State) => AdaptRound(s, t)
  }

  ghost function RunRounds(turns: seq<(bool, bool)>): (nat, State, State) -> bool {
    (k: nat, s: State, t: State) => k < |turns| && RunRound(s, t, turns[k].1)
  }

  /** How a round of a forwarder ends: ready for the next, waiting to pass on what it
      holds, or returned. */
  datatype Progress = Going | Blocked | Closed

  /** One worker process on one connection. `trace` is everything that happened on
      it; `others` is what the rest tries to do, each time a goroutine waits, and may
      be anything. */
  class Connection {
    const prefetch: nat
    ghost var trace: seq<Action>
    var world: State
    var others: seq<seq<Action>>

    constructor (prefetch: nat, others: seq<seq<Action>>)
      ensures Valid() && this.prefetch == prefetch && this.others == others && trace == [] && world == Fresh()
    {
      this.prefetch, this.others := prefetch, others;
      trace, world := [], Fresh();
    }

    ghost predicate Valid()
      reads this
    {
      Legal(Flow(prefetch), Fresh(), trace) && world == After(Flow(prefetch), Fresh(), trace)
    }

    lemma ValidIsSound()
      requires Valid()
      ensures Sound(prefetch, world)
    {
      FlowKeepsSound(prefetch);
      RunKeeps(Flow(prefetch), Soundness(prefetch), Fresh(), trace);
    }

    method Do(a: Action)
      requires Valid() && Enabled(prefetch, world, a)
      modifies this`world, this`trace
      ensures Valid() && trace == old(trace) + [a] && world == Next(prefetch, old(world), a)
    {
      AfterOne(Flow(prefetch), world, a);
      AfterConcat(Flow(prefetch), Fresh(), trace, [a]);
      trace := trace + [a];
      world := Next(prefetch, world, a);
    }

    /** Everyone but the party acts as they will. */
    method Interfere(party: Party)
      requires Valid()
      modifies this
      ensures Valid() && old(trace) <= trace && Untouched(party, old(world), world)
      ensures if old(others) == [] then world == old(world) && others == [] else others == old(others)[1..]
    {
      var moves: seq<Action> := [];
      if others != [] {
        moves, others := others[0], others[1..];
      }
      for n := 0 to |moves|
        invariant Valid() && old(trace) <= trace && Untouched(party, old(world), world)
        invariant if old(others) == [] then world == old(world) && others == [] else others == old(others)[1..]
      {
        if Enabled(prefetch, world, moves[n]) && !Own(party, moves[n]) {
          OthersLeaveUntouched(prefetch, party, world, moves[n]);
          Do(moves[n]);
        }
      }
    }

    /** Passed on since the count stood at `from`: `sent`, all of it and in order. */
    ghost predicate Forwarded(from: nat, sent: seq<nat>)
      reads this
    {
      Valid() && Counting(sent, from) && |sent| == Passed(world) - from
    }

    method ForwardNext(ghost from: nat, sent: seq<nat>) returns (now: seq<nat>, progress: Progress)
      requires Forwarded(from, sent) && world.first.Receiving?
      modifies this
      ensures Forwarded(from, now) && old(trace) <= trace
      ensures match progress
        case Going => ForwardRound(old(world), world)
        case Blocked => now == sent && world.first == Holding(from + |sent|) && !world.second.Receiving?
        case Closed => now == sent && world.first.Done? && world.raw == [] && !world.open
      ensures old(others) == [] ==> var s := old(world);
        && others == []
        && (if s.raw == [] then now == sent && world.second == s.second
            else if s.second.Receiving? then now == sent + [s.raw[0]] && world.second == Holding(s.raw[0])
            else progress == Blocked)
    {
      now, progress := sent, Going;
      Interfere(Forwarder);
      if world.raw != [] {
        ValidIsSound();
        Do(Take);
        Interfere(Forwarder);
        if !world.second.Receiving? { return now, Blocked; }
        ValidIsSound();
        now := now + [world.first.tag];
        Do(Pass);
      } else if !world.open {
        Do(EndFirst);
        progress := Closed;
      }
    }

    /** Nobody interfered with the first forwarder in these rounds. */
    ghost predicate ForwardedAlone(was: State, n: nat, sent: seq<nat>)
      reads this
    {
      && others == []
      && (if n == 0 then world == was && sent == []
          else if was.raw == [] then sent == [] && world.raw == []
          else was.second.Receiving? && sent == [was.raw[0]] && !world.second.Receiving?)
    }

    /** The first forwarder, watched for a number of rounds: it passes on what comes,
        all of it and in order, one in each round in which the library has any. It
        stops only at a delivery that the second does not take, or, when the library
        has no more and never will, to close its channel. */
    method Forward(rounds: nat) returns (sent: seq<nat>, closed: bool, ghost marks: seq<nat>)
      requires Valid() && world.first.Receiving?
      modifies this
      ensures Forwarded(Passed(old(world)), sent) && old(trace) <= trace
      ensures closed <==> world.first.Done?
      ensures closed ==> !world.open && world.raw == []
      ensures Rounds(Flow(prefetch), Fresh(), trace, marks, ForwardRounds()) && marks != [] && marks[0] == |old(trace)|
      ensures world.first.Receiving? ==> |marks| == rounds + 1 && marks[rounds] == |trace|
      ensures world.first.Holding? ==> world.first.tag == Passed(world) && !world.second.Receiving?
      ensures old(others) == [] ==> var s := old(world);
        sent == if rounds > 0 && s.raw != [] && s.second.Receiving? then [s.raw[0]] else []
    {
      sent, closed, marks := [], false, [|trace|];
      assert trace[..|trace|] == trace;
      for n := 0 to rounds
        invariant Forwarded(Passed(old(world)), sent) && old(trace) <= trace && world.first.Receiving?
        invariant Rounds(Flow(prefetch), Fresh(), trace, marks, ForwardRounds()) && |marks| == n + 1
        invariant marks[0] == |old(trace)| && marks[n] == |trace|
        invariant old(others) == [] ==> ForwardedAlone(old(world), n, sent)
      {
        ghost var was := trace;
        var progress;
        sent, progress := ForwardNext(Passed(old(world)), sent);
        if progress != Going {
          ValidIsSound();
          RoundsGoOn(Flow(prefetch), Fresh(), was, trace, marks, ForwardRounds());
          closed := progress == Closed;
          return;
        }
        OneMoreRound(Flow(prefetch), Fresh(), was, trace, marks, ForwardRounds());
        marks := marks + [|trace|];
      }
    }

    /** Handed to the loop since it had `before`: `sent`, all of it and in order. */
    ghost predicate HandedOn(before: seq<nat>, sent: seq<nat>)
      reads this
    {
      Valid() && world.handled == before + sent && Counting(sent, |before|)
    }

    method AdaptNext(ghost before: seq<nat>, sent: seq<nat>, stop: bool) returns (now: seq<nat>, progress: Progress)
      requires HandedOn(before, sent) && world.second.Receiving?
      modifies this
      ensures HandedOn(before, now) && old(trace) <= trace
      ensures match progress
        case Going => AdaptRound(old(world), world)
        case Blocked => now == sent && world.second == Holding(|world.handled|) && !world.loop.Waiting?
        case Closed => now == sent && world.second.Done? && AdaptMayEnd(world, stop)
      ensures old(others) == [] ==> var s := old(world);
        && others == []
        && (if !s.first.Holding? || (s.cancelled && stop) then now == sent && world.first == s.first
            else if s.loop.Waiting? then now == sent + [s.first.tag] && world.first.Receiving?
            else progress == Blocked)
    {
      now, progress := sent, Going;
      Interfere(Adapter);
      if world.first.Holding? && !(world.cancelled && stop) {
        ValidIsSound();
        Do(Pass);
        Interfere(Adapter);
        if !world.loop.Waiting? { return now, Blocked; }
        ValidIsSound();
        now := now + [world.second.tag];
        Do(Hand);
      } else if world.cancelled || world.first.Done? {
        Do(EndSecond);
        progress := Closed;
      }
    }

    /** Nobody interfered with the adapter in these rounds. */
    ghost predicate AdaptedAlone(was: State, n: nat, sent: seq<nat>, stops: seq<bool>)
      reads this
    {
      && others == []
      && (if n == 0 || stops == [] then world == was && sent == []
          else !world.first.Holding? && sent == HandedAlone(was, stops))
    }

    /** The second forwarder, watched for some rounds: `stops` says which way its
        select goes when both are possible. It hands on what comes, in order, one in
        each round in which one waits, and stops only at a delivery that the loop does
        not take, or, when cancelled or cut off, to close its channel. */
    method Adapt(stops: seq<bool>) returns (sent: seq<nat>, closed: bool, ghost marks: seq<nat>)
      requires Valid() && world.second.Receiving?
      modifies this
      ensures HandedOn(old(world).handled, sent) && old(trace) <= trace
      ensures closed <==> world.second.Done?
      ensures closed ==> exists n :: 0 <= n < |stops| && AdaptMayEnd(world, stops[n])
      ensures Rounds(Flow(prefetch), Fresh(), trace, marks, AdaptRounds()) && marks != [] && marks[0] == |old(trace)|
      ensures world.second.Receiving? ==> |marks| == |stops| + 1 && marks[|stops|] == |trace|
      ensures world.second.Holding? ==> world.second.tag == |world.handled| && !world.loop.Waiting?
      ensures old(others) == [] ==> sent == HandedAlone(old(world), stops)
    {
      sent, closed, marks := [], false, [|trace|];
      assert trace[..|trace|] == trace;
      for n := 0 to |stops|
        invariant HandedOn(old(world).handled, sent) && old(trace) <= trace && world.second.Receiving?
        invariant Rounds(Flow(prefetch), Fresh(), trace, marks, AdaptRounds()) && |marks| == n + 1
        invariant marks[0] == |old(trace)| && marks[n] == |trace|
        invariant old(others) == [] ==> AdaptedAlone(old(world), n, sent, stops)
      {
        ghost var was := trace;
        var progress;
        sent, progress := AdaptNext(old(world).handled, sent, stops[n]);
        if progress != Going {
          ValidIsSound();
          RoundsGoOn(Flow(prefetch), Fresh(), was, trace, marks, AdaptRounds());
          closed := progress == Closed;
          return;
        }
        OneMoreRound(Flow(prefetch), Fresh(), was, trace, marks, AdaptRounds());
        marks := marks + [|trace|];
      }
    }

    /** Settled and handled alike have only grown. */
    ghost predicate GrownFrom(was: State)
      reads this
    {
      Valid() && was.settled <= world.settled && was.handled <= world.handled
    }

    method RunNext(ghost was: State, stop: bool, ack: bool) returns (ended: bool)
      requires GrownFrom(was) && world.loop.Waiting?
      modifies this
      ensures GrownFrom(was) && old(trace) <= trace
      ensures if ended then world.loop.Returned? && RunMayEnd(world, stop) && world.settled == old(world).settled
              else RunRound(old(world), world, ack)
      ensures old(others) == [] ==>
        && others == [] && (ended || !world.second.Holding?)
        && world.settled == old(world).settled + SettledAlone(old(world), [(stop, ack)])
    {
      ended := false;
      Interfere(Worker);
      if world.second.Holding? && !(world.cancelled && stop) {
        ValidIsSound();
        Do(Hand);
        Interfere(Worker);
        Do(Settle(ack));
      } else if world.cancelled || world.second.Done? {
        Do(EndLoop);
        ended := true;
      }
    }

    /** Nobody interfered with the loop in these rounds. */
    ghost predicate ServedAlone(was: State, n: nat, turns: seq<(bool, bool)>)
      reads this
    {
      && others == []
      && (if n == 0 || turns == [] then world == was
          else !world.second.Holding? && world.settled == was.settled + SettledAlone(was, turns))
    }

    /** The loop: it takes the next delivery only after settling the last one. For
        each round `turns` says whether the select prefers a cancelled context, and
        how the handling settles the delivery. It settles one in each round in which
        one waits, and ends before its last round only when cancelled or cut off. */
    method Run(turns: seq<(bool, bool)>) returns (ended: bool, ghost marks: seq<nat>)
      requires Valid() && world.loop.Waiting?
      modifies this
      ensures GrownFrom(old(world)) && old(trace) <= trace
      ensures |world.settled| == |world.handled|
      ensures ended <==> world.loop.Returned?
      ensures ended ==> exists n :: 0 <= n < |turns| && RunMayEnd(world, turns[n].0)
      ensures Rounds(Flow(prefetch), Fresh(), trace, marks, RunRounds(turns)) && marks != [] && marks[0] == |old(trace)|
      ensures !ended ==> |marks| == |turns| + 1 && marks[|turns|] == |trace|
      ensures old(others) == [] ==> world.settled == old(world).settled + SettledAlone(old(world), turns)
    {
      ended, marks := false, [|trace|];
      assert trace[..|trace|] == trace;
      for n := 0 to |turns|
        invariant GrownFrom(old(world)) && old(trace) <= trace && world.loop.Waiting?
        invariant Rounds(Flow(prefetch), Fresh(), trace, marks, RunRounds(turns)) && |marks| == n + 1
        invariant marks[0] == |old(trace)| && marks[n] == |trace|
        invariant old(others) == [] ==> ServedAlone(old(world), n, turns)
      {
        ghost var was := trace;
        ended := RunNext(old(world), turns[n].0, turns[n].1);
        if ended {
          ValidIsSound();
          RoundsGoOn(Flow(prefetch), Fresh(), was, trace, marks, RunRounds(turns));
          return;
        }
        OneMoreRound(Flow(prefetch), Fresh(), was, trace, marks, RunRounds(turns));
        marks := marks + [|trace|];
      }
      ValidIsSound();
    }
  }
}
