/** The serialised publisher: concurrent callers, one lock, one channel, and one
    deadline per call, fixed before the lock is asked for. Time is in nanoseconds. */
module Publisher {
  import opened Prelude
  import opened Notification
  import opened Runs

  /** A deployment: the configured timeout, and how long a write on the wire may take. */
  datatype Setting = Setting(timeout: nat, write: nat)

  /** A call of publish: its arrival, its deadline, and how many calls it found ahead.
      The caller's own context may make the deadline earlier than the timeout does. */
  datatype Caller = Caller(id: nat, arrival: int, deadline: int, ahead: nat, msg: Message)

  datatype Stage = Locked(since: int) | Written(tag: nat, since: int)

  datatype Holder = Holder(caller: Caller, stage: Stage)

  datatype Outcome = WriteFailed | Confirmed(tag: nat) | Nacked(tag: nat) | Abandoned(tag: nat)

  /** A call that has returned: when it got the lock, when it returned, and how. */
  datatype Return = Return(caller: Caller, acquired: int, at: int, outcome: Outcome)

  /** `sent` numbers what was written on the channel; `answers` holds the broker's
      acks and nacks, by the same numbers. */
  datatype State = State(
    now: int,
    waiting: seq<Caller>,
    holder: Option<Holder>,
    sent: seq<Caller>,
    answers: map<nat, bool>,
    returned: seq<Return>,
    arrived: nat)

  datatype Action =
    | Arrive(deadline: int, msg: Message)
    | Acquire
    | Write(ok: bool)
    | Answer(tag: nat, ack: bool)
    | Finish
    | Expire
    | Cancel
    | Tick(d: nat)

  function Inside(s: State): nat {
    |s.waiting| + if s.holder.Some? then 1 else 0
  }

  function Newcomer(s: State, deadline: int, msg: Message): Caller {
    Caller(s.arrived, s.now, deadline, Inside(s), msg)
  }

  /** The deadline of a call that arrives now: the timeout, or its caller's own
      deadline if that is earlier. */
  function Deadline(cfg: Setting, s: State, own: Option<int>): (d: int)
    ensures d <= s.now + cfg.timeout && (own.Some? ==> d <= own.value)
    ensures d == s.now + cfg.timeout || own == Some(d)
  {
    if own.Some? && own.value < s.now + cfg.timeout then own.value else s.now + cfg.timeout
  }

  /** Goroutines run at once when they can; so time passes only while nobody can move:
      not past the end of a write, nor past the deadline of the call that waits for
      its confirm. The lock is handed out in order of arrival. */
  predicate Enabled(cfg: Setting, s: State, a: Action) {
    match a
    case Arrive(deadline, _) => deadline <= s.now + cfg.timeout
    case Acquire => s.holder.None? && s.waiting != []
    case Write(_) => s.holder.Some? && s.holder.value.stage.Locked?
    case Answer(tag, _) => tag < |s.sent| && tag !in s.answers
    case Finish => s.holder.Some? && s.holder.value.stage.Written? && s.holder.value.stage.tag in s.answers
    case Expire => s.holder.Some? && s.holder.value.stage.Written? && s.holder.value.caller.deadline <= s.now
    case Cancel => s.holder.Some? && s.holder.value.stage.Written?
    case Tick(d) =>
      match s.holder
      case None => s.waiting == []
      case Some(Holder(_, Locked(since))) => s.now + d <= since + cfg.write
      case Some(Holder(c, Written(_, _))) => s.now + d <= c.deadline
  }

  /** The holder returns and releases the lock. */
  function Leave(s: State, outcome: Outcome): State
    requires s.holder.Some?
  {
    var h := s.holder.value;
    s.(holder := None, returned := s.returned + [Return(h.caller, h.stage.since, s.now, outcome)])
  }

  function Next(cfg: Setting, s: State, a: Action): State
    requires Enabled(cfg, s, a)
  {
    match a
    case Arrive(deadline, msg) => s.(waiting := s.waiting + [Newcomer(s, deadline, msg)], arrived := s.arrived + 1)
    case Acquire => s.(holder := Some(Holder(s.waiting[0], Locked(s.now))), waiting := s.waiting[1..])
    case Write(ok) =>
      if !ok then Leave(s, WriteFailed)
      else
        var h := s.holder.value;
        s.(holder := Some(h.(stage := Written(|s.sent|, h.stage.since))), sent := s.sent + [h.caller])
    case Answer(tag, ack) => s.(answers := s.answers[tag := ack])
    case Finish =>
      var tag := s.holder.value.stage.tag;
      Leave(s, if s.answers[tag] then Confirmed(tag) else Nacked(tag))
    case Expire => Leave(s, Abandoned(s.holder.value.stage.tag))
    case Cancel => Leave(s, Abandoned(s.holder.value.stage.tag))
    case Tick(d) => s.(now := s.now + d)
  }

  function Serial(cfg: Setting): Stepper<State, Action> {
    (s: State, a: Action) => if Enabled(cfg, s, a) then Some(Next(cfg, s, a)) else None
  }

  predicate Initial(s: State) {
    s == State(s.now, [], None, [], map[], [], 0)
  }

  // ------------------------------------------------------------------ timing

  /** Latest time by which the lock can be free of the present holder. */
  function Base(cfg: Setting, s: State): int {
    match s.holder
    case None => s.now
    case Some(Holder(c, Locked(since))) => Max(since + cfg.write, c.deadline)
    case Some(Holder(c, Written(_, _))) => Max(s.now, c.deadline)
  }

  /** Latest time by which the caller at position `j` can return, if the lock is
      free at `base`. */
  function Release(cfg: Setting, base: int, waiting: seq<Caller>, j: nat): int
    requires j < |waiting|
    decreases j
  {
    var first := Max(base + cfg.write, waiting[0].deadline);
    if j == 0 then first else Release(cfg, first, waiting[1..], j - 1)
  }

  /** The latest time at which a call that arrives now can return. */
  function Latest(cfg: Setting, s: State, c: Caller): int {
    Release(cfg, Base(cfg, s), s.waiting + [c], |s.waiting|)
  }

  /** What a call is promised: its arrival plus the timeout, plus the time of the
      writes ahead of it and of its own. */
  function Promise(cfg: Setting, c: Caller): int {
    c.arrival + cfg.timeout + (c.ahead + 1) * cfg.write
  }

  lemma {:induction false} ReleaseMonotone(cfg: Setting, base: int, base': int, waiting: seq<Caller>, j: nat)
    requires j < |waiting| && base <= base'
    ensures base <= Release(cfg, base, waiting, j) <= Release(cfg, base', waiting, j)
    decreases j
  {
    if j > 0 {
      var d := waiting[0].deadline;
      ReleaseMonotone(cfg, Max(base + cfg.write, d), Max(base' + cfg.write, d), waiting[1..], j - 1);
    }
  }

  lemma {:induction false} ReleaseOfMore(cfg: Setting, base: int, waiting: seq<Caller>, c: Caller, j: nat)
    requires j < |waiting|
    ensures Release(cfg, base, waiting + [c], j) == Release(cfg, base, waiting, j)
    decreases j
  {
    if j > 0 {
      assert (waiting + [c])[1..] == waiting[1..] + [c];
      ReleaseOfMore(cfg, Max(base + cfg.write, waiting[0].deadline), waiting[1..], c, j - 1);
    }
  }

  /** If nobody's deadline is later than `limit`, each write costs its time and no more. */
  lemma {:induction false} ReleaseBounded(cfg: Setting, base: int, waiting: seq<Caller>, j: nat, limit: int)
    requires j < |waiting| && base <= limit
    requires forall c :: c in waiting ==> c.deadline <= limit
    ensures Release(cfg, base, waiting, j) <= limit + (j + 1) * cfg.write
    decreases j
  {
    var first := Max(base + cfg.write, waiting[0].deadline);
    assert waiting[0] in waiting;
    if j > 0 {
      forall c | c in waiting[1..] ensures c.deadline <= limit + cfg.write { assert c in waiting; }
      ReleaseBounded(cfg, first, waiting[1..], j - 1, limit + cfg.write);
      assert limit + cfg.write + j * cfg.write == limit + (j + 1) * cfg.write;
    }
  }

  ghost predicate Fresh(cfg: Setting, s: State, c: Caller) {
    c.arrival <= s.now && c.deadline <= c.arrival + cfg.timeout
  }

  ghost predicate HolderPunctual(cfg: Setting, now: int, h: Holder) {
    && h.stage.since <= now
    && now <= if h.stage.Locked? then h.stage.since + cfg.write else Max(h.stage.since + cfg.write, h.caller.deadline)
  }

  /** The clock never overtakes the end of a write or of a wait for a confirm. */
  ghost predicate Punctual(cfg: Setting, s: State) {
    && (s.holder.Some? ==> Fresh(cfg, s, s.holder.value.caller) && HolderPunctual(cfg, s.now, s.holder.value))
    && (forall c :: c in s.waiting ==> Fresh(cfg, s, c))
    && (forall r :: r in s.returned ==> r.acquired <= r.at <= Max(r.acquired + cfg.write, r.caller.deadline))
  }

  lemma StepKeepsPunctual(cfg: Setting, s: State, a: Action)
    requires Punctual(cfg, s) && Enabled(cfg, s, a)
    ensures Punctual(cfg, Next(cfg, s, a))
  {
    var t := Next(cfg, s, a);
    match a
    case Arrive(_, _) =>
    case Acquire =>
      assert s.waiting[0] in s.waiting;
      forall c | c in t.waiting ensures Fresh(cfg, t, c) { assert c in s.waiting; }
    case _ =>
  }

  /** Nobody inside can return later than `limit` says, and nobody has. */
  ghost predicate Within(cfg: Setting, limit: Caller -> int, s: State) {
    && (s.holder.Some? ==> Base(cfg, s) <= limit(s.holder.value.caller))
    && (forall j :: 0 <= j < |s.waiting| ==> Release(cfg, Base(cfg, s), s.waiting, j) <= limit(s.waiting[j]))
    && (forall r :: r in s.returned ==> r.at <= limit(r.caller))
  }

  /** While anyone is inside, the time by which the lock is free only gets earlier. */
  lemma BaseNeverLater(cfg: Setting, s: State, a: Action)
    requires Punctual(cfg, s) && Enabled(cfg, s, a) && !a.Arrive? && !a.Acquire? && Inside(s) > 0
    ensures s.now <= Base(cfg, s) && Base(cfg, Next(cfg, s, a)) <= Base(cfg, s)
  {
  }

  lemma ArriveKeepsWithin(cfg: Setting, limit: Caller -> int, s: State, a: Action)
    requires Within(cfg, limit, s) && Enabled(cfg, s, a) && a.Arrive?
    requires Latest(cfg, s, Newcomer(s, a.deadline, a.msg)) <= limit(Newcomer(s, a.deadline, a.msg))
    ensures Within(cfg, limit, Next(cfg, s, a))
  {
    var t := Next(cfg, s, a);
    forall j | 0 <= j < |s.waiting| ensures Release(cfg, Base(cfg, t), t.waiting, j) <= limit(t.waiting[j]) {
      ReleaseOfMore(cfg, Base(cfg, s), s.waiting, Newcomer(s, a.deadline, a.msg), j);
    }
  }

  lemma AcquireKeepsWithin(cfg: Setting, limit: Caller -> int, s: State)
    requires Within(cfg, limit, s) && Enabled(cfg, s, Acquire)
    ensures Within(cfg, limit, Next(cfg, s, Acquire))
  {
    var t := Next(cfg, s, Acquire);
    assert Base(cfg, t) == Release(cfg, Base(cfg, s), s.waiting, 0);
    forall j | 0 <= j < |t.waiting| ensures Release(cfg, Base(cfg, t), t.waiting, j) <= limit(t.waiting[j]) {
      assert Release(cfg, Base(cfg, s), s.waiting, j + 1) == Release(cfg, Base(cfg, t), t.waiting, j);
    }
  }

  /** Any other step leaves the queue as it is and the base no later. */
  lemma OtherKeepsWithin(cfg: Setting, limit: Caller -> int, s: State, a: Action)
    requires Punctual(cfg, s) && Within(cfg, limit, s) && Enabled(cfg, s, a) && !a.Arrive? && !a.Acquire?
    ensures Within(cfg, limit, Next(cfg, s, a))
  {
    var t := Next(cfg, s, a);
    if Inside(s) > 0 {
      BaseNeverLater(cfg, s, a);
      forall j | 0 <= j < |t.waiting| ensures Release(cfg, Base(cfg, t), t.waiting, j) <= limit(t.waiting[j]) {
        ReleaseMonotone(cfg, Base(cfg, t), Base(cfg, s), s.waiting, j);
      }
    }
  }

  lemma StepKeepsWithin(cfg: Setting, limit: Caller -> int, s: State, a: Action)
    requires Punctual(cfg, s) && Within(cfg, limit, s) && Enabled(cfg, s, a)
    requires a.Arrive? ==> Latest(cfg, s, Newcomer(s, a.deadline, a.msg)) <= limit(Newcomer(s, a.deadline, a.msg))
    ensures Punctual(cfg, Next(cfg, s, a)) && Within(cfg, limit, Next(cfg, s, a))
  {
    StepKeepsPunctual(cfg, s, a);
    match a
    case Arrive(_, _) => ArriveKeepsWithin(cfg, limit, s, a);
    case Acquire => AcquireKeepsWithin(cfg, limit, s);
    case _ => OtherKeepsWithin(cfg, limit, s, a);
  }

  /** What every call is promised. */
  ghost function Promises(cfg: Setting): Caller -> int {
    (c: Caller) => Promise(cfg, c)
  }

  lemma NewcomerIsPromised(cfg: Setting, s: State, c: Caller)
    requires Punctual(cfg, s) && c == Newcomer(s, c.deadline, c.msg) && c.deadline <= s.now + cfg.timeout
    ensures Latest(cfg, s, c) <= Promise(cfg, c)
  {
    var held := if s.holder.Some? then cfg.write else 0;
    var limit := s.now + cfg.timeout + held;
    forall x | x in s.waiting + [c] ensures x.deadline <= limit {
      assert x == c || x in s.waiting;
    }
    ReleaseBounded(cfg, Base(cfg, s), s.waiting + [c], |s.waiting|, limit);
    assert held + (|s.waiting| + 1) * cfg.write == (c.ahead + 1) * cfg.write;
  }

  /** Everyone inside can still keep the promise, and everyone who left did. */
  ghost predicate OnTime(cfg: Setting, s: State) {
    Punctual(cfg, s) && Within(cfg, Promises(cfg), s)
  }

  ghost function Timely(cfg: Setting): State -> bool {
    (s: State) => OnTime(cfg, s)
  }

  lemma StepKeepsTime(cfg: Setting, s: State, a: Action)
    requires OnTime(cfg, s) && Enabled(cfg, s, a)
    ensures OnTime(cfg, Next(cfg, s, a))
  {
    if a.Arrive? { NewcomerIsPromised(cfg, s, Newcomer(s, a.deadline, a.msg)); }
    StepKeepsWithin(cfg, Promises(cfg), s, a);
  }

  lemma SerialKeepsTime(cfg: Setting)
    ensures Keeps(Serial(cfg), Timely(cfg))
  {
    forall s, a | OnTime(cfg, s) && Enabled(cfg, s, a) ensures OnTime(cfg, Next(cfg, s, a)) {
      StepKeepsTime(cfg, s, a);
    }
  }

  lemma RunIsOnTime(cfg: Setting, s0: State, run: seq<Action>)
    requires Initial(s0) && Legal(Serial(cfg), s0, run)
    ensures OnTime(cfg, After(Serial(cfg), s0, run))
  {
    SerialKeepsTime(cfg);
    RunKeeps(Serial(cfg), Timely(cfg), s0, run);
  }

  predicate IsInside(s: State, c: Caller) {
    c in s.waiting || (s.holder.Some? && s.holder.value.caller == c)
  }

  /** The call is back by `limit`, or still inside and the clock not past it. */
  ghost predicate BackBy(s: State, c: Caller, limit: int) {
    && (forall r :: r in s.returned && r.caller == c ==> r.at <= limit)
    && (IsInside(s, c) ==> s.now <= limit)
  }

  lemma WithinIsBackBy(cfg: Setting, limit: Caller -> int, s: State, c: Caller)
    requires Punctual(cfg, s) && Within(cfg, limit, s)
    ensures BackBy(s, c, limit(c))
  {
    if c in s.waiting {
      var j: nat :| j < |s.waiting| && s.waiting[j] == c;
      ReleaseMonotone(cfg, Base(cfg, s), Base(cfg, s), s.waiting, j);
    }
  }

  /** Publish deadline: whatever the broker does and however many calls wait, every
      call returns by its arrival plus the timeout plus the writes up to its own, and
      nobody is still inside after that. With instantaneous writes that is its
      arrival plus the timeout. */
  lemma EveryCallReturnsInTime(cfg: Setting, s0: State, run: seq<Action>, c: Caller)
    requires Initial(s0) && Legal(Serial(cfg), s0, run)
    ensures BackBy(After(Serial(cfg), s0, run), c, Promise(cfg, c))
    ensures cfg.write == 0 ==> BackBy(After(Serial(cfg), s0, run), c, c.arrival + cfg.timeout)
  {
    RunIsOnTime(cfg, s0, run);
    WithinIsBackBy(cfg, Promises(cfg), After(Serial(cfg), s0, run), c);
  }

  // -------------------------------------------------- a call's own deadline

  /** The limits of everyone, except that `c` is to be back by `latest`. */
  ghost function LimitsFor(cfg: Setting, c: Caller, latest: int): Caller -> int {
    (x: Caller) => if x.id == c.id then latest else Promise(cfg, x)
  }

  ghost predicate OnTimeFor(cfg: Setting, c: Caller, latest: int, s: State) {
    c.id < s.arrived && Punctual(cfg, s) && Within(cfg, LimitsFor(cfg, c, latest), s)
  }

  ghost function TimelyFor(cfg: Setting, c: Caller, latest: int): State -> bool {
    (s: State) => OnTimeFor(cfg, c, latest, s)
  }

  lemma StepKeepsTimeFor(cfg: Setting, c: Caller, latest: int, s: State, a: Action)
    requires OnTimeFor(cfg, c, latest, s) && Enabled(cfg, s, a)
    ensures OnTimeFor(cfg, c, latest, Next(cfg, s, a))
  {
    if a.Arrive? { NewcomerIsPromised(cfg, s, Newcomer(s, a.deadline, a.msg)); }
    StepKeepsWithin(cfg, LimitsFor(cfg, c, latest), s, a);
  }

  /** Nobody inside, and nobody back, has the number the next call will get. */
  ghost predicate Numbered(s: State) {
    && (forall x :: x in s.waiting ==> x.id < s.arrived)
    && (s.holder.Some? ==> s.holder.value.caller.id < s.arrived)
    && (forall r :: r in s.returned ==> r.caller.id < s.arrived)
  }

  /** The call that arrives now is on time for the latest return it can have. */
  lemma NewcomerIsOnTime(cfg: Setting, s: State, deadline: int, msg: Message)
    requires OnTime(cfg, s) && Numbered(s) && Enabled(cfg, s, Arrive(deadline, msg))
    ensures var c := Newcomer(s, deadline, msg);
      OnTimeFor(cfg, c, Latest(cfg, s, c), Next(cfg, s, Arrive(deadline, msg)))
  {
    var c := Newcomer(s, deadline, msg);
    var limits := LimitsFor(cfg, c, Latest(cfg, s, c));
    assert Within(cfg, limits, s) by {
      forall j | 0 <= j < |s.waiting| ensures Release(cfg, Base(cfg, s), s.waiting, j) <= limits(s.waiting[j]) {
        assert s.waiting[j] in s.waiting;
      }
    }
    StepKeepsWithin(cfg, limits, s, Arrive(deadline, msg));
  }

  /** No continuation brings the call back later than that. */
  lemma NeverLaterThanLatest(cfg: Setting, s: State, deadline: int, msg: Message, more: seq<Action>)
    requires OnTime(cfg, s) && Numbered(s) && Enabled(cfg, s, Arrive(deadline, msg))
    requires Legal(Serial(cfg), Next(cfg, s, Arrive(deadline, msg)), more)
    ensures var c := Newcomer(s, deadline, msg);
      BackBy(After(Serial(cfg), Next(cfg, s, Arrive(deadline, msg)), more), c, Latest(cfg, s, c))
  {
    var c := Newcomer(s, deadline, msg);
    var latest := Latest(cfg, s, c);
    NewcomerIsOnTime(cfg, s, deadline, msg);
    forall u, a | OnTimeFor(cfg, c, latest, u) && Enabled(cfg, u, a)
      ensures OnTimeFor(cfg, c, latest, Next(cfg, u, a))
    {
      StepKeepsTimeFor(cfg, c, latest, u, a);
    }
    var t := Next(cfg, s, Arrive(deadline, msg));
    RunKeeps(Serial(cfg), TimelyFor(cfg, c, latest), t, more);
    WithinIsBackBy(cfg, LimitsFor(cfg, c, latest), After(Serial(cfg), t, more), c);
  }

  /** The state once the holder has gone at time `at`; the rest of it may differ only
      in what was written. */
  ghost predicate HolderGone(s: State, t: State, at: int) {
    && s.holder.Some? && t.holder.None? && t.now == at && t.waiting == s.waiting
    && |t.returned| == |s.returned| + 1
    && t.returned[|s.returned|].caller == s.holder.value.caller && t.returned[|s.returned|].at == at
  }

  lemma WaiterLeavesLate(cfg: Setting, s: State) returns (run: seq<Action>)
    requires s.holder.Some? && s.holder.value.stage.Written?
    ensures Legal(Serial(cfg), s, run) && HolderGone(s, After(Serial(cfg), s, run), Base(cfg, s))
  {
    var h := s.holder.value;
    if s.now < h.caller.deadline {
      var t := Next(cfg, s, Tick(h.caller.deadline - s.now));
      AfterOne(Serial(cfg), t, Expire);
      Prepend(Serial(cfg), s, Tick(h.caller.deadline - s.now), [Expire]);
      run := [Tick(h.caller.deadline - s.now)] + [Expire];
    } else {
      run := [Expire];
      AfterOne(Serial(cfg), s, Expire);
    }
  }

  /** The holder can stay until the latest time by which it must be gone: a write that
      takes as long as it may, and then no confirm. */
  lemma HolderLeavesLate(cfg: Setting, s: State) returns (run: seq<Action>)
    requires s.holder.Some? && HolderPunctual(cfg, s.now, s.holder.value)
    ensures Legal(Serial(cfg), s, run) && HolderGone(s, After(Serial(cfg), s, run), Base(cfg, s))
  {
    var stage := s.holder.value.stage;
    if stage.Locked? {
      var d := stage.since + cfg.write - s.now;
      var t := Next(cfg, s, Tick(d));
      run := WaiterLeavesLate(cfg, Next(cfg, t, Write(true)));
      Prepend(Serial(cfg), t, Write(true), run);
      Prepend(Serial(cfg), s, Tick(d), [Write(true)] + run);
      run := [Tick(d)] + ([Write(true)] + run);
    } else {
      run := WaiterLeavesLate(cfg, s);
    }
  }

  ghost predicate ReturnedAt(s: State, c: Caller, at: int) {
    exists r :: r in s.returned && r.caller == c && r.at == at
  }

  lemma GoneHasReturned(s: State, t: State, at: int)
    requires HolderGone(s, t, at)
    ensures ReturnedAt(t, s.holder.value.caller, at)
  {
    assert t.returned[|s.returned|] in t.returned;
  }

  /** If everyone ahead stays as long as they may, a waiting call returns as late as it
      can. */
  lemma {:induction false} QueueLeavesLate(cfg: Setting, s: State, j: nat) returns (run: seq<Action>)
    requires s.holder.None? && j < |s.waiting|
    ensures Legal(Serial(cfg), s, run)
    ensures ReturnedAt(After(Serial(cfg), s, run), s.waiting[j], Release(cfg, s.now, s.waiting, j))
    decreases j
  {
    var t := Next(cfg, s, Acquire);
    var first := HolderLeavesLate(cfg, t);
    var u := After(Serial(cfg), t, first);
    GoneHasReturned(t, u, Base(cfg, t));
    run := first;
    if j > 0 {
      var rest := QueueLeavesLate(cfg, u, j - 1);
      AfterConcat(Serial(cfg), t, first, rest);
      run := first + rest;
    }
    Prepend(Serial(cfg), s, Acquire, run);
    run := [Acquire] + run;
  }

  /** The latest time is reached: some continuation brings the call back just then. */
  lemma LatestIsReached(cfg: Setting, s: State, deadline: int, msg: Message) returns (more: seq<Action>)
    requires OnTime(cfg, s) && Enabled(cfg, s, Arrive(deadline, msg))
    ensures Legal(Serial(cfg), Next(cfg, s, Arrive(deadline, msg)), more)
    ensures var c := Newcomer(s, deadline, msg);
      ReturnedAt(After(Serial(cfg), Next(cfg, s, Arrive(deadline, msg)), more), c, Latest(cfg, s, c))
  {
    var t := Next(cfg, s, Arrive(deadline, msg));
    if s.holder.None? {
      more := QueueLeavesLate(cfg, t, |s.waiting|);
    } else {
      var first := HolderLeavesLate(cfg, t);
      var rest := QueueLeavesLate(cfg, After(Serial(cfg), t, first), |s.waiting|);
      AfterConcat(Serial(cfg), t, first, rest);
      more := first + rest;
    }
  }

  /** Whatever happens next, the call is back by its own deadline. */
  ghost predicate MeetsDeadline(cfg: Setting, t: State, c: Caller) {
    forall more :: Legal(Serial(cfg), t, more) ==> BackBy(After(Serial(cfg), t, more), c, c.deadline)
  }

  /** Nobody who is inside when the call arrives has a later deadline. */
  ghost predicate NobodyLater(s: State, deadline: int) {
    && (s.holder.Some? ==> s.holder.value.caller.deadline <= deadline)
    && (forall x :: x in s.waiting ==> x.deadline <= deadline)
  }

  lemma {:induction false} ReleaseAtDeadline(cfg: Setting, base: int, waiting: seq<Caller>, c: Caller)
    requires cfg.write == 0
    ensures Release(cfg, base, waiting + [c], |waiting|) <= c.deadline <==>
      base <= c.deadline && forall x :: x in waiting ==> x.deadline <= c.deadline
    decreases |waiting|
  {
    if waiting != [] {
      assert (waiting + [c])[1..] == waiting[1..] + [c];
      assert forall x :: x in waiting <==> x == waiting[0] || x in waiting[1..];
      ReleaseAtDeadline(cfg, Max(base, waiting[0].deadline), waiting[1..], c);
    }
  }

  lemma LatestAtDeadline(cfg: Setting, s: State, c: Caller)
    requires cfg.write == 0 && Punctual(cfg, s)
    ensures Latest(cfg, s, c) <= c.deadline <==> s.now <= c.deadline && NobodyLater(s, c.deadline)
  {
    ReleaseAtDeadline(cfg, Base(cfg, s), s.waiting, c);
  }

  lemma OrderlyIsNumbered(s: State)
    requires Orderly(s)
    ensures Numbered(s)
  {
    forall x | x in s.waiting ensures x.id < s.arrived {
      var k :| 0 <= k < |s.waiting| && s.waiting[k] == x;
    }
  }

  /** When a call that arrives is sure to be back by its own deadline, whatever the
      broker, the others and later calls do: if and only if the calls inside, taking
      all the time they may, let it be; and if writes take no time, if and only if
      the deadline has not passed and nobody inside has a later one. */
  lemma OwnDeadlineIsMet(cfg: Setting, s0: State, run: seq<Action>, deadline: int, msg: Message)
    requires Initial(s0) && Legal(Serial(cfg), s0, run)
    requires Enabled(cfg, After(Serial(cfg), s0, run), Arrive(deadline, msg))
    ensures var s := After(Serial(cfg), s0, run);
      var c := Newcomer(s, deadline, msg);
      var meets := MeetsDeadline(cfg, Next(cfg, s, Arrive(deadline, msg)), c);
      && (meets <==> Latest(cfg, s, c) <= deadline)
      && (cfg.write == 0 ==> (meets <==> s.now <= deadline && NobodyLater(s, deadline)))
  {
    var s := After(Serial(cfg), s0, run);
    var c := Newcomer(s, deadline, msg);
    var t := Next(cfg, s, Arrive(deadline, msg));
    RunIsOnTime(cfg, s0, run);
    RunIsOrderly(cfg, s0, run);
    OrderlyIsNumbered(s);
    if Latest(cfg, s, c) <= deadline {
      forall more | Legal(Serial(cfg), t, more) ensures BackBy(After(Serial(cfg), t, more), c, deadline) {
        NeverLaterThanLatest(cfg, s, deadline, msg, more);
      }
    } else {
      var more := LatestIsReached(cfg, s, deadline, msg);
      assert !BackBy(After(Serial(cfg), t, more), c, deadline);
    }
    if cfg.write == 0 { LatestAtDeadline(cfg, s, c); }
  }

  // ----------------------------------------------------- when the lock comes

  /** Latest time by which the caller at position `j` can get the lock, if it is free at
      `base`. */
  function Turn(cfg: Setting, base: int, waiting: seq<Caller>, j: nat): int
    requires j < |waiting|
  {
    if j == 0 then base else Release(cfg, base, waiting, j - 1)
  }

  /** The latest time at which a call that arrives now can get the lock. */
  function LatestTurn(cfg: Setting, s: State, c: Caller): int {
    Turn(cfg, Base(cfg, s), s.waiting + [c], |s.waiting|)
  }

  lemma TurnMonotone(cfg: Setting, base: int, base': int, waiting: seq<Caller>, j: nat)
    requires j < |waiting| && base <= base'
    ensures base <= Turn(cfg, base, waiting, j) <= Turn(cfg, base', waiting, j)
  {
    if j > 0 { ReleaseMonotone(cfg, base, base', waiting, j - 1); }
  }

  lemma TurnOfMore(cfg: Setting, base: int, waiting: seq<Caller>, c: Caller, j: nat)
    requires j < |waiting|
    ensures Turn(cfg, base, waiting + [c], j) == Turn(cfg, base, waiting, j)
  {
    if j > 0 { ReleaseOfMore(cfg, base, waiting, c, j - 1); }
  }

  /** Once the first in line has the lock, the turns of the others count from its end. */
  lemma TurnOfRest(cfg: Setting, base: int, waiting: seq<Caller>, j: nat)
    requires j + 1 < |waiting|
    ensures Turn(cfg, base, waiting, j + 1) == Turn(cfg, Max(base + cfg.write, waiting[0].deadline), waiting[1..], j)
  {
  }

  /** Nobody gets the lock later than `limit` says, and nobody has. */
  ghost predicate LockWithin(cfg: Setting, limit: Caller -> int, s: State) {
    && (s.holder.Some? ==> s.holder.value.stage.since <= limit(s.holder.value.caller))
    && (forall j :: 0 <= j < |s.waiting| ==> Turn(cfg, Base(cfg, s), s.waiting, j) <= limit(s.waiting[j]))
    && (forall r :: r in s.returned ==> r.acquired <= limit(r.caller))
  }

  lemma ArriveKeepsLock(cfg: Setting, limit: Caller -> int, s: State, a: Action)
    requires LockWithin(cfg, limit, s) && Enabled(cfg, s, a) && a.Arrive?
    requires LatestTurn(cfg, s, Newcomer(s, a.deadline, a.msg)) <= limit(Newcomer(s, a.deadline, a.msg))
    ensures LockWithin(cfg, limit, Next(cfg, s, a))
  {
    var t := Next(cfg, s, a);
    forall j | 0 <= j < |s.waiting| ensures Turn(cfg, Base(cfg, t), t.waiting, j) <= limit(t.waiting[j]) {
      TurnOfMore(cfg, Base(cfg, s), s.waiting, Newcomer(s, a.deadline, a.msg), j);
    }
  }

  lemma AcquireKeepsLock(cfg: Setting, limit: Caller -> int, s: State)
    requires LockWithin(cfg, limit, s) && Enabled(cfg, s, Acquire)
    ensures LockWithin(cfg, limit, Next(cfg, s, Acquire))
  {
    var t := Next(cfg, s, Acquire);
    assert Turn(cfg, Base(cfg, s), s.waiting, 0) == s.now;
    forall j | 0 <= j < |t.waiting| ensures Turn(cfg, Base(cfg, t), t.waiting, j) <= limit(t.waiting[j]) {
      TurnOfRest(cfg, Base(cfg, s), s.waiting, j);
      assert Turn(cfg, Base(cfg, s), s.waiting, j + 1) <= limit(s.waiting[j + 1]);
    }
  }

  lemma OtherKeepsLock(cfg: Setting, limit: Caller -> int, s: State, a: Action)
    requires Punctual(cfg, s) && LockWithin(cfg, limit, s) && Enabled(cfg, s, a) && !a.Arrive? && !a.Acquire?
    ensures LockWithin(cfg, limit, Next(cfg, s, a))
  {
    var t := Next(cfg, s, a);
    if Inside(s) > 0 {
      BaseNeverLater(cfg, s, a);
      forall j | 0 <= j < |t.waiting| ensures Turn(cfg, Base(cfg, t), t.waiting, j) <= limit(t.waiting[j]) {
        TurnMonotone(cfg, Base(cfg, t), Base(cfg, s), s.waiting, j);
      }
    }
  }

  lemma NewcomerTurn(cfg: Setting, s: State, c: Caller)
    requires Punctual(cfg, s) && c == Newcomer(s, c.deadline, c.msg) && c.deadline <= s.now + cfg.timeout
    ensures LatestTurn(cfg, s, c) <= Latest(cfg, s, c) <= Promise(cfg, c)
  {
    NewcomerIsPromised(cfg, s, c);
    TurnBeforeRelease(cfg, Base(cfg, s), s.waiting + [c], |s.waiting|);
  }

  lemma {:induction false} TurnBeforeRelease(cfg: Setting, base: int, waiting: seq<Caller>, j: nat)
    requires j < |waiting|
    ensures Turn(cfg, base, waiting, j) <= Release(cfg, base, waiting, j)
    decreases j
  {
    if j > 0 {
      TurnOfRest(cfg, base, waiting, j - 1);
      TurnBeforeRelease(cfg, Max(base + cfg.write, waiting[0].deadline), waiting[1..], j - 1);
    }
  }

  ghost predicate LockOnTimeFor(cfg: Setting, c: Caller, latest: int, s: State) {
    c.id < s.arrived && Punctual(cfg, s) && LockWithin(cfg, LimitsFor(cfg, c, latest), s)
  }

  ghost function LockTimelyFor(cfg: Setting, c: Caller, latest: int): State -> bool {
    (s: State) => LockOnTimeFor(cfg, c, latest, s)
  }

  lemma StepKeepsLock(cfg: Setting, c: Caller, latest: int, s: State, a: Action)
    requires LockOnTimeFor(cfg, c, latest, s) && Enabled(cfg, s, a)
    ensures LockOnTimeFor(cfg, c, latest, Next(cfg, s, a))
  {
    StepKeepsPunctual(cfg, s, a);
    match a
    case Arrive(deadline, msg) =>
      NewcomerTurn(cfg, s, Newcomer(s, deadline, msg));
      ArriveKeepsLock(cfg, LimitsFor(cfg, c, latest), s, a);
    case Acquire => AcquireKeepsLock(cfg, LimitsFor(cfg, c, latest), s);
    case _ => OtherKeepsLock(cfg, LimitsFor(cfg, c, latest), s, a);
  }

  /** Whoever keeps the promise of the return keeps it of the lock. */
  lemma OnTimeGivesLock(cfg: Setting, c: Caller, latest: int, s: State)
    requires OnTime(cfg, s) && Numbered(s) && c.id == s.arrived
    ensures LockWithin(cfg, LimitsFor(cfg, c, latest), s)
  {
    forall j | 0 <= j < |s.waiting|
      ensures Turn(cfg, Base(cfg, s), s.waiting, j) <= LimitsFor(cfg, c, latest)(s.waiting[j])
    {
      assert s.waiting[j] in s.waiting;
      TurnBeforeRelease(cfg, Base(cfg, s), s.waiting, j);
    }
  }

  /** The call has the lock, or had it, by `limit`, or the clock is not past that. */
  ghost predicate LockBy(s: State, c: Caller, limit: int) {
    && (s.holder.Some? && s.holder.value.caller == c ==> s.holder.value.stage.since <= limit)
    && (forall r :: r in s.returned && r.caller == c ==> r.acquired <= limit)
    && (c in s.waiting ==> s.now <= limit)
  }

  lemma LockWithinIsLockBy(cfg: Setting, limit: Caller -> int, s: State, c: Caller)
    requires Punctual(cfg, s) && LockWithin(cfg, limit, s)
    ensures LockBy(s, c, limit(c))
  {
    if c in s.waiting {
      var j: nat :| j < |s.waiting| && s.waiting[j] == c;
      TurnMonotone(cfg, Base(cfg, s), Base(cfg, s), s.waiting, j);
    }
  }

  /** No continuation gives the call the lock later than that. */
  lemma NeverLaterThanTurn(cfg: Setting, s: State, deadline: int, msg: Message, more: seq<Action>)
    requires OnTime(cfg, s) && Numbered(s) && Enabled(cfg, s, Arrive(deadline, msg))
    requires Legal(Serial(cfg), Next(cfg, s, Arrive(deadline, msg)), more)
    ensures var c := Newcomer(s, deadline, msg);
      LockBy(After(Serial(cfg), Next(cfg, s, Arrive(deadline, msg)), more), c, LatestTurn(cfg, s, c))
  {
    var c := Newcomer(s, deadline, msg);
    var latest := LatestTurn(cfg, s, c);
    var t := Next(cfg, s, Arrive(deadline, msg));
    OnTimeGivesLock(cfg, c, latest, s);
    StepKeepsPunctual(cfg, s, Arrive(deadline, msg));
    ArriveKeepsLock(cfg, LimitsFor(cfg, c, latest), s, Arrive(deadline, msg));
    forall u, a | LockOnTimeFor(cfg, c, latest, u) && Enabled(cfg, u, a)
      ensures LockOnTimeFor(cfg, c, latest, Next(cfg, u, a))
    {
      StepKeepsLock(cfg, c, latest, u, a);
    }
    RunKeeps(Serial(cfg), LockTimelyFor(cfg, c, latest), t, more);
    LockWithinIsLockBy(cfg, LimitsFor(cfg, c, latest), After(Serial(cfg), t, more), c);
  }

  ghost predicate LockedAt(s: State, c: Caller, at: int) {
    s.holder == Some(Holder(c, Locked(at)))
  }

  /** If everyone ahead stays as long as they may, a waiting call gets the lock as late
      as it can. */
  lemma {:induction false} QueueLocksLate(cfg: Setting, s: State, j: nat) returns (run: seq<Action>)
    requires s.holder.None? && j < |s.waiting|
    ensures Legal(Serial(cfg), s, run)
    ensures LockedAt(After(Serial(cfg), s, run), s.waiting[j], Turn(cfg, s.now, s.waiting, j))
    decreases j
  {
    var t := Next(cfg, s, Acquire);
    if j == 0 {
      run := [Acquire];
      AfterOne(Serial(cfg), s, Acquire);
    } else {
      var first := HolderLeavesLate(cfg, t);
      var rest := QueueLocksLate(cfg, After(Serial(cfg), t, first), j - 1);
      TurnOfRest(cfg, s.now, s.waiting, j - 1);
      AfterConcat(Serial(cfg), t, first, rest);
      Prepend(Serial(cfg), s, Acquire, first + rest);
      run := [Acquire] + (first + rest);
    }
  }

  /** The latest turn is reached: some continuation gives the call the lock just then. */
  lemma TurnIsReached(cfg: Setting, s: State, deadline: int, msg: Message) returns (more: seq<Action>)
    requires OnTime(cfg, s) && Enabled(cfg, s, Arrive(deadline, msg))
    ensures Legal(Serial(cfg), Next(cfg, s, Arrive(deadline, msg)), more)
    ensures var c := Newcomer(s, deadline, msg);
      LockedAt(After(Serial(cfg), Next(cfg, s, Arrive(deadline, msg)), more), c, LatestTurn(cfg, s, c))
  {
    var t := Next(cfg, s, Arrive(deadline, msg));
    if s.holder.None? {
      more := QueueLocksLate(cfg, t, |s.waiting|);
    } else {
      var first := HolderLeavesLate(cfg, t);
      var rest := QueueLocksLate(cfg, After(Serial(cfg), t, first), |s.waiting|);
      AfterConcat(Serial(cfg), t, first, rest);
      more := first + rest;
    }
  }

  // ------------------------------------------------- bulk before transactional

  function NotBulk(calls: seq<Caller>): (r: seq<Caller>)
    ensures forall x :: x in r <==> x in calls && x.msg.priority != BULK
  {
    if calls == [] then [] else (if calls[0].msg.priority == BULK then [] else [calls[0]]) + NotBulk(calls[1..])
  }

  /** The same publisher with no bulk call inside. */
  function WithoutBulk(s: State): State {
    var held := s.holder.Some? && s.holder.value.caller.msg.priority == BULK;
    s.(holder := if held then None else s.holder, waiting := NotBulk(s.waiting))
  }

  /** The latest time at which the call could get the lock if no bulk call were inside. */
  function Free(cfg: Setting, s: State, c: Caller): int {
    LatestTurn(cfg, WithoutBulk(s), c)
  }

  /** Whatever happens next, the call gets the lock by `limit`. */
  ghost predicate SureOfLock(cfg: Setting, t: State, c: Caller, limit: int) {
    forall more :: Legal(Serial(cfg), t, more) ==> LockBy(After(Serial(cfg), t, more), c, limit)
  }

  /** With instantaneous writes a turn is the latest of the base and the deadlines ahead. */
  lemma {:induction false} TurnIsMaximum(cfg: Setting, base: int, waiting: seq<Caller>, c: Caller)
    requires cfg.write == 0
    ensures var turn := Turn(cfg, base, waiting + [c], |waiting|);
      && base <= turn && (forall x :: x in waiting ==> x.deadline <= turn)
      && (turn == base || exists x :: x in waiting && x.deadline == turn)
    decreases |waiting|
  {
    if waiting != [] {
      var first := Max(base, waiting[0].deadline);
      assert (waiting + [c])[1..] == waiting[1..] + [c];
      assert forall x :: x in waiting <==> x == waiting[0] || x in waiting[1..];
      TurnOfRest(cfg, base, waiting + [c], |waiting| - 1);
      TurnIsMaximum(cfg, first, waiting[1..], c);
    }
  }

  /** For any write time, a turn is not before the base and the deadlines ahead. */
  lemma {:induction false} TurnAfterOthers(cfg: Setting, base: int, waiting: seq<Caller>, c: Caller)
    ensures var turn := Turn(cfg, base, waiting + [c], |waiting|);
      base <= turn && forall x :: x in waiting ==> x.deadline <= turn
    decreases |waiting|
  {
    if waiting != [] {
      assert (waiting + [c])[1..] == waiting[1..] + [c];
      assert forall x :: x in waiting <==> x == waiting[0] || x in waiting[1..];
      TurnOfRest(cfg, base, waiting + [c], |waiting| - 1);
      TurnAfterOthers(cfg, Max(base + cfg.write, waiting[0].deadline), waiting[1..], c);
    }
  }

  ghost predicate BulkLater(s: State, limit: int) {
    exists x :: IsInside(s, x) && x.msg.priority == BULK && x.deadline > limit
  }

  /** `Free` with instantaneous writes: the time of arrival or the latest deadline of a
      call inside that is not bulk. */
  lemma FreeIsMaximum(cfg: Setting, s: State, c: Caller)
    requires cfg.write == 0 && Punctual(cfg, s)
    ensures var free := Free(cfg, s, c);
      && s.now <= free && (forall x :: IsInside(s, x) && x.msg.priority != BULK ==> x.deadline <= free)
      && (free == s.now || exists x :: IsInside(s, x) && x.msg.priority != BULK && x.deadline == free)
  {
    var u := WithoutBulk(s);
    TurnIsMaximum(cfg, Base(cfg, u), u.waiting, c);
  }

  lemma TurnPastFree(cfg: Setting, s: State, c: Caller)
    requires Punctual(cfg, s)
    ensures BulkLater(s, Free(cfg, s, c)) ==> LatestTurn(cfg, s, c) > Free(cfg, s, c)
    ensures cfg.write == 0 && LatestTurn(cfg, s, c) > Free(cfg, s, c) ==> BulkLater(s, Free(cfg, s, c))
  {
    TurnAfterOthers(cfg, Base(cfg, s), s.waiting, c);
    if cfg.write == 0 {
      TurnIsMaximum(cfg, Base(cfg, s), s.waiting, c);
      FreeIsMaximum(cfg, s, c);
    }
  }

  /** One lock serves both priorities. A call that arrives is sure to get the lock as
      soon as it would among the other calls alone, if and only if the bulk calls
      inside, taking all the time they may, let it; a bulk call inside with a deadline
      later than that is always one that need not; and if writes take no time, there is
      no other way to be late. */
  lemma BulkCanDelayTransactional(cfg: Setting, s0: State, run: seq<Action>, deadline: int, msg: Message)
    requires Initial(s0) && Legal(Serial(cfg), s0, run)
    requires Enabled(cfg, After(Serial(cfg), s0, run), Arrive(deadline, msg))
    ensures var s := After(Serial(cfg), s0, run);
      var c := Newcomer(s, deadline, msg);
      var free := Free(cfg, s, c);
      var sure := SureOfLock(cfg, Next(cfg, s, Arrive(deadline, msg)), c, free);
      && (sure <==> LatestTurn(cfg, s, c) <= free)
      && (BulkLater(s, free) ==> !sure)
      && (cfg.write == 0 ==> (sure <==> !BulkLater(s, free)))
  {
    var s := After(Serial(cfg), s0, run);
    var c := Newcomer(s, deadline, msg);
    var t := Next(cfg, s, Arrive(deadline, msg));
    var free := Free(cfg, s, c);
    RunIsOnTime(cfg, s0, run);
    RunIsOrderly(cfg, s0, run);
    OrderlyIsNumbered(s);
    if LatestTurn(cfg, s, c) <= free {
      forall more | Legal(Serial(cfg), t, more) ensures LockBy(After(Serial(cfg), t, more), c, free) {
        NeverLaterThanTurn(cfg, s, deadline, msg, more);
      }
    } else {
      var more := TurnIsReached(cfg, s, deadline, msg);
      assert !LockBy(After(Serial(cfg), t, more), c, free);
    }
    TurnPastFree(cfg, s, c);
  }

  /** With a timeout of 5 and instantaneous writes: a call that times out at the
      broker, while another one, whose own deadline has passed, waits behind it. */
  function TimedOut(t: int, a: Message, b: Message): State {
    var first := Caller(0, t, t + 5, 0, a);
    State(t + 5, [Caller(1, t, t + 1, 1, b)], None, [first], map[], [Return(first, t, t + 5, Abandoned(0))], 2)
  }

  /** Both calls just arrived. */
  function BothWait(t: int, a: Message, b: Message): State {
    State(t, [Caller(0, t, t + 5, 0, a), Caller(1, t, t + 1, 1, b)], None, [], map[], [], 2)
  }

  lemma BothArrive(s0: State, a: Message, b: Message)
    requires Initial(s0)
    ensures var run := [Arrive(s0.now + 5, a)] + [Arrive(s0.now + 1, b)];
      Legal(Serial(Setting(5, 0)), s0, run) && After(Serial(Setting(5, 0)), s0, run) == BothWait(s0.now, a, b)
  {
    var cfg, t := Setting(5, 0), s0.now;
    var s1 := Next(cfg, s0, Arrive(t + 5, a));
    AfterOne(Serial(cfg), s1, Arrive(t + 1, b));
    Prepend(Serial(cfg), s0, Arrive(t + 5, a), [Arrive(t + 1, b)]);
  }

  lemma FirstWaitsInVain(t: int, a: Message, b: Message)
    ensures var run := [Acquire] + ([Write(true)] + ([Tick(5)] + [Expire]));
      && Legal(Serial(Setting(5, 0)), BothWait(t, a, b), run)
      && After(Serial(Setting(5, 0)), BothWait(t, a, b), run) == TimedOut(t, a, b)
  {
    var cfg, s2 := Setting(5, 0), BothWait(t, a, b);
    var s3 := Next(cfg, s2, Acquire);
    var s4 := Next(cfg, s3, Write(true));
    var s5 := Next(cfg, s4, Tick(5));
    AfterOne(Serial(cfg), s5, Expire);
    Prepend(Serial(cfg), s4, Tick(5), [Expire]);
    Prepend(Serial(cfg), s3, Write(true), [Tick(5)] + [Expire]);
    Prepend(Serial(cfg), s2, Acquire, [Write(true)] + ([Tick(5)] + [Expire]));
  }

  lemma FirstTimesOut(s0: State, a: Message, b: Message) returns (run: seq<Action>)
    requires Initial(s0)
    ensures run == [Arrive(s0.now + 5, a), Arrive(s0.now + 1, b), Acquire, Write(true), Tick(5), Expire]
    ensures Legal(Serial(Setting(5, 0)), s0, run) && After(Serial(Setting(5, 0)), s0, run) == TimedOut(s0.now, a, b)
  {
    BothArrive(s0, a, b);
    FirstWaitsInVain(s0.now, a, b);
    var arrivals := [Arrive(s0.now + 5, a)] + [Arrive(s0.now + 1, b)];
    var wait := [Acquire] + ([Write(true)] + ([Tick(5)] + [Expire]));
    AfterConcat(Serial(Setting(5, 0)), s0, arrivals, wait);
    run := arrivals + wait;
  }

  lemma SecondStillSucceeds(t: int, a: Message, b: Message) returns (run: seq<Action>)
    ensures Legal(Serial(Setting(5, 0)), TimedOut(t, a, b), run)
    ensures var s := After(Serial(Setting(5, 0)), TimedOut(t, a, b), run);
      |s.returned| == 2 && s.returned[1] == Return(Caller(1, t, t + 1, 1, b), t + 5, t + 5, Confirmed(1))
  {
    var cfg, s6 := Setting(5, 0), TimedOut(t, a, b);
    var s7 := Next(cfg, s6, Acquire);
    var s8 := Next(cfg, s7, Write(true));
    var s9 := Next(cfg, s8, Answer(1, true));
    run := [Finish];
    AfterOne(Serial(cfg), s9, Finish);
    Prepend(Serial(cfg), s8, Answer(1, true), run);
    run := [Answer(1, true)] + run;
    Prepend(Serial(cfg), s7, Write(true), run);
    run := [Write(true)] + run;
    Prepend(Serial(cfg), s6, Acquire, run);
    run := [Acquire] + run;
  }

  /** So queued publishes need not fail fast: a call whose own deadline passes while
      it queues is still written, and may succeed after its deadline. */
  lemma OwnDeadlineCanPass(s0: State, a: Message, b: Message) returns (run: seq<Action>)
    requires Initial(s0)
    ensures Legal(Serial(Setting(5, 0)), s0, run)
    ensures var s := After(Serial(Setting(5, 0)), s0, run);
      |s.returned| == 2 && s.returned[1].caller.msg == b && s.returned[1].outcome.Confirmed?
      && s.returned[1].at > s.returned[1].caller.deadline
  {
    var first := FirstTimesOut(s0, a, b);
    var second := SecondStillSucceeds(s0.now, a, b);
    AfterConcat(Serial(Setting(5, 0)), s0, first, second);
    run := first + second;
  }

  /** A run in which this happens: a bulk call arrives first, a transactional one right
      behind it; alone it would have the lock at once, but it gets it only when the
      bulk call's deadline has passed, and so has its own. */
  lemma BulkHoldsTheLock(s0: State, bulk: Message, msg: Message) returns (run: seq<Action>)
    requires Initial(s0) && bulk.priority == BULK && msg.priority == TRANSACTIONAL
    ensures Legal(Serial(Setting(5, 0)), s0, run) && |run| >= 2
    ensures run[0] == Arrive(s0.now + 5, bulk) && run[1] == Arrive(s0.now + 1, msg)
    ensures var s1 := Next(Setting(5, 0), s0, run[0]);
      var c := Newcomer(s1, s0.now + 1, msg);
      Free(Setting(5, 0), s1, c) == s0.now && LockedAt(After(Serial(Setting(5, 0)), s0, run), c, s0.now + 5)
  {
    var cfg := Setting(5, 0);
    var first := FirstTimesOut(s0, bulk, msg);
    AfterOne(Serial(cfg), TimedOut(s0.now, bulk, msg), Acquire);
    AfterConcat(Serial(cfg), s0, first, [Acquire]);
    run := first + [Acquire];
    var s1 := Next(cfg, s0, run[0]);
    assert NotBulk(s1.waiting) == [];
  }

  /** While anyone is inside, someone can move or time can pass. */
  lemma NeverStuck(cfg: Setting, s: State)
    requires OnTime(cfg, s) && Inside(s) > 0
    ensures exists a :: Enabled(cfg, s, a) && (a == Acquire || a.Write? || a == Expire || (a.Tick? && a.d > 0))
  {
    if s.holder.None? {
      assert Enabled(cfg, s, Acquire);
    } else if s.holder.value.stage.Locked? {
      assert Enabled(cfg, s, Write(true));
    } else if s.holder.value.caller.deadline <= s.now {
      assert Enabled(cfg, s, Expire);
    } else {
      assert Enabled(cfg, s, Tick(1));
    }
  }

  // ------------------------------------------------------------- attribution

  /** How many calls have got the lock so far. */
  function Served(s: State): int {
    s.arrived - |s.waiting|
  }

  ghost predicate Settled(s: State, r: Return) {
    match r.outcome
    case WriteFailed => true
    case Confirmed(tag) => tag < |s.sent| && s.sent[tag] == r.caller && tag in s.answers && s.answers[tag]
    case Nacked(tag) => tag < |s.sent| && s.sent[tag] == r.caller && tag in s.answers && !s.answers[tag]
    case Abandoned(tag) => tag < |s.sent| && s.sent[tag] == r.caller
  }

  /** Calls wait, write and return in the order they arrived, and each knows the
      number of its own write. */
  ghost predicate Orderly(s: State) {
    && 0 <= Served(s)
    && (forall k :: 0 <= k < |s.waiting| ==> s.waiting[k].id == Served(s) + k)
    && (forall t, u :: 0 <= t < u < |s.sent| ==> s.sent[t].id < s.sent[u].id)
    && (forall t :: 0 <= t < |s.sent| ==> s.sent[t].id < Served(s))
    && (forall t :: t in s.answers ==> t < |s.sent|)
    && (forall i, j :: 0 <= i < j < |s.returned| ==> s.returned[i].caller.id < s.returned[j].caller.id)
    && (forall i :: 0 <= i < |s.returned| ==> s.returned[i].caller.id < Served(s) && Settled(s, s.returned[i]))
    && (s.holder.Some? ==>
          var h := s.holder.value;
          && h.caller.id == Served(s) - 1
          && (forall i :: 0 <= i < |s.returned| ==> s.returned[i].caller.id < h.caller.id)
          && (h.stage.Locked? ==> forall t :: 0 <= t < |s.sent| ==> s.sent[t].id < h.caller.id)
          && (h.stage.Written? ==> h.stage.tag == |s.sent| - 1 && s.sent[h.stage.tag] == h.caller))
  }

  ghost function InOrder(): State -> bool {
    (s: State) => Orderly(s)
  }

  lemma LeavingKeepsOrder(s: State, outcome: Outcome)
    requires Orderly(s) && s.holder.Some?
    requires Settled(s, Return(s.holder.value.caller, s.holder.value.stage.since, s.now, outcome))
    ensures Orderly(Leave(s, outcome))
  {
    var t := Leave(s, outcome);
    forall i | 0 <= i < |t.returned| ensures Settled(t, t.returned[i]) {
      if i < |s.returned| { assert Settled(s, s.returned[i]); }
    }
  }

  lemma StayingKeepsSettled(cfg: Setting, s: State, a: Action)
    requires Orderly(s) && Enabled(cfg, s, a) && Next(cfg, s, a).returned == s.returned
    ensures forall i :: 0 <= i < |s.returned| ==> Settled(Next(cfg, s, a), s.returned[i])
  {
    forall i | 0 <= i < |s.returned| ensures Settled(Next(cfg, s, a), s.returned[i]) {
      assert Settled(s, s.returned[i]);
    }
  }

  lemma ArriveKeepsOrder(cfg: Setting, s: State, a: Action)
    requires Orderly(s) && Enabled(cfg, s, a) && a.Arrive?
    ensures Orderly(Next(cfg, s, a))
  {
    StayingKeepsSettled(cfg, s, a);
  }

  lemma AcquireKeepsOrder(cfg: Setting, s: State)
    requires Orderly(s) && Enabled(cfg, s, Acquire)
    ensures Orderly(Next(cfg, s, Acquire))
  {
    StayingKeepsSettled(cfg, s, Acquire);
  }

  lemma WriteKeepsOrder(cfg: Setting, s: State)
    requires Orderly(s) && Enabled(cfg, s, Write(true))
    ensures Orderly(Next(cfg, s, Write(true)))
  {
    StayingKeepsSettled(cfg, s, Write(true));
  }

  lemma StepKeepsOrder(cfg: Setting, s: State, a: Action)
    requires Orderly(s) && Enabled(cfg, s, a)
    ensures Orderly(Next(cfg, s, a))
  {
    match a
    case Arrive(_, _) => ArriveKeepsOrder(cfg, s, a);
    case Acquire => AcquireKeepsOrder(cfg, s);
    case Write(ok) =>
      if ok { WriteKeepsOrder(cfg, s); } else { LeavingKeepsOrder(s, WriteFailed); }
    case Answer(_, _) => StayingKeepsSettled(cfg, s, a);
    case Tick(_) => StayingKeepsSettled(cfg, s, a);
    case _ => LeavingKeepsOrder(s, Next(cfg, s, a).returned[|s.returned|].outcome);
  }

  lemma RunIsOrderly(cfg: Setting, s0: State, run: seq<Action>)
    requires Initial(s0) && Legal(Serial(cfg), s0, run)
    ensures Orderly(After(Serial(cfg), s0, run))
  {
    forall s, a | Orderly(s) && Enabled(cfg, s, a) ensures Orderly(Next(cfg, s, a)) {
      StepKeepsOrder(cfg, s, a);
    }
    RunKeeps(Serial(cfg), InOrder(), s0, run);
  }

  /** Confirm attribution: a call that reports success had its own message confirmed,
      no two calls share a number, and calls write and return in order of arrival. So
      a confirm that comes late, for a call that gave up, is never another's. */
  lemma ConfirmsAreOwn(cfg: Setting, s0: State, run: seq<Action>, i: nat)
    requires Initial(s0) && Legal(Serial(cfg), s0, run)
    requires i < |After(Serial(cfg), s0, run).returned| && After(Serial(cfg), s0, run).returned[i].outcome.Confirmed?
    ensures var s := After(Serial(cfg), s0, run);
      var tag := s.returned[i].outcome.tag;
      && tag < |s.sent| && s.sent[tag] == s.returned[i].caller && tag in s.answers && s.answers[tag]
      && (forall u :: 0 <= u < |s.sent| && s.sent[u].id == s.returned[i].caller.id ==> u == tag)
      && (forall j :: 0 <= j < |s.returned| && j != i ==> s.returned[j].caller.id != s.returned[i].caller.id)
      && (forall j :: 0 <= j < |s.returned| && j != i && !s.returned[j].outcome.WriteFailed? ==>
            s.returned[j].outcome.tag != tag)
  {
    RunIsOrderly(cfg, s0, run);
    var s := After(Serial(cfg), s0, run);
    assert Settled(s, s.returned[i]);
    forall j | 0 <= j < |s.returned| && j != i
      ensures s.returned[j].caller.id != s.returned[i].caller.id
      ensures !s.returned[j].outcome.WriteFailed? ==> s.returned[j].outcome.tag != s.returned[i].outcome.tag
    {
      assert Settled(s, s.returned[j]);
    }
  }

  // --------------------------------------------------------------- the publisher

  /** The publisher as its callers use it. `trace` is everything that has happened
      since `start`: the steps of all calls, of the broker, and of time. `others` is
      what everyone else tries to do, each time a call waits, and may be anything. */
  class Publisher {
    const setting: Setting
    ghost const start: State
    ghost var trace: seq<Action>
    var world: State
    var others: seq<seq<Action>>

    constructor (setting: Setting, now: int, others: seq<seq<Action>>)
      ensures Valid() && this.setting == setting && this.others == others
      ensures trace == [] && world == State(now, [], None, [], map[], [], 0)
    {
      this.setting, this.others := setting, others;
      start, trace, world := State(now, [], None, [], map[], [], 0), [], State(now, [], None, [], map[], [], 0);
    }

    ghost predicate Valid()
      reads this
    {
      Initial(start) && Legal(Serial(setting), start, trace) && world == After(Serial(setting), start, trace)
    }

    method Do(a: Action)
      requires Valid() && Enabled(setting, world, a)
      modifies this`world, this`trace
      ensures Valid() && trace == old(trace) + [a] && world == Next(setting, old(world), a)
    {
      AfterOne(Serial(setting), world, a);
      AfterConcat(Serial(setting), start, trace, [a]);
      trace := trace + [a];
      world := Next(setting, world, a);
    }

    method NextMoves() returns (moves: seq<Action>)
      modifies this`others
      ensures if old(others) == [] then moves == [] && others == [] else old(others) == [moves] + others
    {
      moves := [];
      if others != [] {
        moves, others := others[0], others[1..];
      }
    }

    /** Waits for the lock: the others act as they will, and those ahead return in
        the end, until the call is first in line and the lock is free. There is
        nothing to wait for if it is so already and nobody else acts. */
    method Lock(c: Caller)
      requires Valid() && c in world.waiting
      modifies this
      ensures Valid() && old(trace) <= trace
      ensures world.holder.None? && world.waiting != [] && world.waiting[0] == c
      ensures old(others) == [] && old(world).holder.None? && old(world).waiting[0] == c ==>
        world == old(world) && others == []
    {
      var moves := NextMoves();
      for n := 0 to |moves|
        invariant Valid() && old(trace) <= trace && c in world.waiting
        invariant old(others) == [] ==> world == old(world) && others == []
      {
        if Enabled(setting, world, moves[n]) && (moves[n] == Acquire ==> world.waiting[0] != c) {
          Do(moves[n]);
        }
      }
      while world.holder.Some? || world.waiting[0] != c
        invariant Valid() && old(trace) <= trace && c in world.waiting
        invariant old(others) == [] && old(world).holder.None? && old(world).waiting[0] == c ==>
          world == old(world) && others == []
        decreases |world.waiting|, if world.holder.Some? then 1 else 0
      {
        if world.holder.Some? {
          if world.holder.value.stage.Locked? { Do(Write(false)); } else { Do(Cancel); }
        } else {
          Do(Acquire);
        }
      }
    }

    /** Steps of others while a call holds the lock. */
    predicate Outside(a: Action) {
      a.Arrive? || a.Answer? || a.Tick?
    }

    /** Calls arrive, the broker answers and time passes while the lock is held. */
    method Meanwhile(h: Holder)
      requires Valid() && world.holder == Some(h)
      modifies this
      ensures Valid() && old(trace) <= trace && world.holder == Some(h)
      ensures old(others) == [] ==> world == old(world) && others == []
    {
      var moves := NextMoves();
      for n := 0 to |moves|
        invariant Valid() && old(trace) <= trace && world.holder == Some(h)
        invariant old(others) == [] ==> world == old(world) && others == []
      {
        if Enabled(setting, world, moves[n]) && Outside(moves[n]) {
          Do(moves[n]);
        }
      }
    }

    /** Waits for the confirm of the holder's write, for its deadline, or until its
        caller gives up, while the others act as they will; time passes if nothing
        else does, and then only up to the deadline. */
    method WaitConfirm(h: Holder, cancelled: bool)
      requires Valid() && world.holder == Some(h) && h.stage.Written?
      modifies this
      ensures Valid() && old(trace) <= trace && world.holder == Some(h)
      ensures cancelled || h.stage.tag in world.answers || h.caller.deadline <= world.now
      ensures old(others) == [] ==>
        var over := cancelled || h.stage.tag in old(world).answers || h.caller.deadline <= old(world).now;
        world == old(world).(now := if over then old(world).now else h.caller.deadline)
    {
      Meanwhile(h);
      if !cancelled && h.stage.tag !in world.answers && world.now < h.caller.deadline {
        Do(Tick(h.caller.deadline - world.now));
      }
    }

    /** The call has just returned, with this result. */
    ghost predicate JustReturned(c: Caller, ok: bool)
      reads this
    {
      world.returned != [] &&
      var r := world.returned[|world.returned| - 1];
      && r.caller == c && r.at == world.now
      && (ok <==> r.outcome.Confirmed?)
      && (ok ==> r.outcome.tag in world.answers && world.answers[r.outcome.tag]
                 && r.outcome.tag < |world.sent| && world.sent[r.outcome.tag] == c)
    }

    /** What the call that has just returned came to. A failed write wrote nothing. After
        a write it is what the broker answered to this very write, unless there is no
        answer, or the caller's context is over as well and the wait has seen that;
        and without an answer the context is over. */
    ghost predicate OutcomeTold(c: Caller, wrote: bool, cancelled: bool, missed: bool)
      reads this
      requires world.returned != []
    {
      var outcome := world.returned[|world.returned| - 1].outcome;
      if !wrote then outcome == WriteFailed && c !in world.sent
      else exists tag: nat | tag < |world.sent| && world.sent[tag] == c ::
        ToldBy(tag, outcome, cancelled || c.deadline <= world.now, missed)
    }

    ghost predicate ToldBy(tag: nat, outcome: Outcome, over: bool, missed: bool)
      reads this
    {
      if tag in world.answers && !(missed && over)
      then outcome == if world.answers[tag] then Confirmed(tag) else Nacked(tag)
      else outcome == Abandoned(tag) && over
    }

    /** After the write: the confirm or the end of the context, whichever the wait
        sees; `missed` says which one if both are there. */
    method AwaitConfirm(c: Caller, cancelled: bool, missed: bool) returns (ok: bool)
      requires Valid() && world.holder.Some? && world.holder.value.caller == c && world.holder.value.stage.Written?
      modifies this
      ensures Valid() && old(trace) <= trace && JustReturned(c, ok) && OutcomeTold(c, true, cancelled, missed)
      ensures old(others) == [] ==>
        var over := cancelled || old(world).holder.value.stage.tag in old(world).answers;
        world.now == if over then old(world).now else Max(old(world).now, c.deadline)
    {
      var h := world.holder.value;
      WaitConfirm(h, cancelled);
      RunIsOrderly(setting, start, trace);
      var done := cancelled || h.caller.deadline <= world.now;
      if h.stage.tag in world.answers && !(missed && done) {
        ok := world.answers[h.stage.tag];
        Do(Finish);
      } else {
        ok := false;
        Do(if cancelled then Cancel else Expire);
      }
      assert ToldBy(h.stage.tag, world.returned[|world.returned| - 1].outcome, done, missed);
    }

    /** When a call that has the lock now, and gets no answer, is back. */
    static function Unanswered(now: int, c: Caller, wrote: bool, cancelled: bool): int {
      if wrote && !cancelled then Max(now, c.deadline) else now
    }

    /** The section under the lock: write, which may take its time, wait for the confirm,
        let go. */
    method Section(c: Caller, wrote: bool, cancelled: bool, missed: bool) returns (ok: bool)
      requires Valid() && world.holder.None? && world.waiting != [] && world.waiting[0] == c
      modifies this
      ensures Valid() && old(trace) <= trace && JustReturned(c, ok) && OutcomeTold(c, wrote, cancelled, missed)
      ensures old(others) == [] ==> world.now == Unanswered(old(world).now, c, wrote, cancelled)
    {
      Do(Acquire);
      Meanwhile(world.holder.value);
      RunIsOrderly(setting, start, trace);
      Do(Write(wrote));
      if !wrote { return false; }
      ok := AwaitConfirm(c, cancelled, missed);
    }

    /** One call: fix the deadline, take the lock, write, wait, and let go. Success
        means the broker confirmed this very message; and the call is back by its
        arrival plus the timeout plus the writes of the calls ahead and its own. */
    method Publish(msg: Message, own: Option<int>, wrote: bool, cancelled: bool, missed: bool) returns (ok: bool)
      requires Valid()
      modifies this
      ensures Valid() && old(trace) <= trace
      ensures
        var c := Newcomer(old(world), Deadline(setting, old(world), own), msg);
        && JustReturned(c, ok) && OutcomeTold(c, wrote, cancelled, missed)
        && (old(others) == [] && Inside(old(world)) == 0 ==>
              world.now == Unanswered(old(world).now, c, wrote, cancelled))
      ensures world.now <= old(world).now + setting.timeout + (Inside(old(world)) + 1) * setting.write
    {
      var deadline := Deadline(setting, world, own);
      var c := Newcomer(world, deadline, msg);
      Do(Arrive(deadline, msg));
      Lock(c);
      ok := Section(c, wrote, cancelled, missed);
      RunIsOnTime(setting, start, trace);
    }
  }
}
