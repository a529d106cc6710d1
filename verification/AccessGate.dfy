/** app/access.py: throttled verification of the access key. At most two verifications run at a
    time, failures of a client delay its next attempt, and a cancelled caller still waits for
    its worker and records what it found.

    Time is a real number that never goes back. A client without a host is not throttled. */
module AccessGate {
  import opened Common

  const ATTEMPT_WINDOW: real := 600.0
  const MAX_DELAY: nat := 30
  const MAX_CONCURRENT: nat := 2

  type Time = real
  datatype Client = Anonymous | Host(number: nat)
  datatype Attempt = Attempt(failures: nat, blockedUntil: Time, lastSeen: Time)
  type Attempts = map<Client, Attempt>

  function Min(a: nat, b: nat): nat { if a < b then a else b }

  function Pow2(n: nat): nat { if n == 0 then 1 else 2 * Pow2(n - 1) }

  /** Seconds a client is held back after its n-th failure in a row. */
  function Delay(failures: nat): nat {
    if failures == 0 then 0 else Min(MAX_DELAY, Pow2(Min(failures - 1, 5)))
  }

  function Ceil(x: real): int { if x == x.Floor as real then x.Floor else x.Floor + 1 }

  function Cleanup(a: Attempts, now: Time): Attempts {
    map k | k in a && now - a[k].lastSeen <= ATTEMPT_WINDOW :: a[k]
  }

  /** Seconds the client has to wait; the table is cleaned first. */
  function Backoff(a: Attempts, client: Client, now: Time): int {
    var a := Cleanup(a, now);
    if client.Anonymous? || client !in a || a[client].blockedUntil <= now then 0
    else Ceil(a[client].blockedUntil - now)
  }

  function Record(a: Attempts, client: Client, success: bool, now: Time): Attempts {
    if client.Anonymous? then a
    else
      var a := Cleanup(a, now);
      if success then a - {client}
      else
        var failures := if client in a then a[client].failures + 1 else 1;
        a[client := Attempt(failures, now + Delay(failures) as real, now)]
  }

  // ----- The table -----

  /** Every table that record_access_attempt can have built by `now`. */
  ghost predicate TableOk(a: Attempts, now: Time) {
    forall k | k in a ::
      k.Host? && a[k].failures >= 1 && a[k].lastSeen <= now && a[k].blockedUntil == a[k].lastSeen + Delay(a[k].failures) as real
  }

  lemma DelayTable()
    ensures Delay(1) == 1 && Delay(2) == 2 && Delay(3) == 4 && Delay(4) == 8 && Delay(5) == 16 && Delay(6) == 30
    ensures forall f: nat | f >= 6 :: Delay(f) == MAX_DELAY
    ensures forall f: nat, g: nat | f <= g :: Delay(f) <= Delay(g) <= MAX_DELAY
  {
    assert Pow2(0) == 1 && Pow2(1) == 2 && Pow2(2) == 4 && Pow2(3) == 8 && Pow2(4) == 16 && Pow2(5) == 32;
    forall f: nat, g: nat | f <= g ensures Delay(f) <= Delay(g) <= MAX_DELAY {
      Pow2Grows(Min(if f == 0 then 0 else f - 1, 5), Min(if g == 0 then 0 else g - 1, 5));
    }
  }

  lemma {:induction false} Pow2Grows(m: nat, n: nat)
    requires m <= n
    ensures 1 <= Pow2(m) <= Pow2(n)
  {
    if m < n { Pow2Grows(m, n - 1); } else if n > 0 { Pow2Grows(m - 1, n - 1); }
  }

  /** Forgetting a client after ten minutes never changes what it is told later. */
  lemma CleanupNeverChangesBackoff(a: Attempts, client: Client, now: Time, later: Time)
    requires TableOk(a, now) && now <= later
    ensures Backoff(Cleanup(a, now), client, later) == Backoff(a, client, later)
    ensures Backoff(a, client, later) == if client in a && a[client].blockedUntil > later then Ceil(a[client].blockedUntil - later) else 0
  {
    DelayTable();
  }

  /** A client is told to wait exactly while it is blocked, and waiting that long is enough. */
  lemma BackoffIsTheWait(a: Attempts, client: Client, now: Time)
    requires TableOk(a, now)
    ensures Backoff(a, client, now) > 0 <==> client in a && a[client].blockedUntil > now
    ensures client in a ==> a[client].blockedUntil <= now + Backoff(a, client, now) as real || a[client].blockedUntil <= now
    ensures 0 <= Backoff(a, client, now) <= MAX_DELAY
  {
    CleanupNeverChangesBackoff(a, client, now, now);
    DelayTable();
  }

  class AttemptTable {
    var attempts: Attempts

    /** _cleanup_attempts: collect the stale keys, then pop them one by one. */
    method CleanupAttempts(now: Time)
      modifies this
      ensures attempts == Cleanup(old(attempts), now)
    {
      var stale := set k | k in attempts && now - attempts[k].lastSeen > ATTEMPT_WINDOW;
      while stale != {}
        invariant stale == set k | k in attempts && now - attempts[k].lastSeen > ATTEMPT_WINDOW
        invariant forall k :: k in attempts ==> k in old(attempts) && attempts[k] == old(attempts)[k]
        invariant forall k :: k in old(attempts) && now - old(attempts)[k].lastSeen <= ATTEMPT_WINDOW ==> k in attempts
        decreases |stale|
      {
        var key :| key in stale;
        attempts := attempts - {key};
        stale := stale - {key};
      }
      assert forall k :: k in attempts ==> now - attempts[k].lastSeen <= ATTEMPT_WINDOW by {
        forall k | k in attempts ensures now - attempts[k].lastSeen <= ATTEMPT_WINDOW {
          assert k !in stale;
        }
      }
    }

    method BackoffSeconds(client: Client, now: Time) returns (seconds: int)
      modifies this
      ensures seconds == Backoff(old(attempts), client, now)
      ensures attempts == if client.Anonymous? then old(attempts) else Cleanup(old(attempts), now)
    {
      if client.Anonymous? { return 0; }
      CleanupAttempts(now);
      if client !in attempts || attempts[client].blockedUntil <= now { return 0; }
      return Ceil(attempts[client].blockedUntil - now);
    }

    method RecordAttempt(client: Client, success: bool, now: Time)
      modifies this
      ensures attempts == Record(old(attempts), client, success, now)
    {
      if client.Anonymous? { return; }
      CleanupAttempts(now);
      if success {
        attempts := attempts - {client};
        return;
      }
      var failures := if client in attempts then attempts[client].failures + 1 else 1;
      var delay := Delay(failures);
      attempts := attempts[client := Attempt(failures, now + delay as real, now)];
    }
  }

  // ----- The verifier as a state machine -----

  type TaskId = nat
  datatype Outcome = Correct | Wrong | Broke    // Broke: the worker raised

  /** One verification: when it started, and how many attempts had been recorded by then. */
  datatype Verification = Verification(client: Client, ticket: nat, start: Time, since: nat)

  /** Where a call of verify_access_key_async is. */
  datatype Task =
    | Waiting(client: Client)
    | Holding(client: Client)
    | Verifying(v: Verification, cancelled: bool)
    | Finished(v: Verification, cancelled: bool, outcome: Outcome)
    | Refused(seconds: int)
    | Cancelled
    | Answered(v: Verification, cancelled: bool, outcome: Outcome)

  /** One call of record_access_attempt by the verifier. */
  datatype Event = Event(v: Verification, at: Time, success: bool, delay: nat)

  datatype Gate = Gate(now: Time, attempts: Attempts, permits: int, tasks: map<TaskId, Task>, nextTicket: nat, log: seq<Event>)

  const Opened := Gate(0.0, map[], MAX_CONCURRENT, map[], 0, [])

  datatype Action =
    | Tick(elapsed: real)
    | Arrive(task: TaskId, client: Client)
    | Acquire(task: TaskId)
    | Recheck(task: TaskId)
    | WorkerDone(task: TaskId, outcome: Outcome)
    | Cancel(task: TaskId)
    | Resume(task: TaskId)

  function Arrived(g: Gate, t: TaskId, client: Client): Gate {
    var wait := Backoff(g.attempts, client, g.now);
    g.(attempts := if client.Anonymous? then g.attempts else Cleanup(g.attempts, g.now),
       tasks := g.tasks[t := if wait > 0 then Refused(wait) else Waiting(client)])
  }

  function Rechecked(g: Gate, t: TaskId, client: Client): Gate {
    var wait := Backoff(g.attempts, client, g.now);
    var attempts := if client.Anonymous? then g.attempts else Cleanup(g.attempts, g.now);
    if wait > 0 then g.(attempts := attempts, tasks := g.tasks[t := Refused(wait)], permits := g.permits + 1)
    else g.(attempts := attempts, nextTicket := g.nextTicket + 1,
            tasks := g.tasks[t := Verifying(Verification(client, g.nextTicket, g.now, |g.log|), false)])
  }

  /** The caller runs again after its worker: record unless the worker raised, then release. */
  function Resumed(g: Gate, t: TaskId, f: Task): Gate
    requires f.Finished?
  {
    var released := g.(tasks := g.tasks[t := Answered(f.v, f.cancelled, f.outcome)], permits := g.permits + 1);
    if f.outcome.Broke? then released
    else
      var attempts := Record(g.attempts, f.v.client, f.outcome.Correct?, g.now);
      var delay := if f.v.client in attempts then Delay(attempts[f.v.client].failures) else 0;
      released.(attempts := attempts, log := g.log + [Event(f.v, g.now, f.outcome.Correct?, delay)])
  }

  function CancelTask(g: Gate, t: TaskId): Gate
    requires t in g.tasks
  {
    match g.tasks[t]
    case Waiting(_) => g.(tasks := g.tasks[t := Task.Cancelled])
    case Holding(_) => g.(tasks := g.tasks[t := Task.Cancelled], permits := g.permits + 1)
    case Verifying(v, _) => g.(tasks := g.tasks[t := Verifying(v, true)])
    case Finished(v, _, outcome) => g.(tasks := g.tasks[t := Finished(v, true, outcome)])
    case _ => g
  }

  function Next(g: Gate, a: Action): Gate {
    match a
    case Tick(elapsed) => if elapsed >= 0.0 then g.(now := g.now + elapsed) else g
    case Arrive(t, client) => if t in g.tasks then g else Arrived(g, t, client)
    case Acquire(t) =>
      if t in g.tasks && g.tasks[t].Waiting? && g.permits > 0
      then g.(tasks := g.tasks[t := Holding(g.tasks[t].client)], permits := g.permits - 1) else g
    case Recheck(t) =>
      if t in g.tasks && g.tasks[t].Holding? then Rechecked(g, t, g.tasks[t].client) else g
    case WorkerDone(t, outcome) =>
      if t in g.tasks && g.tasks[t].Verifying?
      then g.(tasks := g.tasks[t := Finished(g.tasks[t].v, g.tasks[t].cancelled, outcome)]) else g
    case Cancel(t) => if t in g.tasks then CancelTask(g, t) else g
    case Resume(t) => if t in g.tasks && g.tasks[t].Finished? then Resumed(g, t, g.tasks[t]) else g
  }

  function Run(g: Gate, actions: seq<Action>): Gate
    decreases |actions|
  {
    if actions == [] then g else Run(Next(g, actions[0]), actions[1..])
  }

  // ----- Readings of a state -----

  predicate InFlight(t: Task) { t.Verifying? || t.Finished? }
  predicate Holds(t: Task) { t.Holding? || InFlight(t) }

  function Holders(tasks: map<TaskId, Task>): set<TaskId> { set t | t in tasks && Holds(tasks[t]) }
  function Workers(tasks: map<TaskId, Task>): set<TaskId> { set t | t in tasks && tasks[t].Verifying? }

  /** The verifications that have started and are not yet recorded. */
  function Flights(tasks: map<TaskId, Task>): map<TaskId, Verification> {
    map t | t in tasks && InFlight(tasks[t]) :: tasks[t].v
  }

  lemma TaskChanged(tasks: map<TaskId, Task>, t: TaskId, state: Task)
    ensures |Holders(tasks[t := state])|
         == |Holders(tasks)| - (if t in tasks && Holds(tasks[t]) then 1 else 0) + (if Holds(state) then 1 else 0)
    ensures Flights(tasks[t := state]) == if InFlight(state) then Flights(tasks)[t := state.v] else Flights(tasks) - {t}
  {
    var rest := Holders(tasks) - {t};
    assert Holders(tasks[t := state]) == if Holds(state) then rest + {t} else rest;
    FlightsChanged(tasks, t, state);
  }

  lemma FlightsChanged(tasks: map<TaskId, Task>, t: TaskId, state: Task)
    ensures Flights(tasks[t := state]) == if InFlight(state) then Flights(tasks)[t := state.v] else Flights(tasks) - {t}
  {
  }

  /** A step changes flights and log in one of four ways. */
  datatype Change = Same | Started(t: TaskId) | Dropped(t: TaskId) | Recorded(t: TaskId)

  function ChangeOf(g: Gate, a: Action): Change {
    match a
    case Recheck(t) =>
      if t in g.tasks && g.tasks[t].Holding? && Backoff(g.attempts, g.tasks[t].client, g.now) <= 0 then Started(t) else Same
    case Resume(t) =>
      if t in g.tasks && g.tasks[t].Finished? then (if g.tasks[t].outcome.Broke? then Dropped(t) else Recorded(t)) else Same
    case _ => Same
  }

  lemma ChangeIs(g: Gate, a: Action)
    ensures var f, f' := Flights(g.tasks), Flights(Next(g, a).tasks);
            var log, log' := g.log, Next(g, a).log;
            match ChangeOf(g, a)
            case Same => f' == f && log' == log
            case Started(t) => t !in f && f' == f[t := Verification(g.tasks[t].client, g.nextTicket, g.now, |log|)] && log' == log
            case Dropped(t) => t in f && f' == f - {t} && log' == log
            case Recorded(t) => t in f && f' == f - {t} && |log'| == |log| + 1 && log' == log + [log'[|log|]] && log'[|log|].v == f[t]
  {
    var g' := Next(g, a);
    if !a.Tick? && a.task in g'.tasks {
      TaskChanged(g.tasks, a.task, g'.tasks[a.task]);
      assert g.tasks[a.task := g'.tasks[a.task]] == g'.tasks;
    }
  }

  // ----- At most two at a time -----

  ghost predicate Bounded(g: Gate) {
    g.permits >= 0 && |Holders(g.tasks)| + g.permits == MAX_CONCURRENT
  }

  lemma StepKeepsBounded(g: Gate, a: Action)
    requires Bounded(g)
    ensures Bounded(Next(g, a))
  {
    var g' := Next(g, a);
    if !a.Tick? && g'.tasks != g.tasks {
      TaskChanged(g.tasks, a.task, g'.tasks[a.task]);
    }
  }

  // ----- One other verification at most is under way when an attempt is recorded -----

  function FlyingSince(flights: map<TaskId, Verification>, i: nat): set<TaskId> {
    set t | t in flights && flights[t].since <= i
  }

  /** Later records of verifications that had already started at the i-th record. */
  function LateSince(log: seq<Event>, i: nat): set<nat> {
    set j: nat | i < j < |log| && log[j].v.since <= i
  }

  ghost predicate OneOther(flights: map<TaskId, Verification>, log: seq<Event>) {
    && (forall t | t in flights :: flights[t].since <= |log|)
    && forall i | 0 <= i < |log| :: log[i].v.since <= i && |FlyingSince(flights, i)| + |LateSince(log, i)| <= 1
  }

  lemma StartKeepsOneOther(flights: map<TaskId, Verification>, log: seq<Event>, t: TaskId, v: Verification)
    requires OneOther(flights, log) && t !in flights && v.since == |log|
    ensures OneOther(flights[t := v], log)
  {
    forall i | 0 <= i < |log| ensures FlyingSince(flights[t := v], i) == FlyingSince(flights, i) {}
  }

  lemma DropKeepsOneOther(flights: map<TaskId, Verification>, log: seq<Event>, t: TaskId)
    requires OneOther(flights, log)
    ensures OneOther(flights - {t}, log)
  {
    forall i | 0 <= i < |log| ensures |FlyingSince(flights - {t}, i)| <= |FlyingSince(flights, i)| {
      SubsetSize(FlyingSince(flights - {t}, i), FlyingSince(flights, i));
    }
  }

  lemma FlyingAfter(flights: map<TaskId, Verification>, t: TaskId, i: nat)
    requires t in flights
    ensures |FlyingSince(flights - {t}, i)| == |FlyingSince(flights, i)| - (if flights[t].since <= i then 1 else 0)
  {
    assert FlyingSince(flights - {t}, i) == FlyingSince(flights, i) - {t};
  }

  lemma LateAfter(log: seq<Event>, e: Event, i: nat)
    requires i < |log|
    ensures |LateSince(log + [e], i)| == |LateSince(log, i)| + (if e.v.since <= i then 1 else 0)
  {
    assert LateSince(log + [e], i) == if e.v.since <= i then LateSince(log, i) + {|log|} else LateSince(log, i);
  }

  lemma RecordKeepsOneOther(flights: map<TaskId, Verification>, log: seq<Event>, t: TaskId, e: Event)
    requires OneOther(flights, log) && t in flights && e.v == flights[t] && |flights.Keys| <= MAX_CONCURRENT
    ensures OneOther(flights - {t}, log + [e])
  {
    var log', n := log + [e], |log|;
    assert LateSince(log', n) == {};
    SubsetSize(FlyingSince(flights - {t}, n), flights.Keys - {t});
    forall i | 0 <= i <= n
      ensures log'[i].v.since <= i && |FlyingSince(flights - {t}, i)| + |LateSince(log', i)| <= 1
    {
      if i < n {
        FlyingAfter(flights, t, i);
        LateAfter(log, e, i);
      }
    }
  }

  lemma StepKeepsOneOther(g: Gate, a: Action)
    requires Bounded(g) && OneOther(Flights(g.tasks), g.log)
    ensures OneOther(Flights(Next(g, a).tasks), Next(g, a).log)
  {
    ChangeIs(g, a);
    var f, log' := Flights(g.tasks), Next(g, a).log;
    match ChangeOf(g, a)
    case Same =>
    case Started(t) => StartKeepsOneOther(f, g.log, t, Verification(g.tasks[t].client, g.nextTicket, g.now, |g.log|));
    case Dropped(t) => DropKeepsOneOther(f, g.log, t);
    case Recorded(t) =>
      SubsetSize(f.Keys, Holders(g.tasks));
      RecordKeepsOneOther(f, g.log, t, log'[|g.log|]);
  }

  // ----- Each finished verification is recorded once -----

  ghost predicate FreshTickets(flights: map<TaskId, Verification>, log: seq<Event>, next: nat) {
    && (forall t | t in flights :: flights[t].ticket < next)
    && (forall t, u | t in flights && u in flights && t != u :: flights[t].ticket != flights[u].ticket)
    && (forall t, i | t in flights && 0 <= i < |log| :: log[i].v.ticket != flights[t].ticket)
    && (forall i | 0 <= i < |log| :: log[i].v.ticket < next)
    && (forall i, j | 0 <= i < j < |log| :: log[i].v.ticket != log[j].v.ticket)
  }

  /** An answered caller left a record of its verification, unless the worker raised. */
  ghost predicate AnsweredAreRecorded(tasks: map<TaskId, Task>, log: seq<Event>) {
    forall t | t in tasks && tasks[t].Answered? && !tasks[t].outcome.Broke? :: HasRecord(log, tasks[t].v, tasks[t].outcome)
  }

  ghost predicate HasRecord(log: seq<Event>, v: Verification, outcome: Outcome) {
    exists i :: 0 <= i < |log| && log[i].v == v && log[i].success == outcome.Correct?
  }

  lemma RecordKeepsTickets(flights: map<TaskId, Verification>, log: seq<Event>, next: nat, t: TaskId, e: Event)
    requires FreshTickets(flights, log, next) && t in flights && e.v == flights[t]
    ensures FreshTickets(flights - {t}, log + [e], next)
  {
  }

  lemma StartKeepsTickets(flights: map<TaskId, Verification>, log: seq<Event>, next: nat, t: TaskId, v: Verification)
    requires FreshTickets(flights, log, next) && v.ticket == next
    ensures FreshTickets(flights[t := v], log, next + 1)
  {
  }

  lemma StepKeepsTickets(g: Gate, a: Action)
    requires FreshTickets(Flights(g.tasks), g.log, g.nextTicket)
    ensures FreshTickets(Flights(Next(g, a).tasks), Next(g, a).log, Next(g, a).nextTicket)
  {
    ChangeIs(g, a);
    var f, log := Flights(g.tasks), g.log;
    match ChangeOf(g, a)
    case Same => assert Next(g, a).nextTicket == g.nextTicket;
    case Started(t) => StartKeepsTickets(f, log, g.nextTicket, t, Verification(g.tasks[t].client, g.nextTicket, g.now, |log|));
    case Dropped(t) => assert Next(g, a).nextTicket == g.nextTicket;
    case Recorded(t) => RecordKeepsTickets(f, log, g.nextTicket, t, Next(g, a).log[|log|]);
  }

  lemma StepKeepsAnswered(g: Gate, a: Action)
    requires AnsweredAreRecorded(g.tasks, g.log)
    ensures AnsweredAreRecorded(Next(g, a).tasks, Next(g, a).log)
  {
    var g' := Next(g, a);
    forall t | t in g'.tasks && g'.tasks[t].Answered? && !g'.tasks[t].outcome.Broke?
      ensures HasRecord(g'.log, g'.tasks[t].v, g'.tasks[t].outcome)
    {
      if t in g.tasks && g.tasks[t] == g'.tasks[t] {
        var i :| 0 <= i < |g.log| && g.log[i].v == g.tasks[t].v && g.log[i].success == g.tasks[t].outcome.Correct?;
        assert g'.log[i] == g.log[i];
      } else {
        assert g'.log[|g.log|].v == g'.tasks[t].v;
      }
    }
  }

  // ----- Throttling -----

  predicate FailureOf(e: Event, client: Client) { e.v.client == client && client.Host? && !e.success }

  /** No success of the client is recorded strictly between positions i and k. */
  ghost predicate NoSuccess(log: seq<Event>, i: int, k: int, client: Client) {
    forall m | i < m < k && 0 <= m < |log| :: !(log[m].v.client == client && log[m].success)
  }

  function Until(e: Event): Time { e.at + e.delay as real }

  /** A verification started no earlier than the end of every delay that was recorded before it
      for its client and that no success has lifted. */
  ghost predicate Respects(log: seq<Event>, v: Verification) {
    && v.since <= |log|
    && forall i | 0 <= i < v.since && FailureOf(log[i], v.client) && NoSuccess(log, i, v.since, v.client) :: Until(log[i]) <= v.start
  }

  /** A failure that no success has followed is over, or still holds the client back. */
  ghost predicate Remembered(attempts: Attempts, log: seq<Event>, now: Time) {
    forall i, client | 0 <= i < |log| && FailureOf(log[i], client) && NoSuccess(log, i, |log|, client) ::
      Until(log[i]) <= now || (client in attempts && attempts[client].blockedUntil >= Until(log[i]))
  }

  ghost predicate LogOk(log: seq<Event>, now: Time) {
    && (forall j | 0 <= j < |log| :: log[j].v.since <= j && log[j].v.start <= log[j].at <= now && Respects(log, log[j].v))
    && (forall i, j | 0 <= i < j < |log| :: log[i].at <= log[j].at)
  }

  ghost predicate FlightsOk(flights: map<TaskId, Verification>, log: seq<Event>, now: Time) {
    forall t | t in flights :: flights[t].start <= now && Respects(log, flights[t])
  }

  ghost predicate Throttled(g: Gate) {
    && TableOk(g.attempts, g.now) && Remembered(g.attempts, g.log, g.now)
    && FlightsOk(Flights(g.tasks), g.log, g.now) && LogOk(g.log, g.now)
  }

  lemma RespectsStays(log: seq<Event>, e: Event, v: Verification)
    requires Respects(log, v)
    ensures Respects(log + [e], v)
  {
    forall i | 0 <= i < v.since && FailureOf((log + [e])[i], v.client) && NoSuccess(log + [e], i, v.since, v.client)
      ensures Until((log + [e])[i]) <= v.start
    {
      forall m | i < m < v.since && 0 <= m < |log| ensures !(log[m].v.client == v.client && log[m].success) {
        assert (log + [e])[m] == log[m];
      }
    }
  }

  lemma CleanupKeeps(a: Attempts, log: seq<Event>, now: Time)
    requires TableOk(a, now) && Remembered(a, log, now)
    ensures TableOk(Cleanup(a, now), now) && Remembered(Cleanup(a, now), log, now)
  {
    DelayTable();
  }

  lemma RecordKeeps(a: Attempts, log: seq<Event>, now: Time, e: Event)
    requires TableOk(a, now) && Remembered(a, log, now) && e.at == now
    requires var a' := Record(a, e.v.client, e.success, now);
             e.delay == if e.v.client in a' then Delay(a'[e.v.client].failures) else 0
    ensures TableOk(Record(a, e.v.client, e.success, now), now)
    ensures Remembered(Record(a, e.v.client, e.success, now), log + [e], now)
  {
    CleanupKeeps(a, log, now);
    DelayTable();
    var a', log' := Record(a, e.v.client, e.success, now), log + [e];
    forall i, client | 0 <= i < |log'| && FailureOf(log'[i], client) && NoSuccess(log', i, |log'|, client)
      ensures Until(log'[i]) <= now || (client in a' && a'[client].blockedUntil >= Until(log'[i]))
    {
      if i < |log| {
        forall m | i < m < |log| ensures !(log[m].v.client == client && log[m].success) {
          assert log'[m] == log[m];
        }
        assert NoSuccess(log, i, |log|, client);
        assert log'[|log|] == e;
      }
    }
  }

  lemma StartRespects(a: Attempts, log: seq<Event>, now: Time, client: Client, ticket: nat)
    requires TableOk(a, now) && Remembered(a, log, now) && Backoff(a, client, now) <= 0
    ensures Respects(log, Verification(client, ticket, now, |log|))
  {
    CleanupNeverChangesBackoff(a, client, now, now);
  }

  lemma StepKeepsThrottled(g: Gate, a: Action)
    requires Throttled(g)
    ensures Throttled(Next(g, a))
  {
    ChangeIs(g, a);
    CleanupKeeps(g.attempts, g.log, g.now);
    match ChangeOf(g, a)
    case Same => SameKeepsThrottled(g, a);
    case Started(t) => StartRespects(g.attempts, g.log, g.now, g.tasks[t].client, g.nextTicket);
    case Dropped(t) =>
    case Recorded(t) => RecordedKeepsThrottled(g, t);
  }

  lemma SameKeepsThrottled(g: Gate, a: Action)
    requires Throttled(g) && ChangeOf(g, a).Same?
    ensures Throttled(Next(g, a))
  {
    var g' := Next(g, a);
    assert Flights(g'.tasks) == Flights(g.tasks) && g'.log == g.log by { ChangeIs(g, a); }
    assert g'.now >= g.now && (g'.attempts == g.attempts || (g'.attempts == Cleanup(g.attempts, g.now) && g'.now == g.now));
    StillThrottled(g, g');
  }

  lemma StillThrottled(g: Gate, g': Gate)
    requires Throttled(g) && Flights(g'.tasks) == Flights(g.tasks) && g'.log == g.log && g'.now >= g.now
    requires g'.attempts == g.attempts || (g'.attempts == Cleanup(g.attempts, g.now) && g'.now == g.now)
    ensures Throttled(g')
  {
    if g'.attempts != g.attempts {
      CleanupKeeps(g.attempts, g.log, g.now);
    }
  }

  lemma RecordedKeepsThrottled(g: Gate, t: TaskId)
    requires Throttled(g) && t in g.tasks && g.tasks[t].Finished? && !g.tasks[t].outcome.Broke?
    ensures Throttled(Next(g, Resume(t)))
  {
    var g' := Next(g, Resume(t));
    ChangeIs(g, Resume(t));
    var e := g'.log[|g.log|];
    RecordKeeps(g.attempts, g.log, g.now, e);
    forall u | u in Flights(g'.tasks) ensures Respects(g'.log, Flights(g'.tasks)[u]) {
      RespectsStays(g.log, e, Flights(g.tasks)[u]);
    }
    forall j | 0 <= j < |g'.log| ensures Respects(g'.log, g'.log[j].v) {
      if j < |g.log| { RespectsStays(g.log, e, g.log[j].v); } else { RespectsStays(g.log, e, Flights(g.tasks)[t]); }
    }
  }

  // ----- What holds a client back -----

  /** Some failure that no success has followed blocks the client until then. */
  ghost predicate HasCause(log: seq<Event>, client: Client, until: Time) {
    exists i :: 0 <= i < |log| && FailureOf(log[i], client) && NoSuccess(log, i, |log|, client) && Until(log[i]) == until
  }

  ghost predicate Caused(attempts: Attempts, log: seq<Event>) {
    forall client | client in attempts :: HasCause(log, client, attempts[client].blockedUntil)
  }

  lemma CauseStays(log: seq<Event>, e: Event, client: Client, until: Time)
    requires HasCause(log, client, until) && !(e.v.client == client && e.success)
    ensures HasCause(log + [e], client, until)
  {
    var i :| 0 <= i < |log| && FailureOf(log[i], client) && NoSuccess(log, i, |log|, client) && Until(log[i]) == until;
    var log' := log + [e];
    assert log'[i] == log[i];
    forall m | i < m < |log'| ensures !(log'[m].v.client == client && log'[m].success) {
      assert m < |log| ==> log'[m] == log[m];
    }
  }

  lemma RecordKeepsCaused(a: Attempts, log: seq<Event>, now: Time, e: Event)
    requires Caused(a, log) && e.at == now
    requires var a' := Record(a, e.v.client, e.success, now);
             e.delay == if e.v.client in a' then Delay(a'[e.v.client].failures) else 0
    ensures Caused(Record(a, e.v.client, e.success, now), log + [e])
  {
    var a', log' := Record(a, e.v.client, e.success, now), log + [e];
    forall client | client in a' ensures HasCause(log', client, a'[client].blockedUntil) {
      if client == e.v.client && !client.Anonymous? {
        assert log'[|log|] == e && FailureOf(e, client) && Until(e) == a'[client].blockedUntil;
        assert NoSuccess(log', |log|, |log'|, client);
      } else {
        CauseStays(log, e, client, a[client].blockedUntil);
      }
    }
  }

  lemma StepKeepsCaused(g: Gate, a: Action)
    requires Caused(g.attempts, g.log) && TableOk(g.attempts, g.now)
    ensures Caused(Next(g, a).attempts, Next(g, a).log)
  {
    ChangeIs(g, a);
    if ChangeOf(g, a).Recorded? {
      RecordKeepsCaused(g.attempts, g.log, g.now, Next(g, a).log[|g.log|]);
    }
  }

  /** Every delay that was recorded for the client and that no success has lifted is over. */
  ghost predicate AllOver(log: seq<Event>, client: Client, now: Time) {
    forall i | 0 <= i < |log| && FailureOf(log[i], client) && NoSuccess(log, i, |log|, client) :: Until(log[i]) <= now
  }

  /** The recheck lets the client through exactly if every failure recorded since its last recorded
      success has run out. */
  lemma LetThroughIff(g: Gate, client: Client)
    requires Valid(g)
    ensures Backoff(g.attempts, client, g.now) <= 0 <==> AllOver(g.log, client, g.now)
  {
    CleanupNeverChangesBackoff(g.attempts, client, g.now, g.now);
    if client in g.attempts && g.attempts[client].blockedUntil > g.now {
      assert HasCause(g.log, client, g.attempts[client].blockedUntil);
    }
  }

  // ----- Every run -----

  ghost predicate Valid(g: Gate) {
    && Bounded(g) && OneOther(Flights(g.tasks), g.log) && Throttled(g)
    && FreshTickets(Flights(g.tasks), g.log, g.nextTicket) && AnsweredAreRecorded(g.tasks, g.log)
    && Caused(g.attempts, g.log)
  }

  lemma OpenedIsValid()
    ensures Valid(Opened)
  {
    assert Holders(Opened.tasks) == {};
  }

  lemma {:induction false} RunKeepsValid(g: Gate, actions: seq<Action>)
    requires Valid(g)
    ensures Valid(Run(g, actions))
    decreases |actions|
  {
    if actions != [] {
      StepKeepsBounded(g, actions[0]);
      StepKeepsOneOther(g, actions[0]);
      StepKeepsThrottled(g, actions[0]);
      StepKeepsTickets(g, actions[0]);
      StepKeepsAnswered(g, actions[0]);
      StepKeepsCaused(g, actions[0]);
      RunKeepsValid(Next(g, actions[0]), actions[1..]);
    }
  }

  /** In every interleaving, cancellations included: at most two workers run at once, no
      verification is recorded twice, and every answered caller's finished one is recorded. */
  lemma AtMostTwoAndRecordedOnce(actions: seq<Action>)
    ensures var g := Run(Opened, actions);
            && |Workers(g.tasks)| <= MAX_CONCURRENT
            && (forall i, j | 0 <= i < j < |g.log| :: g.log[i].v.ticket != g.log[j].v.ticket)
            && AnsweredAreRecorded(g.tasks, g.log)
  {
    OpenedIsValid();
    RunKeepsValid(Opened, actions);
    var g := Run(Opened, actions);
    SubsetSize(Workers(g.tasks), Holders(g.tasks));
  }

  /** No verification starts before the end of the delay of a recorded failure of the same
      client, unless a success was recorded in between. */
  lemma NoEarlyStart(actions: seq<Action>, i: nat, v: Verification)
    requires var g := Run(Opened, actions);
             && ((exists t :: t in Flights(g.tasks) && Flights(g.tasks)[t] == v) || (exists j :: 0 <= j < |g.log| && g.log[j].v == v))
             && i < v.since && i < |g.log| && FailureOf(g.log[i], v.client) && NoSuccess(g.log, i, v.since, v.client)
    ensures Until(Run(Opened, actions).log[i]) <= v.start
  {
    OpenedIsValid();
    RunKeepsValid(Opened, actions);
  }

  /** In every run, a caller that holds a permit starts its verification exactly if all delays are
      over that were recorded for its client since its last recorded success. */
  lemma StartsIffAllOver(actions: seq<Action>, t: TaskId)
    requires var g := Run(Opened, actions); t in g.tasks && g.tasks[t].Holding?
    ensures var g := Run(Opened, actions);
            Next(g, Recheck(t)).tasks[t].Verifying? <==> AllOver(g.log, g.tasks[t].client, g.now)
  {
    OpenedIsValid();
    RunKeepsValid(Opened, actions);
    LetThroughIff(Run(Opened, actions), Run(Opened, actions).tasks[t].client);
  }

  /** In every run, an arriving caller is turned away at once exactly if some delay is not over; then
      it is told a number of whole seconds after which all of them are. */
  lemma TurnedAwayIff(actions: seq<Action>, t: TaskId, client: Client)
    requires t !in Run(Opened, actions).tasks
    ensures var g := Run(Opened, actions); var task := Next(g, Arrive(t, client)).tasks[t];
            && task == (if AllOver(g.log, client, g.now) then Waiting(client) else Refused(Backoff(g.attempts, client, g.now)))
            && (task.Refused? ==> 0 < task.seconds <= MAX_DELAY && AllOver(g.log, client, g.now + task.seconds as real))
  {
    OpenedIsValid();
    RunKeepsValid(Opened, actions);
    var g := Run(Opened, actions);
    LetThroughIff(g, client);
    BackoffIsTheWait(g.attempts, client, g.now);
  }

  /** The verification of a task that has started one. */
  predicate HasStarted(g: Gate, t: TaskId, v: Verification) {
    t in g.tasks && (InFlight(g.tasks[t]) || g.tasks[t].Answered?) && g.tasks[t].v == v
  }

  /** A verification that has started is never given up, whoever cancels its caller: its task goes on
      until it is answered, and then the outcome has been recorded. */
  lemma {:induction false} StartedIsNeverLost(g: Gate, actions: seq<Action>, t: TaskId, v: Verification)
    requires HasStarted(g, t, v) && AnsweredAreRecorded(g.tasks, g.log)
    ensures var g' := Run(g, actions);
            && HasStarted(g', t, v)
            && (g'.tasks[t].Answered? && !g'.tasks[t].outcome.Broke? ==> HasRecord(g'.log, v, g'.tasks[t].outcome))
    decreases |actions|
  {
    if actions != [] {
      StepKeepsAnswered(g, actions[0]);
      StaysStarted(g, actions[0], t, v);
      StartedIsNeverLost(Next(g, actions[0]), actions[1..], t, v);
    }
  }

  lemma StaysStarted(g: Gate, a: Action, t: TaskId, v: Verification)
    requires HasStarted(g, t, v)
    ensures HasStarted(Next(g, a), t, v)
  {
  }

  predicate NotStarted(task: Task) { task.Waiting? || task.Holding? }

  /** A caller that is cancelled before its verification starts never starts one, and gives back the
      permit that it holds. */
  lemma {:induction false} CancelledNeverStarts(g: Gate, actions: seq<Action>, t: TaskId)
    requires t in g.tasks && (g.tasks[t].Cancelled? || g.tasks[t].Refused?)
    ensures t in Run(g, actions).tasks && Run(g, actions).tasks[t] == g.tasks[t]
    decreases |actions|
  {
    if actions != [] { CancelledNeverStarts(Next(g, actions[0]), actions[1..], t); }
  }

  lemma CancelGivesUp(g: Gate, actions: seq<Action>, t: TaskId)
    requires t in g.tasks && NotStarted(g.tasks[t])
    ensures var g' := Next(g, Cancel(t));
            && g'.permits == g.permits + (if g.tasks[t].Holding? then 1 else 0) && g'.log == g.log
            && t in Run(g', actions).tasks && Run(g', actions).tasks[t] == Task.Cancelled
  {
    CancelledNeverStarts(Next(g, Cancel(t)), actions, t);
  }

  /** A cancelled caller stays cancelled, however its verification ends. */
  lemma {:induction false} CancellationStays(g: Gate, actions: seq<Action>, t: TaskId, v: Verification)
    requires HasStarted(g, t, v) && g.tasks[t].cancelled
    ensures HasStarted(Run(g, actions), t, v) && Run(g, actions).tasks[t].cancelled
    decreases |actions|
  {
    if actions != [] { CancellationStays(Next(g, actions[0]), actions[1..], t, v); }
  }

  lemma CancelledWhileStarted(g: Gate, actions: seq<Action>, t: TaskId, v: Verification)
    requires HasStarted(g, t, v) && !g.tasks[t].Answered?
    ensures var g' := Run(Next(g, Cancel(t)), actions); HasStarted(g', t, v) && g'.tasks[t].cancelled
  {
    CancellationStays(Next(g, Cancel(t)), actions, t, v);
  }

  /** Two steps answer it: its worker's end, and its own. */
  lemma WorkerAndResumeAnswer(g: Gate, t: TaskId, outcome: Outcome)
    requires t in g.tasks && g.tasks[t].Verifying?
    ensures Next(Next(g, WorkerDone(t, outcome)), Resume(t)).tasks
         == g.tasks[t := Answered(g.tasks[t].v, g.tasks[t].cancelled, outcome)]
  {
  }

  // ----- How long a failure holds the client back -----

  /** The failures of a client that are recorded in a row, no success in between and none later than
      ten minutes after the one before it, and when the last attempt was recorded. */
  function Streak(log: seq<Event>, client: Client): (nat, Time) {
    if log == [] then (0, 0.0)
    else
      var (n, last) := Streak(log[..|log| - 1], client);
      var e := log[|log| - 1];
      if e.v.client != client then (n, last)
      else if e.success then (0, e.at)
      else (if n > 0 && e.at - last <= ATTEMPT_WINDOW then n + 1 else 1, e.at)
  }

  /** The table has the count of every client whose last failure is not too long ago. */
  ghost predicate Counts(attempts: Attempts, log: seq<Event>, now: Time) {
    forall client: Client | client.Host? ::
      var (n, last) := Streak(log, client);
      if client in attempts then attempts[client].failures == n && attempts[client].lastSeen == last
      else n == 0 || now - last > ATTEMPT_WINDOW
  }

  ghost predicate DelaysOk(log: seq<Event>) {
    forall i | 0 <= i < |log| && log[i].v.client.Host? && !log[i].success ::
      log[i].delay == Delay(Streak(log[..i + 1], log[i].v.client).0)
  }

  ghost predicate Counted(g: Gate) {
    TableOk(g.attempts, g.now) && Counts(g.attempts, g.log, g.now) && DelaysOk(g.log)
  }

  lemma StreakAfter(log: seq<Event>, e: Event, client: Client)
    ensures e.v.client != client ==> Streak(log + [e], client) == Streak(log, client)
    ensures e.v.client == client && e.success ==> Streak(log + [e], client) == (0, e.at)
    ensures e.v.client == client && !e.success ==>
              var (n, last) := Streak(log, client);
              Streak(log + [e], client) == (if n > 0 && e.at - last <= ATTEMPT_WINDOW then n + 1 else 1, e.at)
  {
    assert (log + [e])[..|log|] == log;
  }

  lemma CleanupCounts(a: Attempts, log: seq<Event>, now: Time)
    requires TableOk(a, now) && Counts(a, log, now)
    ensures Counts(Cleanup(a, now), log, now)
  {
  }

  lemma RecordCounts(a: Attempts, log: seq<Event>, now: Time, e: Event)
    requires TableOk(a, now) && Counts(a, log, now) && e.at == now
    ensures Counts(Record(a, e.v.client, e.success, now), log + [e], now)
    ensures FailureOf(e, e.v.client) ==>
              e.v.client in Record(a, e.v.client, e.success, now)
              && Record(a, e.v.client, e.success, now)[e.v.client].failures == Streak(log + [e], e.v.client).0
  {
    CleanupCounts(a, log, now);
    var a' := Record(a, e.v.client, e.success, now);
    forall client: Client | client.Host?
      ensures var (n, last) := Streak(log + [e], client);
              if client in a' then a'[client].failures == n && a'[client].lastSeen == last else n == 0 || now - last > ATTEMPT_WINDOW
    {
      StreakAfter(log, e, client);
    }
  }

  lemma DelaysStay(log: seq<Event>, e: Event)
    requires DelaysOk(log)
    requires FailureOf(e, e.v.client) ==> e.delay == Delay(Streak(log + [e], e.v.client).0)
    ensures DelaysOk(log + [e])
  {
    var log' := log + [e];
    forall i | 0 <= i < |log'| && log'[i].v.client.Host? && !log'[i].success
      ensures log'[i].delay == Delay(Streak(log'[..i + 1], log'[i].v.client).0)
    {
      assert log'[..i + 1] == if i < |log| then log[..i + 1] else log + [e];
    }
  }

  lemma StillCounted(g: Gate, g': Gate)
    requires Counted(g) && g'.log == g.log && g'.now >= g.now
    requires g'.attempts == g.attempts || (g'.attempts == Cleanup(g.attempts, g.now) && g'.now == g.now)
    ensures Counted(g')
  {
    CleanupCounts(g.attempts, g.log, g.now);
  }

  lemma RecordedKeepsCounted(g: Gate, t: TaskId)
    requires Throttled(g) && Counted(g) && t in g.tasks && g.tasks[t].Finished? && !g.tasks[t].outcome.Broke?
    ensures Counted(Next(g, Resume(t)))
  {
    var f := g.tasks[t];
    var g' := Next(g, Resume(t));
    var e := g'.log[|g.log|];
    assert g'.log == g.log + [e] && g'.attempts == Record(g.attempts, e.v.client, e.success, g.now);
    RecordCounts(g.attempts, g.log, g.now, e);
    DelaysStay(g.log, e);
    RecordedKeepsThrottled(g, t);
  }

  /** A step that records nothing does no more to the table than to clean it. */
  lemma TableOnlyCleaned(g: Gate, a: Action)
    requires !ChangeOf(g, a).Recorded?
    ensures var g' := Next(g, a);
      && g'.log == g.log && g'.now >= g.now
      && (g'.attempts == g.attempts || (g'.attempts == Cleanup(g.attempts, g.now) && g'.now == g.now))
  {
  }

  lemma StepKeepsCounted(g: Gate, a: Action)
    requires Throttled(g) && Counted(g)
    ensures Counted(Next(g, a))
  {
    if ChangeOf(g, a).Recorded? {
      RecordedKeepsCounted(g, a.task);
    } else {
      TableOnlyCleaned(g, a);
      StillCounted(g, Next(g, a));
    }
  }

  lemma {:induction false} RunKeepsCounted(g: Gate, actions: seq<Action>)
    requires Throttled(g) && Counted(g)
    ensures Counted(Run(g, actions))
    decreases |actions|
  {
    if actions != [] {
      StepKeepsCounted(g, actions[0]);
      StepKeepsThrottled(g, actions[0]);
      RunKeepsCounted(Next(g, actions[0]), actions[1..]);
    }
  }

  /** In every run, a recorded failure holds its client back for the delay that belongs to the number
      of failures it has had in a row. */
  lemma DelayCountsTheStreak(actions: seq<Action>, i: nat)
    requires var log := Run(Opened, actions).log; i < |log| && FailureOf(log[i], log[i].v.client)
    ensures var log := Run(Opened, actions).log; log[i].delay == Delay(Streak(log[..i + 1], log[i].v.client).0)
  {
    OpenedIsValid();
    RunKeepsCounted(Opened, actions);
  }

  // ----- A start before the end of a recorded delay -----

  function Starting(t: TaskId, client: Client): seq<Action> { [Arrive(t, client), Acquire(t), Recheck(t)] }
  function Ending(t: TaskId, outcome: Outcome): seq<Action> { [WorkerDone(t, outcome), Resume(t)] }

  lemma {:induction false} RunTwice(g: Gate, a: seq<Action>, b: seq<Action>)
    ensures Run(g, a + b) == Run(Run(g, a), b)
    decreases |a|
  {
    if a == [] {
      assert a + b == b;
    } else {
      assert (a + b)[0] == a[0] && (a + b)[1..] == a[1..] + b;
      RunTwice(Next(g, a[0]), a[1..], b);
    }
  }

  lemma Starts(g: Gate, t: TaskId, client: Client)
    requires g.attempts == map[] && t !in g.tasks && g.permits > 0
    ensures Run(g, Starting(t, client))
         == g.(permits := g.permits - 1, nextTicket := g.nextTicket + 1,
               tasks := g.tasks[t := Verifying(Verification(client, g.nextTicket, g.now, |g.log|), false)])
  {
    var arrived := Next(g, Arrive(t, client));
    assert arrived == g.(tasks := g.tasks[t := Waiting(client)]);
    var holding := Next(arrived, Acquire(t));
    assert holding == g.(permits := g.permits - 1, tasks := g.tasks[t := Waiting(client)][t := Holding(client)]);
    assert Next(holding, Recheck(t)).tasks
        == g.tasks[t := Verifying(Verification(client, g.nextTicket, g.now, |g.log|), false)];
    RunThree(g, Arrive(t, client), Acquire(t), Recheck(t));
  }

  lemma RunThree(g: Gate, a: Action, b: Action, c: Action)
    ensures Run(g, [a, b, c]) == Next(Next(Next(g, a), b), c)
  {
    assert [a, b, c][1..] == [b, c];
    RunPair(Next(g, a), b, c);
  }

  lemma RunPair(g: Gate, a: Action, b: Action)
    ensures Run(g, [a, b]) == Next(Next(g, a), b)
  {
    assert [a, b][1..] == [b];
    assert Run(Next(g, a), [b]) == Run(Next(Next(g, a), b), []);
  }

  lemma Ends(g: Gate, t: TaskId, outcome: Outcome)
    requires t in g.tasks && g.tasks[t].Verifying? && !g.tasks[t].v.client.Anonymous? && !outcome.Broke?
    ensures var (v, g') := (g.tasks[t].v, Run(g, Ending(t, outcome)));
      && g'.attempts == Record(g.attempts, v.client, outcome.Correct?, g.now)
      && g'.permits == g.permits + 1 && g'.now == g.now && g'.nextTicket == g.nextTicket
      && g'.tasks == g.tasks[t := Answered(v, g.tasks[t].cancelled, outcome)]
      && g'.log == g.log + [Event(v, g.now, outcome.Correct?,
                                  if v.client in g'.attempts then Delay(g'.attempts[v.client].failures) else 0)]
  {
    var done := Next(g, WorkerDone(t, outcome));
    var f := Finished(g.tasks[t].v, g.tasks[t].cancelled, outcome);
    assert done == g.(tasks := g.tasks[t := f]);
    assert g.tasks[t := f][t := Answered(f.v, f.cancelled, outcome)] == g.tasks[t := Answered(f.v, f.cancelled, outcome)];
    RunPair(g, WorkerDone(t, outcome), Resume(t));
  }

  /** Two attempts run together; the first fails, the second succeeds. */
  function FailureAndSuccess(client: Client): seq<Action> {
    Starting(0, client) + Starting(1, client) + Ending(0, Wrong) + Ending(1, Correct)
  }

  lemma AfterFailureAndSuccess(client: Client)
    requires client.Host?
    ensures var g := Run(Opened, FailureAndSuccess(client));
            && g.attempts == map[] && g.permits == 2 && g.now == 0.0 && 2 !in g.tasks
            && |g.log| == 2 && FailureOf(g.log[0], client) && Until(g.log[0]) == 1.0
            && g.log[1].v.client == client && g.log[1].success
  {
    DelayTable();
    var one := Starting(0, client);
    var two := one + Starting(1, client);
    var three := two + Ending(0, Wrong);
    Starts(Opened, 0, client);
    var g1 := Run(Opened, one);
    RunTwice(Opened, one, Starting(1, client));
    Starts(g1, 1, client);
    var g2 := Run(Opened, two);
    RunTwice(Opened, two, Ending(0, Wrong));
    Ends(g2, 0, Wrong);
    var g3 := Run(Opened, three);
    RunTwice(Opened, three, Ending(1, Correct));
    Ends(g3, 1, Correct);
  }

  /** A success lifts every delay: after a failure and a success that ran together, the next
      attempt starts at once, before the failure's delay is over. */
  lemma SuccessLiftsTheDelay(client: Client)
    requires client.Host?
    ensures var g := Run(Opened, FailureAndSuccess(client) + Starting(2, client));
            && |g.log| == 2 && FailureOf(g.log[0], client) && g.log[1].v.client == client && g.log[1].success
            && 2 in g.tasks && g.tasks[2].Verifying? && g.tasks[2].v.client == client
            && g.tasks[2].v.since == 2 && g.tasks[2].v.start < Until(g.log[0])
  {
    AfterFailureAndSuccess(client);
    RunTwice(Opened, FailureAndSuccess(client), Starting(2, client));
    Starts(Run(Opened, FailureAndSuccess(client)), 2, client);
  }

  lemma PairIsTwo(a: nat, b: nat, s: set<nat>)
    requires a in s && b in s && a != b
    ensures |s| >= 2
  {
    SubsetSize({a, b}, s);
  }

  /** Of three consecutive failures of a client with no success between them, the third is
      recorded at least the first one's delay after the first. */
  lemma ThirdFailureWaits(actions: seq<Action>, client: Client, i: nat, j: nat, k: nat)
    requires var log := Run(Opened, actions).log;
             && i < j < k < |log| && FailureOf(log[i], client) && FailureOf(log[j], client) && FailureOf(log[k], client)
             && NoSuccess(log, i, k, client)
    ensures var log := Run(Opened, actions).log; log[k].at >= Until(log[i])
  {
    OpenedIsValid();
    RunKeepsValid(Opened, actions);
    var log := Run(Opened, actions).log;
    if log[j].v.since <= i && log[k].v.since <= i {
      PairIsTwo(j, k, LateSince(log, i));
    } else {
      var x := if log[j].v.since > i then j else k;
      assert NoSuccess(log, i, log[x].v.since, client);
      assert Until(log[i]) <= log[x].v.start <= log[x].at <= log[k].at;
    }
  }
}
