/** _RecordQueueListener of app/logger.py: callers put records and flush requests into a
    bounded queue, one daemon thread takes them out and hands each record to every handler.

    Each action below is one step that the locks of the original make atomic. A timed-out
    `get` and the check of the stop flag after it are two steps, as in the code. An action
    that is not enabled leaves the state alone, so every sequence of actions is a run and
    every interleaving of callers and the thread is a sequence of actions. */
module RecordQueue {
  datatype Level = Debug | Info | Warning | Error | Critical

  datatype Record = Record(number: nat, level: Level)

  datatype Item = Log(record: Record) | Flush(ticket: nat)

  /** Where the listener thread is. `next` is the handler it turns to. */
  datatype Phase =
    | NotStarted
    | Getting
    | SawEmpty
    | Handling(record: Record, next: nat)
    | Flushing(ticket: nat, next: nat)
    | Closing
    | Exited

  /** What was offered, and what became of it. */
  datatype Entrance = Entrance(offered: seq<Record>, accepted: seq<Record>, dropped: seq<Record>,
                               droppedRecords: nat, droppedByLevel: map<Level, nat>)

  /** For each flush request the number of records accepted before it, which requests have
      been signalled, and what flush answered. */
  datatype Flushes = Flushes(tickets: seq<nat>, done: set<nat>, answers: map<nat, bool>, timeouts: nat)

  /** How things stood at the last get that timed out. */
  datatype EmptyMark = EmptyMark(accepted: nat, stopping: bool)

  datatype Listener = Listener(
    capacity: nat, queue: seq<Item>, stopping: bool, phase: Phase, handlerFailures: nat,
    handled: seq<seq<Record>>, entrance: Entrance, flushes: Flushes, mark: EmptyMark)

  function Init(handlers: nat, capacity: nat): Listener {
    Listener(if capacity < 1 then 1 else capacity, [], false, NotStarted, 0, seq(handlers, i => []),
             Entrance([], [], [], 0, map[]), Flushes([], {}, map[], 0), EmptyMark(0, false))
  }

  datatype Action =
    | Start
    | Enqueue(record: Record)
    | RequestFlush
    | AnswerFlush(ticket: nat, sinksClean: bool)
    | TimeOutFlush(ticket: nat)
    | Stop
    | Get
    | GetTimesOut
    | CheckStop
    | HandleOne(raises: bool)
    | FlushOne(raises: bool)
    | Finish

  predicate Alive(s: Listener) { !s.phase.NotStarted? && !s.phase.Exited? }

  function Accept(e: Entrance, r: Record): Entrance {
    e.(offered := e.offered + [r], accepted := e.accepted + [r])
  }

  function Drop(e: Entrance, r: Record): Entrance {
    var before := if r.level in e.droppedByLevel then e.droppedByLevel[r.level] else 0;
    e.(offered := e.offered + [r], dropped := e.dropped + [r], droppedRecords := e.droppedRecords + 1,
       droppedByLevel := e.droppedByLevel[r.level := before + 1])
  }

  function Next(s: Listener, a: Action): Listener {
    match a
    case Start => if s.phase.NotStarted? then s.(phase := Getting) else s
    case Enqueue(r) =>
      if s.stopping || |s.queue| >= s.capacity then s.(entrance := Drop(s.entrance, r))
      else s.(queue := s.queue + [Log(r)], entrance := Accept(s.entrance, r))
    case RequestFlush => NextRequest(s)
    case AnswerFlush(t, sinksClean) =>
      if t in s.flushes.done && t !in s.flushes.answers
      then s.(flushes := s.flushes.(answers := s.flushes.answers[t := s.handlerFailures == 0 && sinksClean])) else s
    case TimeOutFlush(t) =>
      if t < |s.flushes.tickets| && t !in s.flushes.answers
      then s.(flushes := s.flushes.(answers := s.flushes.answers[t := false], timeouts := s.flushes.timeouts + 1)) else s
    case Stop => s.(stopping := true)
    case Get => NextGet(s)
    case GetTimesOut =>
      if s.phase.Getting? && s.queue == []
      then s.(phase := SawEmpty, mark := EmptyMark(|s.entrance.accepted|, s.stopping)) else s
    case CheckStop =>
      if s.phase.SawEmpty? then s.(phase := if s.stopping then Closing else Getting) else s
    case HandleOne(raises) => NextHandle(s, raises)
    case FlushOne(raises) => NextFlush(s, raises)
    case Finish => if s.phase.Closing? then s.(phase := Exited) else s
  }

  function NextRequest(s: Listener): Listener {
    if !Alive(s) || s.stopping then s
    else if |s.queue| >= s.capacity then s.(flushes := s.flushes.(timeouts := s.flushes.timeouts + 1))
    else s.(queue := s.queue + [Flush(|s.flushes.tickets|)],
            flushes := s.flushes.(tickets := s.flushes.tickets + [|s.entrance.accepted|]))
  }

  function NextGet(s: Listener): Listener {
    if !s.phase.Getting? || s.queue == [] then s
    else s.(queue := s.queue[1..],
            phase := match s.queue[0] case Log(r) => Handling(r, 0) case Flush(t) => Flushing(t, 0))
  }

  /** One handler takes the record in hand; a handler that raises has still had it. */
  function NextHandle(s: Listener, raises: bool): Listener {
    if !s.phase.Handling? then s
    else if s.phase.next >= |s.handled| then s.(phase := Getting)
    else
      var h := s.phase.next;
      s.(handled := s.handled[h := s.handled[h] + [s.phase.record]],
         handlerFailures := s.handlerFailures + (if raises then 1 else 0),
         phase := Handling(s.phase.record, h + 1))
  }

  function NextFlush(s: Listener, raises: bool): Listener {
    if !s.phase.Flushing? then s
    else if s.phase.next >= |s.handled|
    then s.(phase := Getting, flushes := s.flushes.(done := s.flushes.done + {s.phase.ticket}))
    else s.(handlerFailures := s.handlerFailures + (if raises then 1 else 0),
            phase := Flushing(s.phase.ticket, s.phase.next + 1))
  }

  function Run(s: Listener, actions: seq<Action>): Listener
    decreases |actions|
  {
    if actions == [] then s else Run(Next(s, actions[0]), actions[1..])
  }

  // ----- Readings of a state -----

  /** The records among queued items, in order. */
  function Logs(items: seq<Item>): seq<Record> {
    if items == [] then []
    else (match items[0] case Log(r) => [r] case Flush(_) => []) + Logs(items[1..])
  }

  /** The record being handed round, for handlers that have not had it yet. */
  function InHand(p: Phase, h: nat): seq<Record> {
    if p.Handling? && h >= p.next then [p.record] else []
  }

  function CountLevel(rs: seq<Record>, level: Level): nat {
    if rs == [] then 0 else CountLevel(rs[..|rs| - 1], level) + (if rs[|rs| - 1].level == level then 1 else 0)
  }

  predicate Ended(s: Listener) { s.phase.Closing? || s.phase.Exited? }

  // ----- Invariant -----

  /** Nothing is lost or invented at the entrance. */
  ghost predicate Conserved(e: Entrance) {
    && multiset(e.offered) == multiset(e.accepted) + multiset(e.dropped)
    && e.droppedRecords == |e.dropped|
    && forall l :: CountLevel(e.dropped, l) == if l in e.droppedByLevel then e.droppedByLevel[l] else 0
  }

  /** What a handler had, what is on its way to it and what is queued make up the accepted records. */
  ghost predicate Fifo(handled: seq<seq<Record>>, phase: Phase, logs: seq<Record>, accepted: seq<Record>) {
    forall h | 0 <= h < |handled| :: handled[h] + InHand(phase, h) + logs == accepted
  }

  /** Each flush request remembers the records accepted before it, and stays behind them. */
  ghost predicate FlushesBehind(queue: seq<Item>, tickets: seq<nat>, accepted: nat) {
    forall p | 0 <= p < |queue| && queue[p].Flush? ::
      queue[p].ticket < |tickets| && tickets[queue[p].ticket] + |Logs(queue[p..])| == accepted
  }

  ghost predicate FlushesDone(f: Flushes, handled: seq<seq<Record>>) {
    && (forall t | t in f.done :: t < |f.tickets| && forall h | 0 <= h < |handled| :: f.tickets[t] <= |handled[h]|)
    && (forall t | t in f.answers && f.answers[t] :: t in f.done)
  }

  ghost predicate FlushInHand(s: Listener) {
    s.phase.Flushing? ==>
      && s.phase.ticket < |s.flushes.tickets|
      && s.flushes.tickets[s.phase.ticket] + |Logs(s.queue)| == |s.entrance.accepted|
  }

  /** After a timed-out get the queue holds what was accepted since. */
  ghost predicate EmptySeen(s: Listener) {
    s.phase.SawEmpty? || Ended(s) ==>
      && s.mark.accepted <= |s.entrance.accepted| && Logs(s.queue) == s.entrance.accepted[s.mark.accepted..]
      && (s.mark.stopping ==> s.stopping && s.mark.accepted == |s.entrance.accepted|)
      && (Ended(s) ==> s.stopping)
  }

  ghost predicate Valid(s: Listener) {
    && 1 <= s.capacity && |s.queue| <= s.capacity
    && Conserved(s.entrance)
    && Fifo(s.handled, s.phase, Logs(s.queue), s.entrance.accepted)
    && FlushesBehind(s.queue, s.flushes.tickets, |s.entrance.accepted|)
    && FlushesDone(s.flushes, s.handled) && FlushInHand(s)
    && EmptySeen(s)
  }

  // ----- One step -----

  lemma LogsJoin(a: seq<Item>, b: seq<Item>)
    ensures Logs(a + b) == Logs(a) + Logs(b)
  {
    if a == [] {
      assert a + b == b;
    } else {
      LogsJoin(a[1..], b);
      assert (a + b)[1..] == a[1..] + b;
    }
  }

  lemma DropConserves(e: Entrance, r: Record)
    requires Conserved(e)
    ensures Conserved(Drop(e, r))
  {
    assert Drop(e, r).dropped[..|e.dropped|] == e.dropped;
  }

  lemma BehindGrows(queue: seq<Item>, item: Item, tickets: seq<nat>, more: seq<nat>, accepted: nat)
    requires FlushesBehind(queue, tickets, accepted)
    requires match item case Log(_) => more == [] case Flush(t) => t == |tickets| && more == [accepted]
    ensures Logs(queue + [item]) == Logs(queue) + Logs([item])
    ensures FlushesBehind(queue + [item], tickets + more, accepted + |Logs([item])|)
  {
    LogsJoin(queue, [item]);
    var q := queue + [item];
    forall p | 0 <= p < |q| && q[p].Flush?
      ensures q[p].ticket < |tickets + more| && (tickets + more)[q[p].ticket] + |Logs(q[p..])| == accepted + |Logs([item])|
    {
      if p < |queue| {
        assert q[p..] == queue[p..] + [item];
        LogsJoin(queue[p..], [item]);
      } else {
        assert q[p..] == [item];
      }
    }
  }

  lemma BehindShrinks(queue: seq<Item>, tickets: seq<nat>, accepted: nat)
    requires FlushesBehind(queue, tickets, accepted) && queue != []
    ensures FlushesBehind(queue[1..], tickets, accepted)
    ensures queue[0].Flush? ==> queue[0].ticket < |tickets| && tickets[queue[0].ticket] + |Logs(queue[1..])| == accepted
  {
    var q := queue[1..];
    forall p | 0 <= p < |q| && q[p].Flush?
      ensures q[p].ticket < |tickets| && tickets[q[p].ticket] + |Logs(q[p..])| == accepted
    {
      assert q[p] == queue[p + 1] && q[p..] == queue[p + 1..];
    }
    assert queue[0..] == queue;
  }

  lemma EnqueueKeepsValid(s: Listener, r: Record)
    requires Valid(s)
    ensures Valid(Next(s, Enqueue(r)))
  {
    if s.stopping || |s.queue| >= s.capacity {
      DropConserves(s.entrance, r);
    } else {
      AcceptKeepsValid(s, r);
    }
  }

  lemma AcceptKeepsValid(s: Listener, r: Record)
    requires Valid(s) && !s.stopping && |s.queue| < s.capacity
    ensures Valid(s.(queue := s.queue + [Log(r)], entrance := Accept(s.entrance, r)))
  {
    var accepted, logs := s.entrance.accepted, Logs(s.queue);
    assert Logs(s.queue + [Log(r)]) == logs + [r] && FlushesBehind(s.queue + [Log(r)], s.flushes.tickets, |accepted| + 1) by {
      BehindGrows(s.queue, Log(r), s.flushes.tickets, [], |accepted|);
      assert s.flushes.tickets + [] == s.flushes.tickets;
    }
    FifoGrows(s.handled, s.phase, logs, accepted, r);
    assert Conserved(Accept(s.entrance, r));
    if s.phase.SawEmpty? {
      assert (accepted + [r])[s.mark.accepted..] == accepted[s.mark.accepted..] + [r];
    }
  }

  lemma FifoGrows(handled: seq<seq<Record>>, phase: Phase, logs: seq<Record>, accepted: seq<Record>, r: Record)
    requires Fifo(handled, phase, logs, accepted)
    ensures Fifo(handled, phase, logs + [r], accepted + [r])
  {
    forall h | 0 <= h < |handled| ensures handled[h] + InHand(phase, h) + (logs + [r]) == accepted + [r] {
      assert handled[h] + InHand(phase, h) + (logs + [r]) == (handled[h] + InHand(phase, h) + logs) + [r];
    }
  }

  lemma RequestKeepsValid(s: Listener)
    requires Valid(s)
    ensures Valid(NextRequest(s))
  {
    if NextRequest(s).queue != s.queue {
      BehindGrows(s.queue, Flush(|s.flushes.tickets|), s.flushes.tickets, [|s.entrance.accepted|], |s.entrance.accepted|);
      assert Logs([Flush(|s.flushes.tickets|)]) == [];
      assert Logs(s.queue) + [] == Logs(s.queue);
    }
  }

  lemma GetKeepsValid(s: Listener)
    requires Valid(s)
    ensures Valid(NextGet(s))
  {
    var s' := NextGet(s);
    if s.phase.Getting? && s.queue != [] {
      BehindShrinks(s.queue, s.flushes.tickets, |s.entrance.accepted|);
      GetKeepsFifo(s.handled, s.queue, s.entrance.accepted);
      assert FlushesDone(s'.flushes, s'.handled) && Conserved(s'.entrance);
    }
  }

  lemma GetKeepsFifo(handled: seq<seq<Record>>, queue: seq<Item>, accepted: seq<Record>)
    requires Fifo(handled, Getting, Logs(queue), accepted) && queue != []
    ensures Fifo(handled, match queue[0] case Log(r) => Handling(r, 0) case Flush(t) => Flushing(t, 0), Logs(queue[1..]), accepted)
  {
    var p := match queue[0] case Log(r) => Handling(r, 0) case Flush(t) => Flushing(t, 0);
    forall h | 0 <= h < |handled| ensures handled[h] + InHand(p, h) + Logs(queue[1..]) == accepted {
      assert handled[h] + InHand(Getting, h) + Logs(queue) == accepted;
    }
  }

  lemma HandleKeepsValid(s: Listener, raises: bool)
    requires Valid(s)
    ensures Valid(NextHandle(s, raises))
  {
    if s.phase.Handling? {
      HandleKeepsFifo(s.handled, s.phase.record, s.phase.next, Logs(s.queue), s.entrance.accepted);
      if s.phase.next < |s.handled| {
        HandOverKeepsValid(s, NextHandle(s, raises));
      }
    }
  }

  lemma HandOverKeepsValid(s: Listener, s': Listener)
    requires Valid(s) && s.phase.Handling? && s'.phase.Handling?
    requires s' == s.(handled := s'.handled, handlerFailures := s'.handlerFailures, phase := s'.phase)
    requires |s'.handled| == |s.handled| && forall h | 0 <= h < |s.handled| :: |s.handled[h]| <= |s'.handled[h]|
    requires Fifo(s'.handled, s'.phase, Logs(s'.queue), s'.entrance.accepted)
    ensures Valid(s')
  {
    MoreHandled(s.flushes, s.handled, s'.handled);
  }

  lemma MoreHandled(f: Flushes, handled: seq<seq<Record>>, later: seq<seq<Record>>)
    requires FlushesDone(f, handled) && |later| == |handled|
    requires forall h | 0 <= h < |handled| :: |handled[h]| <= |later[h]|
    ensures FlushesDone(f, later)
  {
  }

  lemma HandleKeepsFifo(handled: seq<seq<Record>>, r: Record, next: nat, logs: seq<Record>, accepted: seq<Record>)
    requires Fifo(handled, Handling(r, next), logs, accepted)
    ensures next < |handled| ==> Fifo(handled[next := handled[next] + [r]], Handling(r, next + 1), logs, accepted)
    ensures next >= |handled| ==> Fifo(handled, Getting, logs, accepted)
  {
    forall h | 0 <= h < |handled|
      ensures handled[h] + (if h >= next then [r] else []) + logs == accepted
    {
      assert handled[h] + InHand(Handling(r, next), h) + logs == accepted;
    }
  }

  lemma FlushKeepsValid(s: Listener, raises: bool)
    requires Valid(s)
    ensures Valid(NextFlush(s, raises))
  {
    if s.phase.Flushing? && s.phase.next >= |s.handled| {
      forall h | 0 <= h < |s.handled| ensures s.flushes.tickets[s.phase.ticket] <= |s.handled[h]| {
        assert s.handled[h] + InHand(s.phase, h) + Logs(s.queue) == s.entrance.accepted;
      }
      assert FlushesDone(NextFlush(s, raises).flushes, s.handled);
      assert FlushesBehind(s.queue, s.flushes.tickets, |s.entrance.accepted|);
      assert Fifo(s.handled, Getting, Logs(s.queue), s.entrance.accepted);
    }
  }

  lemma StepKeepsValid(s: Listener, a: Action)
    requires Valid(s)
    ensures Valid(Next(s, a))
  {
    match a
    case Enqueue(r) => EnqueueKeepsValid(s, r);
    case RequestFlush => RequestKeepsValid(s);
    case Get => GetKeepsValid(s);
    case HandleOne(raises) => HandleKeepsValid(s, raises);
    case FlushOne(raises) => FlushKeepsValid(s, raises);
    case AnswerFlush(_, _) => AnswerKeepsValid(s, a);
    case TimeOutFlush(_) => AnswerKeepsValid(s, a);
    case _ => PhaseKeepsValid(s, a);
  }

  lemma AnswerKeepsValid(s: Listener, a: Action)
    requires Valid(s) && (a.AnswerFlush? || a.TimeOutFlush?)
    ensures Valid(Next(s, a))
  {
    assert FlushesDone(Next(s, a).flushes, s.handled);
  }

  /** Steps that move only the thread or the stop flag. */
  lemma PhaseKeepsValid(s: Listener, a: Action)
    requires Valid(s) && (a.Start? || a.Stop? || a.GetTimesOut? || a.CheckStop? || a.Finish?)
    ensures Valid(Next(s, a))
  {
    var s' := Next(s, a);
    assert s' == s.(phase := s'.phase, stopping := s'.stopping, mark := s'.mark);
    if s' != s { FifoStays(s.handled, s.phase, s'.phase, Logs(s.queue), s.entrance.accepted); }
  }

  lemma FifoStays(handled: seq<seq<Record>>, phase: Phase, phase': Phase, logs: seq<Record>, accepted: seq<Record>)
    requires Fifo(handled, phase, logs, accepted) && (phase' == phase || (!phase.Handling? && !phase'.Handling?))
    ensures Fifo(handled, phase', logs, accepted)
  {
    forall h | 0 <= h < |handled| ensures InHand(phase', h) == InHand(phase, h) {}
  }

  // ----- Every run -----

  lemma {:induction false} RunKeepsValid(s: Listener, actions: seq<Action>)
    requires Valid(s)
    ensures Valid(Run(s, actions))
    decreases |actions|
  {
    if actions != [] {
      StepKeepsValid(s, actions[0]);
      RunKeepsValid(Next(s, actions[0]), actions[1..]);
    }
  }

  lemma {:induction false} RunIsValid(handlers: nat, capacity: nat, actions: seq<Action>)
    ensures Valid(Run(Init(handlers, capacity), actions))
  {
    RunKeepsValid(Init(handlers, capacity), actions);
  }

  lemma {:induction false} ShapeIsFixed(s: Listener, actions: seq<Action>)
    ensures Run(s, actions).capacity == s.capacity && |Run(s, actions).handled| == |s.handled|
    decreases |actions|
  {
    if actions != [] { ShapeIsFixed(Next(s, actions[0]), actions[1..]); }
  }

  /** In every interleaving: offered records are accepted or dropped, none both; the drop
      counters are right; the queue stays within its capacity. */
  lemma NothingLostAtEntrance(handlers: nat, capacity: nat, actions: seq<Action>)
    ensures var s := Run(Init(handlers, capacity), actions); var e := s.entrance;
            && multiset(e.offered) == multiset(e.accepted) + multiset(e.dropped)
            && |e.offered| == |e.accepted| + e.droppedRecords
            && (forall l :: CountLevel(e.dropped, l) == if l in e.droppedByLevel then e.droppedByLevel[l] else 0)
            && |s.queue| <= (if capacity < 1 then 1 else capacity)
  {
    RunIsValid(handlers, capacity, actions);
    ShapeIsFixed(Init(handlers, capacity), actions);
    var e := Run(Init(handlers, capacity), actions).entrance;
    assert |multiset(e.offered)| == |multiset(e.accepted)| + |multiset(e.dropped)|;
  }

  /** What is offered is accepted, as the last item of the queue, exactly if stop has not been called
      and there is room. Otherwise it is dropped, and the queue is left alone. */
  ghost predicate TakenIffRoom(s: Listener, s': Listener, r: Record) {
    if !s.stopping && |s.queue| < s.capacity
    then s'.queue == s.queue + [Log(r)] && s'.entrance.accepted == s.entrance.accepted + [r]
         && s'.entrance.dropped == s.entrance.dropped
    else s'.queue == s.queue && s'.entrance.accepted == s.entrance.accepted
         && s'.entrance.dropped == s.entrance.dropped + [r]
  }

  /** At any point of any run: nothing but an offer changes what is accepted or dropped, and an
      offer is dropped only if stop has been called or the queue holds `capacity` items. */
  lemma DroppedIffNoRoom(handlers: nat, capacity: nat, actions: seq<Action>, i: nat)
    requires i < |actions|
    ensures var s, s' := Run(Init(handlers, capacity), actions[..i]), Run(Init(handlers, capacity), actions[..i + 1]);
            && (if actions[i].Enqueue? then TakenIffRoom(s, s', actions[i].record)
                else s'.entrance.accepted == s.entrance.accepted && s'.entrance.dropped == s.entrance.dropped)
            && (s.stopping <==> Stop in actions[..i]) && s.capacity == (if capacity < 1 then 1 else capacity)
  {
    RunAppend(Init(handlers, capacity), actions[..i], actions[i]);
    assert actions[..i + 1] == actions[..i] + [actions[i]];
    ShapeIsFixed(Init(handlers, capacity), actions[..i]);
    StoppingIffStopped(Init(handlers, capacity), actions[..i]);
  }

  lemma {:induction false} StoppingIffStopped(s: Listener, actions: seq<Action>)
    ensures Run(s, actions).stopping <==> s.stopping || Stop in actions
    decreases |actions|
  {
    if actions != [] { StoppingIffStopped(Next(s, actions[0]), actions[1..]); }
  }

  /** The records that a run offers, in order. */
  function Offered(actions: seq<Action>): seq<Record> {
    if actions == [] then [] else (match actions[0] case Enqueue(r) => [r] case _ => []) + Offered(actions[1..])
  }

  /** How many items a run offers to the queue. */
  function Puts(actions: seq<Action>): nat {
    if actions == [] then 0 else (if actions[0].Enqueue? || actions[0].RequestFlush? then 1 else 0) + Puts(actions[1..])
  }

  lemma {:induction false} RoomForAll(s: Listener, actions: seq<Action>)
    requires !s.stopping && Stop !in actions && |s.queue| + Puts(actions) <= s.capacity
    ensures var e := Run(s, actions).entrance;
            e.dropped == s.entrance.dropped && e.accepted == s.entrance.accepted + Offered(actions)
    decreases |actions|
  {
    if actions != [] { RoomForAll(Next(s, actions[0]), actions[1..]); }
  }

  /** A run that is not stopped and offers no more items than the queue has room for accepts every
      record, in order, however slow the thread is. */
  lemma RoomDropsNothing(handlers: nat, capacity: nat, actions: seq<Action>)
    requires Stop !in actions && Puts(actions) <= capacity
    ensures var e := Run(Init(handlers, capacity), actions).entrance; e.dropped == [] && e.accepted == Offered(actions)
  {
    RoomForAll(Init(handlers, capacity), actions);
  }

  /** Every handler has seen a prefix of the accepted records, in order and without gaps,
      whichever handlers raised; an earlier handler is at most one record ahead. */
  lemma HandledIsFifoPrefix(handlers: nat, capacity: nat, actions: seq<Action>, h: nat, k: nat)
    requires h <= k < handlers
    ensures var s := Run(Init(handlers, capacity), actions);
            && |s.handled| == handlers && s.handled[h] <= s.entrance.accepted
            && |s.handled[k]| <= |s.handled[h]| <= |s.handled[k]| + 1
  {
    RunIsValid(handlers, capacity, actions);
    ShapeIsFixed(Init(handlers, capacity), actions);
    var s := Run(Init(handlers, capacity), actions);
    assert s.handled[h] + InHand(s.phase, h) + Logs(s.queue) == s.entrance.accepted;
    assert s.handled[k] + InHand(s.phase, k) + Logs(s.queue) == s.entrance.accepted;
  }

  /** Once stop has been called nothing more is accepted, whatever happens. */
  lemma {:induction false} NothingAcceptedAfterStop(s: Listener, actions: seq<Action>)
    requires s.stopping
    ensures Run(s, actions).stopping && Run(s, actions).entrance.accepted == s.entrance.accepted
    decreases |actions|
  {
    if actions != [] { NothingAcceptedAfterStop(Next(s, actions[0]), actions[1..]); }
  }

  /** A flush that answers true: every record accepted before it was requested has been through
      every handler. */
  lemma TrueFlushMeansHandled(handlers: nat, capacity: nat, actions: seq<Action>, t: nat, h: nat)
    requires var f := Run(Init(handlers, capacity), actions).flushes; t in f.answers && f.answers[t]
    requires h < handlers
    ensures var s := Run(Init(handlers, capacity), actions);
            && t < |s.flushes.tickets| && s.flushes.tickets[t] <= |s.entrance.accepted|
            && h < |s.handled| && s.entrance.accepted[..s.flushes.tickets[t]] <= s.handled[h]
  {
    RunIsValid(handlers, capacity, actions);
    ShapeIsFixed(Init(handlers, capacity), actions);
    var s := Run(Init(handlers, capacity), actions);
    assert s.handled[h] + InHand(s.phase, h) + Logs(s.queue) == s.entrance.accepted;
  }

  /** When the thread has left its loop, every handler has seen exactly the records accepted
      before the last get that timed out. Nothing is left over exactly when no record was
      accepted after that get, and in particular when stop came before it. */
  lemma ExitLeavesExactly(handlers: nat, capacity: nat, actions: seq<Action>, h: nat)
    requires Ended(Run(Init(handlers, capacity), actions)) && h < handlers
    ensures var s := Run(Init(handlers, capacity), actions); var accepted := s.entrance.accepted;
            && h < |s.handled| && s.mark.accepted <= |accepted|
            && s.handled[h] == accepted[..s.mark.accepted]
            && (s.handled[h] == accepted <==> s.mark.accepted == |accepted|)
            && (s.mark.stopping ==> s.handled[h] == accepted)
  {
    RunIsValid(handlers, capacity, actions);
    ShapeIsFixed(Init(handlers, capacity), actions);
    var s := Run(Init(handlers, capacity), actions);
    assert s.handled[h] + InHand(s.phase, h) + Logs(s.queue) == s.entrance.accepted;
    assert s.entrance.accepted[..s.mark.accepted] + s.entrance.accepted[s.mark.accepted..] == s.entrance.accepted;
  }

  // ----- The thread gets through -----

  /** What the thread does next when nothing else moves; `raises` is for the handler it turns to. */
  function ThreadAction(s: Listener, raises: bool): Action {
    match s.phase
    case NotStarted => Start
    case Getting => if s.queue == [] then GetTimesOut else Get
    case SawEmpty => CheckStop
    case Handling(_, _) => HandleOne(raises)
    case Flushing(_, _) => FlushOne(raises)
    case _ => Finish
  }

  /** The thread on its own for |raises| steps. */
  function Alone(s: Listener, raises: seq<bool>): Listener
    decreases |raises|
  {
    if raises == [] then s else Alone(Next(s, ThreadAction(s, raises[0])), raises[1..])
  }

  /** How many steps the thread still has to do for what it has in hand. */
  function InRound(phase: Phase, handlers: nat): nat {
    if phase.Handling? || phase.Flushing? then (if phase.next < handlers then handlers - phase.next else 0) + 1 else 0
  }

  /** How many steps the thread needs to empty the queue. */
  function Work(items: nat, phase: Phase, handlers: nat): nat {
    if items == 0 then InRound(phase, handlers) else handlers + 2 + Work(items - 1, phase, handlers)
  }

  predicate Taking(p: Phase) { p.Getting? || p.Handling? || p.Flushing? }

  lemma {:induction false} WorkOfRound(items: nat, phase: Phase, phase': Phase, handlers: nat)
    ensures Work(items, phase', handlers) - InRound(phase', handlers) == Work(items, phase, handlers) - InRound(phase, handlers)
    decreases items
  {
    if items > 0 { WorkOfRound(items - 1, phase, phase', handlers); }
  }

  lemma StepDoesWork(s: Listener, raises: bool)
    requires Taking(s.phase) && Work(|s.queue|, s.phase, |s.handled|) > 0
    ensures var s' := Next(s, ThreadAction(s, raises));
            && Taking(s'.phase) && |s'.handled| == |s.handled| && s'.stopping == s.stopping
            && s'.entrance == s.entrance && s'.flushes.tickets == s.flushes.tickets
            && Work(|s'.queue|, s'.phase, |s'.handled|) + 1 == Work(|s.queue|, s.phase, |s.handled|)
  {
    var s' := Next(s, ThreadAction(s, raises));
    WorkOfRound(|s'.queue|, s.phase, s'.phase, |s.handled|);
  }

  /** The flush requests that are queued or in hand. */
  ghost predicate Waiting(s: Listener, t: nat) {
    Flush(t) in s.queue || (s.phase.Flushing? && s.phase.ticket == t)
  }

  lemma StepServes(s: Listener, raises: bool, t: nat)
    requires Taking(s.phase) && (Waiting(s, t) || t in s.flushes.done)
    ensures var s' := Next(s, ThreadAction(s, raises)); Waiting(s', t) || t in s'.flushes.done
  {
    if s.phase.Getting? && Flush(t) in s.queue && Flush(t) != s.queue[0] { assert Flush(t) in s.queue[1..]; }
  }

  lemma {:induction false} Served(s: Listener, raises: seq<bool>, t: nat)
    requires Taking(s.phase) && |raises| == Work(|s.queue|, s.phase, |s.handled|) && (Waiting(s, t) || t in s.flushes.done)
    ensures t in Alone(s, raises).flushes.done
    decreases |raises|
  {
    WorkIsPositive(|s.queue|, s.phase, |s.handled|);
    if raises != [] {
      StepDoesWork(s, raises[0]);
      StepServes(s, raises[0], t);
      Served(Next(s, ThreadAction(s, raises[0])), raises[1..], t);
    }
  }

  lemma WorkIsPositive(items: nat, phase: Phase, handlers: nat)
    ensures items > 0 ==> Work(items, phase, handlers) > 0
  {
  }

  lemma {:induction false} Emptied(s: Listener, raises: seq<bool>)
    requires Valid(s) && Taking(s.phase) && |raises| == Work(|s.queue|, s.phase, |s.handled|)
    ensures var s' := Alone(s, raises);
            && Valid(s') && s'.phase == Getting && s'.queue == [] && s'.stopping == s.stopping
            && s'.entrance == s.entrance && |s'.handled| == |s.handled|
    decreases |raises|
  {
    WorkIsPositive(|s.queue|, s.phase, |s.handled|);
    if raises != [] {
      StepDoesWork(s, raises[0]);
      StepKeepsValid(s, ThreadAction(s, raises[0]));
      Emptied(Next(s, ThreadAction(s, raises[0])), raises[1..]);
    }
  }

  /** Whatever the state, a thread that has not seen the queue empty gets through it in a known
      number of its own steps, whichever handlers raise: then every handler has had every accepted
      record, and every flush request has been signalled. */
  lemma ThreadGetsThrough(handlers: nat, capacity: nat, actions: seq<Action>, raises: seq<bool>)
    requires var s := Run(Init(handlers, capacity), actions);
             Taking(s.phase) && |raises| == Work(|s.queue|, s.phase, handlers)
    ensures var s, s' := Run(Init(handlers, capacity), actions), Alone(Run(Init(handlers, capacity), actions), raises);
            && s'.phase == Getting && s'.queue == [] && s'.stopping == s.stopping && s'.entrance == s.entrance
            && s'.handled == seq(handlers, h => s.entrance.accepted)
            && forall t: nat | Waiting(s, t) :: t in s'.flushes.done
  {
    RunIsValid(handlers, capacity, actions);
    ShapeIsFixed(Init(handlers, capacity), actions);
    var s := Run(Init(handlers, capacity), actions);
    Emptied(s, raises);
    var s' := Alone(s, raises);
    forall h | 0 <= h < handlers ensures s'.handled[h] == s.entrance.accepted {
      assert s'.handled[h] + InHand(s'.phase, h) + Logs(s'.queue) == s'.entrance.accepted;
    }
    forall t: nat | Waiting(s, t) ensures t in s'.flushes.done { Served(s, raises, t); }
  }

  /** A thread that finds the queue empty leaves exactly if stop has been called. */
  lemma IdleThreadLeavesIff(s: Listener, a: bool, b: bool, c: bool)
    requires s.phase.Getting? && s.queue == []
    ensures Alone(s, [a, b, c]).phase == (if s.stopping then Exited else SawEmpty)
  {
    var s1 := Next(s, GetTimesOut);
    var s2 := Next(s1, CheckStop);
    AloneOne(s, a, [b, c]);
    AloneOne(s1, b, [c]);
    AloneOne(s2, c, []);
  }

  lemma AloneOne(s: Listener, raises: bool, rest: seq<bool>)
    ensures Alone(s, [raises] + rest) == Alone(Next(s, ThreadAction(s, raises)), rest)
  {
    assert ([raises] + rest)[1..] == rest;
  }

  /** The answer to a flush that has been signalled: whether no handler has failed and the sinks
      are clean. */
  lemma AnswerIs(s: Listener, t: nat, sinksClean: bool)
    requires t in s.flushes.done && t !in s.flushes.answers
    ensures var f := Next(s, AnswerFlush(t, sinksClean)).flushes;
            t in f.answers && (f.answers[t] <==> s.handlerFailures == 0 && sinksClean)
  {
  }

  /** Once a handler has failed, no flush answers true any more. */
  lemma {:induction false} NoTrueAnswerAfterAFailure(s: Listener, actions: seq<Action>, t: nat)
    requires s.handlerFailures > 0
    requires var f := Run(s, actions).flushes; t in f.answers && f.answers[t]
    ensures t in s.flushes.answers && s.flushes.answers[t]
    decreases |actions|
  {
    if actions != [] { NoTrueAnswerAfterAFailure(Next(s, actions[0]), actions[1..], t); }
  }

  /** The shutdown race: a record accepted and a stop requested between the timed-out get and
      the check of the stop flag. The thread leaves and the record reaches no handler. */
  lemma DrainCanMissARecord(r: Record)
    ensures var s := Run(Init(1, 512), [Start, GetTimesOut, Enqueue(r), Stop, CheckStop, Finish]);
            s.phase == Exited && s.entrance.accepted == [r] && s.handled == [[]] && s.entrance.dropped == []
  {
    var s := Init(1, 512);
    var race := [Start, GetTimesOut, Enqueue(r), Stop, CheckStop, Finish];
    RunThree(s, race);
    var missed := Next(Next(Next(s, Start), GetTimesOut), Enqueue(r));
    RunThree(missed, race[3..]);
    assert race[3..][3..] == [];
  }

  lemma RunThree(s: Listener, actions: seq<Action>)
    requires |actions| >= 3
    ensures Run(s, actions) == Run(Next(Next(Next(s, actions[0]), actions[1]), actions[2]), actions[3..])
  {
    var s1 := Next(s, actions[0]);
    var s2 := Next(s1, actions[1]);
    RunOne(s, actions);
    RunOne(s1, actions[1..]);
    assert actions[1..][1..] == actions[2..];
    RunOne(s2, actions[2..]);
    assert actions[2..][1..] == actions[3..];
  }

  lemma RunOne(s: Listener, actions: seq<Action>)
    requires actions != []
    ensures Run(s, actions) == Run(Next(s, actions[0]), actions[1..])
  {
  }

  // ----- The listener object -----

  class RecordQueueListener {
    var capacity: nat
    var queue: seq<Item>
    var stopping: bool
    var phase: Phase
    var handlerFailures: nat
    var handled: seq<seq<Record>>
    var entrance: Entrance
    var flushes: Flushes
    var mark: EmptyMark

    function State(): Listener
      reads this
    {
      Listener(capacity, queue, stopping, phase, handlerFailures, handled, entrance, flushes, mark)
    }

    constructor (handlers: nat, capacity: nat)
      ensures State() == Init(handlers, capacity)
    {
      this.capacity := if capacity < 1 then 1 else capacity;
      queue, stopping, phase, handlerFailures, handled := [], false, NotStarted, 0, seq(handlers, i => []);
      entrance, flushes, mark := Entrance([], [], [], 0, map[]), Flushes([], {}, map[], 0), EmptyMark(0, false);
    }

    /** enqueue, under the state lock. */
    method Enqueue(record: Record)
      modifies `queue, `entrance
      ensures State() == Next(old(State()), Action.Enqueue(record))
      ensures TakenIffRoom(old(State()), State(), record)
    {
      if !stopping && |queue| < capacity {
        queue := queue + [Log(record)];
        entrance := Accept(entrance, record);
        return;
      }
      RecordDrop(record);
    }

    /** _record_drop */
    method RecordDrop(record: Record)
      modifies `entrance
      ensures entrance == Drop(old(entrance), record)
    {
      var before := if record.level in entrance.droppedByLevel then entrance.droppedByLevel[record.level] else 0;
      entrance := entrance.(offered := entrance.offered + [record], dropped := entrance.dropped + [record],
                            droppedRecords := entrance.droppedRecords + 1,
                            droppedByLevel := entrance.droppedByLevel[record.level := before + 1]);
    }

    /** The locked part of flush; `accepted` says whether there is something to wait for. */
    method RequestFlush() returns (accepted: bool)
      modifies `queue, `flushes
      ensures State() == Next(old(State()), Action.RequestFlush)
      ensures accepted <==> Alive(old(State())) && !stopping && |old(queue)| < capacity
      ensures accepted ==> queue == old(queue) + [Flush(|old(flushes).tickets|)]
                           && flushes.tickets == old(flushes).tickets + [|entrance.accepted|]
      ensures !accepted ==> queue == old(queue) && flushes.tickets == old(flushes).tickets
    {
      if phase.NotStarted? || phase.Exited? || stopping { return false; }
      if |queue| >= capacity {
        flushes := flushes.(timeouts := flushes.timeouts + 1);
        return false;
      }
      queue := queue + [Flush(|flushes.tickets|)];
      flushes := flushes.(tickets := flushes.tickets + [|entrance.accepted|]);
      accepted := true;
    }

    /** The locked part of stop. */
    method RequestStop()
      modifies `stopping
      ensures State() == Next(old(State()), Stop)
    {
      stopping := true;
    }

    /** The loop of _run over the handlers, for the record in hand; `raises` says which of them
        raise. Every handler gets the record. */
    method HandRound(raises: seq<bool>)
      requires phase.Handling? && phase.next == 0 && |raises| == |handled|
      modifies `phase, `handled, `handlerFailures
      ensures State() == Run(old(State()), RoundActions(raises))
      ensures phase == Getting && |handled| == |old(handled)|
      ensures forall h | 0 <= h < |handled| :: handled[h] == old(handled)[h] + [old(phase).record]
    {
      ghost var start := State();
      var record := phase.record;
      for h := 0 to |handled|
        invariant |handled| == |raises| && phase == Handling(record, h)
        invariant State() == Run(start, RoundActions(raises)[..h])
        invariant forall k | 0 <= k < |handled| :: handled[k] == if k < h then start.handled[k] + [record] else start.handled[k]
      {
        RoundGrows(start, raises, h);
        handled := handled[h := handled[h] + [record]];
        if raises[h] { handlerFailures := handlerFailures + 1; }
        phase := Handling(record, h + 1);
      }
      RoundEnds(start, raises);
      phase := Getting;
    }
  }

  /** The actions of one round over the handlers. */
  function RoundActions(raises: seq<bool>): seq<Action> {
    seq(|raises|, i requires 0 <= i < |raises| => HandleOne(raises[i])) + [HandleOne(false)]
  }

  lemma RoundGrows(s: Listener, raises: seq<bool>, h: nat)
    requires h < |raises|
    ensures Run(s, RoundActions(raises)[..h + 1]) == NextHandle(Run(s, RoundActions(raises)[..h]), raises[h])
  {
    RunAppend(s, RoundActions(raises)[..h], HandleOne(raises[h]));
    assert RoundActions(raises)[..h + 1] == RoundActions(raises)[..h] + [HandleOne(raises[h])];
  }

  lemma RoundEnds(s: Listener, raises: seq<bool>)
    ensures Run(s, RoundActions(raises)) == NextHandle(Run(s, RoundActions(raises)[..|raises|]), false)
  {
    RunAppend(s, RoundActions(raises)[..|raises|], HandleOne(false));
    assert RoundActions(raises) == RoundActions(raises)[..|raises|] + [HandleOne(false)];
  }

  lemma {:induction false} RunAppend(s: Listener, actions: seq<Action>, a: Action)
    ensures Run(s, actions + [a]) == Next(Run(s, actions), a)
    decreases |actions|
  {
    if actions == [] {
      RunOne(s, [a]);
    } else {
      assert (actions + [a])[1..] == actions[1..] + [a];
      RunAppend(Next(s, actions[0]), actions[1..], a);
    }
  }
}
