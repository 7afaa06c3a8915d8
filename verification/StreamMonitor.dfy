/** The monitor inside a stream, at the granularity of its sub-steps (xrpc/stream.go:85-170):
    any number of goroutines receive, push and close, each holding queueMu for a while, waiting
    on the condition variable, and updating the byte counter apart from the queue. */
module StreamMonitor {
  import opened Packets
  import opened Streams
  import opened StreamInvariants

  datatype Pc =
    | Outside
    // RecvMsg
    | WantsToReceive
    | AtLoop              // holds queueMu, about to test the queue length
    | Parked              // in Wait, not woken
    | Signalled           // woken, has not locked queueMu again
    | Popped(msg: StreamMsg)
    // onSocketRead
    | WantsToPush(msg: StreamMsg)
    | Pushing(msg: StreamMsg)
    | Pushed(msg: StreamMsg)
    | Counted
    // closeWithRemoteError
    | WantsToClose(error: string)
    | Closing(error: string)
    | Deactivated
    // holds queueMu, about to unlock it
    | Done

  datatype Monitor = Monitor(
    lock: Option<nat>,
    queue: seq<StreamMsg>,
    counter: int,
    active: bool,
    remoteError: string,
    threads: map<nat, Pc>)

  const EMPTY := Monitor(None, [], 0, true, "", map[])

  predicate Holds(pc: Pc) {
    pc.AtLoop? || pc.Popped? || pc.Pushing? || pc.Pushed? || pc.Counted? || pc.Closing? || pc.Deactivated? || pc.Done?
  }

  datatype MonitorOp =
    | BeginReceive | BeginPush(msg: StreamMsg) | BeginClose(error: string)
    | Acquire
    | Test                           // the loop test, and what follows it under the lock
    | Subtract
    | PushBack | Count
    | Signal(woken: Option<nat>)     // wakes one parked receiver, if there is one
    | Deactivate | Broadcast
    | Release

  predicate Is(s: Monitor, t: nat, pc: Pc) {
    t in s.threads && s.threads[t] == pc
  }

  predicate MayAcquire(pc: Pc) {
    pc.WantsToReceive? || pc.Signalled? || pc.WantsToPush? || pc.WantsToClose?
  }

  function AfterAcquire(pc: Pc): Pc {
    match pc
    case WantsToPush(m) => Pushing(m)
    case WantsToClose(e) => Closing(e)
    case _ => AtLoop
  }

  predicate CanDo(s: Monitor, t: nat, op: MonitorOp) {
    match op
    case BeginReceive => t in s.threads ==> s.threads[t].Outside?
    case BeginPush(m) => (t in s.threads ==> s.threads[t].Outside?) && m.payload.Data?
    case BeginClose(_) => t in s.threads ==> s.threads[t].Outside?
    case Acquire => t in s.threads && MayAcquire(s.threads[t]) && s.lock.None?
    case Test => Is(s, t, AtLoop)
    case Subtract => t in s.threads && s.threads[t].Popped? && s.threads[t].msg.payload.Data?
    case PushBack => t in s.threads && s.threads[t].Pushing?
    case Count => t in s.threads && s.threads[t].Pushed? && s.threads[t].msg.payload.Data?
    case Signal(u) =>
      Is(s, t, Counted) &&
      if u.Some? then Is(s, u.value, Parked) else forall v | v in s.threads :: !s.threads[v].Parked?
    case Deactivate => t in s.threads && s.threads[t].Closing?
    case Broadcast => Is(s, t, Deactivated)
    case Release => Is(s, t, Done)
  }

  function Move(s: Monitor, t: nat, pc: Pc): Monitor {
    s.(threads := s.threads[t := pc])
  }

  function Do(s: Monitor, t: nat, op: MonitorOp): Monitor
    requires CanDo(s, t, op)
  {
    match op
    case BeginReceive => Move(s, t, WantsToReceive)
    case BeginPush(m) => Move(s, t, WantsToPush(m))
    case BeginClose(e) => Move(s, t, WantsToClose(e))
    case Acquire => Move(s, t, AfterAcquire(s.threads[t])).(lock := Some(t))
    case Test =>
      if s.queue != [] then Move(s, t, Popped(s.queue[0])).(queue := s.queue[1..])
      else if !s.active then Move(s, t, Done)
      else Move(s, t, Parked).(lock := None)
    case Subtract => Move(s, t, Done).(counter := s.counter - |s.threads[t].msg.payload.any.value|)
    case PushBack => Move(s, t, Pushed(s.threads[t].msg)).(queue := s.queue + [s.threads[t].msg])
    case Count => Move(s, t, Counted).(counter := s.counter + |s.threads[t].msg.payload.any.value|)
    case Signal(u) => if u.Some? then Move(Move(s, u.value, Signalled), t, Done) else Move(s, t, Done)
    case Deactivate =>
      if s.active then Move(s, t, Deactivated).(active := false, remoteError := s.threads[t].error)
      else Move(s, t, Done)
    case Broadcast =>
      s.(threads := map u | u in s.threads ::
           if u == t then Done else if s.threads[u].Parked? then Signalled else s.threads[u])
    case Release => Move(s, t, Outside).(lock := None)
  }

  // ---------------------------------------------------------------- the invariant

  ghost function Asleep(s: Monitor): set<nat> { set t | t in s.threads && s.threads[t].Parked? }

  ghost function Woken(s: Monitor): set<nat> { set t | t in s.threads && s.threads[t].Signalled? }

  /** queueMu is held by exactly the goroutine inside a critical section. */
  ghost predicate LockOk(s: Monitor) {
    && (s.lock.Some? ==> s.lock.value in s.threads)
    && forall t | t in s.threads :: Holds(s.threads[t]) <==> s.lock == Some(t)
  }

  ghost predicate MessagesOk(s: Monitor) {
    && (forall m | m in s.queue :: m.payload.Data?)
    && (forall t | t in s.threads ::
          match s.threads[t]
          case Popped(m) => m.payload.Data?
          case WantsToPush(m) => m.payload.Data?
          case Pushing(m) => m.payload.Data?
          case Pushed(m) => s.queue != [] && s.queue[|s.queue|-1] == m
          case _ => true)
  }

  function Size(m: StreamMsg): int {
    if m.payload.Data? then |m.payload.any.value| else 0
  }

  /** The holder popped a message it has not subtracted yet, or pushed one not counted yet. */
  function Unsettled(s: Monitor): int {
    if s.lock.Some? && s.lock.value in s.threads then
      match s.threads[s.lock.value]
      case Popped(m) => Size(m)
      case Pushed(m) => 0 - Size(m)
      case _ => 0
    else 0
  }

  ghost predicate CounterOk(s: Monitor)
    requires MessagesOk(s)
  {
    s.counter == ByteSum(s.queue) + Unsettled(s)
  }

  /** A critical section that can still account for one more queued message: a push before its
      signal, or a receiver about to test the queue. */
  function Slack(s: Monitor): nat {
    if s.lock.Some? && s.lock.value in s.threads &&
       (s.threads[s.lock.value].Pushed? || s.threads[s.lock.value].Counted? || s.threads[s.lock.value].AtLoop?)
    then 1 else 0
  }

  ghost predicate WakeupsOk(s: Monitor) {
    Asleep(s) != {} ==>
      && (s.active || (s.lock.Some? && Is(s, s.lock.value, Deactivated)))
      && |s.queue| <= |Woken(s)| + Slack(s)
  }

  ghost predicate MonitorInv(s: Monitor) {
    LockOk(s) && MessagesOk(s) && CounterOk(s) && WakeupsOk(s)
  }

  lemma DoKeepsLock(s: Monitor, t: nat, op: MonitorOp)
    requires MonitorInv(s) && CanDo(s, t, op)
    ensures LockOk(Do(s, t, op))
  {
    hide MessagesOk, CounterOk, WakeupsOk;
  }

  lemma DoKeepsMessages(s: Monitor, t: nat, op: MonitorOp)
    requires LockOk(s) && MessagesOk(s) && CanDo(s, t, op)
    ensures MessagesOk(Do(s, t, op))
  {
    hide LockOk, MessagesOk, Do, CanDo;
    if op.Test? || op.PushBack? { QueueStepKeepsMessages(s, t, op); } else { OtherStepKeepsMessages(s, t, op); }
  }

  lemma QueueStepKeepsMessages(s: Monitor, t: nat, op: MonitorOp)
    requires LockOk(s) && MessagesOk(s) && CanDo(s, t, op) && (op.Test? || op.PushBack?)
    ensures MessagesOk(Do(s, t, op))
  {
  }

  lemma OtherStepKeepsMessages(s: Monitor, t: nat, op: MonitorOp)
    requires LockOk(s) && MessagesOk(s) && CanDo(s, t, op) && !op.Test? && !op.PushBack?
    ensures MessagesOk(Do(s, t, op))
  {
    assert Do(s, t, op).queue == s.queue;
  }

  lemma DoKeepsCounter(s: Monitor, t: nat, op: MonitorOp)
    requires LockOk(s) && MessagesOk(s) && CounterOk(s) && CanDo(s, t, op) && MessagesOk(Do(s, t, op))
    ensures CounterOk(Do(s, t, op))
  {
    hide CounterOk;
    if op.Test? { TestKeepsCounter(s, t); }
    else if op.PushBack? { PushKeepsCounter(s, t); }
    else { OtherStepKeepsCounter(s, t, op); }
  }

  lemma TestKeepsCounter(s: Monitor, t: nat)
    requires LockOk(s) && MessagesOk(s) && CounterOk(s) && CanDo(s, t, Test) && MessagesOk(Do(s, t, Test))
    ensures CounterOk(Do(s, t, Test))
  {
    if s.queue != [] { ByteSumPop(s.queue); }
    hide ByteSum;
  }

  lemma PushKeepsCounter(s: Monitor, t: nat)
    requires LockOk(s) && MessagesOk(s) && CounterOk(s) && CanDo(s, t, PushBack) && MessagesOk(Do(s, t, PushBack))
    ensures CounterOk(Do(s, t, PushBack))
  {
    PushUnsettles(s, t);
    ByteSumAppend(s.queue, s.threads[t].msg);
    hide ByteSum, Unsettled, Do, CanDo, LockOk;
  }

  lemma PushUnsettles(s: Monitor, t: nat)
    requires LockOk(s) && MessagesOk(s) && CanDo(s, t, PushBack)
    ensures s.threads[t].msg.payload.Data? && Do(s, t, PushBack).queue == s.queue + [s.threads[t].msg]
    ensures Do(s, t, PushBack).counter == s.counter && Unsettled(s) == 0
    ensures Unsettled(Do(s, t, PushBack)) == 0 - |s.threads[t].msg.payload.any.value|
  {
  }

  lemma OtherStepKeepsCounter(s: Monitor, t: nat, op: MonitorOp)
    requires LockOk(s) && MessagesOk(s) && CounterOk(s) && CanDo(s, t, op) && MessagesOk(Do(s, t, op))
    requires !op.Test? && !op.PushBack?
    ensures CounterOk(Do(s, t, op))
  {
    hide ByteSum;
  }

  /** How a step changes the sleepers and the woken. */
  lemma Wakes(s: Monitor, t: nat, op: MonitorOp)
    requires CanDo(s, t, op)
    ensures var s' := Do(s, t, op);
            && (op.Broadcast? ==> Asleep(s') == {})
            && (op.Signal? && op.woken.Some? ==>
                  Woken(s') == Woken(s) + {op.woken.value} && op.woken.value !in Woken(s))
            && (op.Acquire? && s.threads[t].Signalled? ==> Woken(s') == Woken(s) - {t} && t in Woken(s))
            && (!op.Broadcast? && !op.Signal? && !(op.Acquire? && s.threads[t].Signalled?) ==> Woken(s') == Woken(s))
            && (op.Signal? && op.woken.None? ==> Asleep(s') == {})
            && (!(op.Test? && s.queue == [] && s.active) ==> Asleep(s') <= Asleep(s))
  {
  }

  lemma DoKeepsWakeups(s: Monitor, t: nat, op: MonitorOp)
    requires LockOk(s) && WakeupsOk(s) && CanDo(s, t, op)
    ensures WakeupsOk(Do(s, t, op))
  {
    Wakes(s, t, op);
    hide Asleep, Woken, WakeupsOk;
    if op.Acquire? || op.Signal? || op.Test? { LockStepKeepsWakeups(s, t, op); }
    else { OtherStepKeepsWakeups(s, t, op); }
  }

  lemma LockStepKeepsWakeups(s: Monitor, t: nat, op: MonitorOp)
    requires LockOk(s) && WakeupsOk(s) && CanDo(s, t, op) && (op.Acquire? || op.Signal? || op.Test?)
    ensures WakeupsOk(Do(s, t, op))
  {
    Wakes(s, t, op);
    hide Asleep, Woken;
    assert Asleep(s) == {} ==> Asleep(Do(s, t, op)) == {} || (op.Test? && s.queue == [] && s.active);
  }

  lemma OtherStepKeepsWakeups(s: Monitor, t: nat, op: MonitorOp)
    requires LockOk(s) && WakeupsOk(s) && CanDo(s, t, op) && !op.Acquire? && !op.Signal? && !op.Test?
    ensures WakeupsOk(Do(s, t, op))
  {
    Wakes(s, t, op);
    hide Asleep, Woken;
    assert Asleep(s) == {} ==> Asleep(Do(s, t, op)) == {};
  }

  lemma DoKeepsMonitor(s: Monitor, t: nat, op: MonitorOp)
    requires MonitorInv(s) && CanDo(s, t, op)
    ensures MonitorInv(Do(s, t, op))
  {
    hide LockOk, MessagesOk, CounterOk, WakeupsOk;
    DoKeepsLock(s, t, op);
    DoKeepsMessages(s, t, op);
    DoKeepsCounter(s, t, op);
    DoKeepsWakeups(s, t, op);
  }

  datatype MonitorStep = MonitorStep(thread: nat, op: MonitorOp)

  function RunMonitor(s: Monitor, steps: seq<MonitorStep>): Option<Monitor>
    decreases |steps|
  {
    if steps == [] then Some(s)
    else if CanDo(s, steps[0].thread, steps[0].op) then
      RunMonitor(Do(s, steps[0].thread, steps[0].op), steps[1..])
    else None
  }

  lemma {:induction false} RunKeepsMonitor(s: Monitor, steps: seq<MonitorStep>)
    requires MonitorInv(s) && RunMonitor(s, steps).Some?
    ensures MonitorInv(RunMonitor(s, steps).value)
    decreases |steps|
  {
    if steps != [] {
      hide MonitorInv;
      DoKeepsMonitor(s, steps[0].thread, steps[0].op);
      RunKeepsMonitor(Do(s, steps[0].thread, steps[0].op), steps[1..]);
    }
  }

  // ---------------------------------------------------------------- the guarantees

  /** No wake-up is lost, for any number of receivers. Whenever queueMu is free and a receiver
      is parked without having been signalled, the stream is open and every queued message has
      its own signalled receiver on the way; so when no receiver is on the way, the sleepers
      sleep because there is nothing to receive and no close to report. While queueMu is held
      this is off by at most the one message the holder is about to announce or to take. */
  lemma NoLostWakeup(steps: seq<MonitorStep>)
    requires RunMonitor(EMPTY, steps).Some?
    ensures var s := RunMonitor(EMPTY, steps).value;
            Asleep(s) != {} ==>
              && |s.queue| <= |Woken(s)| + 1
              && (s.lock.None? ==> s.active && |s.queue| <= |Woken(s)|)
              && (s.lock.None? && Woken(s) == {} ==> s.queue == [])
  {
    RunKeepsMonitor(EMPTY, steps);
    assert WakeupsOk(RunMonitor(EMPTY, steps).value);
    hide RunMonitor, Asleep, Woken;
  }

  /** A close releases everybody: once it is over, no receiver is parked. */
  lemma CloseReleasesReceivers(steps: seq<MonitorStep>)
    requires RunMonitor(EMPTY, steps).Some?
    ensures var s := RunMonitor(EMPTY, steps).value; !s.active && s.lock.None? ==> Asleep(s) == {}
  {
    RunKeepsMonitor(EMPTY, steps);
    hide RunMonitor, Asleep, Woken;
  }

  /** The counter GetIncomingQueueLen reads without the lock is the queued byte total, plus a
      popped message not subtracted yet, minus a pushed one not counted yet; it is never
      negative, and exact whenever queueMu is free. */
  lemma CounterIsAccurate(steps: seq<MonitorStep>)
    requires RunMonitor(EMPTY, steps).Some?
    ensures var s := RunMonitor(EMPTY, steps).value;
            && (forall m | m in s.queue :: m.payload.Data?)
            && s.counter == ByteSum(s.queue) + Unsettled(s)
            && s.counter >= 0
            && (s.lock.None? ==> s.counter == ByteSum(s.queue))
  {
    RunKeepsMonitor(EMPTY, steps);
    var s := RunMonitor(EMPTY, steps).value;
    assert LockOk(s) && MessagesOk(s) && CounterOk(s);
    hide RunMonitor;
    if s.lock.Some? && s.threads[s.lock.value].Pushed? {
      LastIsCounted(s.queue);
    }
  }

  lemma LastIsCounted(q: seq<StreamMsg>)
    requires q != [] && forall m | m in q :: m.payload.Data?
    ensures ByteSum(q) >= Size(q[|q|-1])
  {
  }

  // ---------------------------------------------------------------- the sub-steps make up the operations

  /** The part of a stream's state the monitor protects. */
  function Inside(s: Monitor, st: Stream): Stream {
    st.(queue := s.queue, queueByteLen := s.counter, active := s.active, remoteError := s.remoteError)
  }

  /** Run under one lock, the sub-steps of a push, a receive and a close are the operations of
      the stream that the connection machine uses. */
  lemma SubstepsMakeOperations(s: Monitor, st: Stream, t: nat)
    requires MonitorInv(s) && t in s.threads && st == Inside(s, st)
    ensures s.threads[t].Pushing? ==>
              CanDo(s, t, PushBack) && CanDo(Do(s, t, PushBack), t, Count) &&
              Inside(Do(Do(s, t, PushBack), t, Count), st) == Push(st, s.threads[t].msg)
    ensures s.threads[t].AtLoop? && s.queue != [] ==>
              CanDo(Do(s, t, Test), t, Subtract) &&
              Inside(Do(Do(s, t, Test), t, Subtract), st) == PopFront(st)
    ensures s.threads[t].Closing? ==>
              Inside(Do(s, t, Deactivate), st) == CloseWith(st, s.threads[t].error)
  {
    hide CounterOk, WakeupsOk;
    assert s.queue != [] ==> s.queue[0] in s.queue;
  }

  // ---------------------------------------------------------------- operations among others

  predicate OthersOnly(steps: seq<MonitorStep>, t: nat) {
    forall i | 0 <= i < |steps| :: steps[i].thread != t
  }

  /** The stream looks the same in both. */
  predicate Same(s: Monitor, s': Monitor) {
    s'.queue == s.queue && s'.counter == s.counter && s'.active == s.active && s'.remoteError == s.remoteError
  }

  /** `t` is at `pc` in `s'`; if it held queueMu in `s` it still does, and the stream is the same. */
  predicate Stays(s: Monitor, s': Monitor, t: nat, pc: Pc) {
    Is(s', t, pc) && (s.lock == Some(t) ==> s'.lock == Some(t) && Same(s, s'))
  }

  lemma OtherKeeps(s: Monitor, t: nat, pc: Pc, step: MonitorStep)
    requires LockOk(s) && CanDo(s, step.thread, step.op) && step.thread != t && Is(s, t, pc) && !pc.Parked?
    ensures Stays(s, Do(s, step.thread, step.op), t, pc)
  {
  }

  /** Steps of other goroutines leave a goroutine where it is, unless it is parked; while it holds
      queueMu they leave the stream as it is. */
  lemma {:induction false} OthersKeep(s: Monitor, t: nat, pc: Pc, steps: seq<MonitorStep>)
    requires MonitorInv(s) && RunMonitor(s, steps).Some? && OthersOnly(steps, t) && Is(s, t, pc) && !pc.Parked?
    ensures MonitorInv(RunMonitor(s, steps).value) && Stays(s, RunMonitor(s, steps).value, t, pc)
    decreases |steps|
  {
    hide LockOk, MessagesOk, CounterOk, WakeupsOk, Do, CanDo;
    if steps != [] {
      OtherKeeps(s, t, pc, steps[0]);
      DoKeepsMonitor(s, steps[0].thread, steps[0].op);
      assert OthersOnly(steps[1..], t) by { assert forall i | 0 <= i < |steps| - 1 :: steps[1..][i] == steps[i + 1]; }
      OthersKeep(Do(s, steps[0].thread, steps[0].op), t, pc, steps[1..]);
    }
  }

  /** One step of `t`, and then any of others. */
  function Thus(s: Monitor, t: nat, op: MonitorOp, others: seq<MonitorStep>): Option<Monitor> {
    if CanDo(s, t, op) && OthersOnly(others, t) then RunMonitor(Do(s, t, op), others) else None
  }

  lemma ThusStays(s: Monitor, t: nat, op: MonitorOp, others: seq<MonitorStep>, pc: Pc)
    requires MonitorInv(s) && Thus(s, t, op, others).Some? && Is(Do(s, t, op), t, pc) && !pc.Parked?
    ensures MonitorInv(Thus(s, t, op, others).value) && Stays(Do(s, t, op), Thus(s, t, op, others).value, t, pc)
  {
    hide MonitorInv, Do, CanDo, Is, Stays;
    DoKeepsMonitor(s, t, op);
    OthersKeep(Do(s, t, op), t, pc, others);
  }

  /** `t` begins an operation, and later gets queueMu. */
  predicate Enters(s: Monitor, t: nat, op: MonitorOp, before: seq<MonitorStep>, within: seq<MonitorStep>) {
    && (op.BeginReceive? || op.BeginPush? || op.BeginClose?)
    && Thus(s, t, op, before).Some? && Thus(Thus(s, t, op, before).value, t, Acquire, within).Some?
  }

  /** The stream as `t` finds it, and while it holds queueMu. */
  function Found(s: Monitor, t: nat, op: MonitorOp, before: seq<MonitorStep>, within: seq<MonitorStep>): Monitor
    requires Enters(s, t, op, before, within)
  {
    Thus(Thus(s, t, op, before).value, t, Acquire, within).value
  }

  lemma FoundAt(s: Monitor, t: nat, op: MonitorOp, before: seq<MonitorStep>, within: seq<MonitorStep>)
    requires MonitorInv(s) && Enters(s, t, op, before, within)
    ensures var u, v := Thus(s, t, op, before).value, Found(s, t, op, before, within);
            && u.lock.None? && MonitorInv(v) && v.lock == Some(t) && Same(u, v)
            && Is(v, t, match op
                        case BeginPush(m) => Pushing(m)
                        case BeginClose(error) => Closing(error)
                        case _ => AtLoop)
  {
    hide MonitorInv, Thus;
    BeginsAt(s, t, op, before);
    var u := Thus(s, t, op, before).value;
    AcquiresAt(u, t, within);
  }

  lemma BeginsAt(s: Monitor, t: nat, op: MonitorOp, before: seq<MonitorStep>)
    requires MonitorInv(s) && Thus(s, t, op, before).Some? && (op.BeginReceive? || op.BeginPush? || op.BeginClose?)
    ensures var u := Thus(s, t, op, before).value;
            && MonitorInv(u)
            && Is(u, t, match op
                        case BeginPush(m) => WantsToPush(m)
                        case BeginClose(error) => WantsToClose(error)
                        case _ => WantsToReceive)
  {
    hide MonitorInv, RunMonitor, OthersOnly;
    ThusStays(s, t, op, before, match op
                                case BeginPush(m) => WantsToPush(m)
                                case BeginClose(error) => WantsToClose(error)
                                case _ => WantsToReceive);
  }

  lemma AcquiresAt(u: Monitor, t: nat, within: seq<MonitorStep>)
    requires MonitorInv(u) && Thus(u, t, Acquire, within).Some?
    ensures var v := Thus(u, t, Acquire, within).value;
            && u.lock.None? && MonitorInv(v) && v.lock == Some(t) && Same(u, v) && t in u.threads
            && Is(v, t, AfterAcquire(u.threads[t]))
  {
    hide MonitorInv, RunMonitor, OthersOnly;
    ThusStays(u, t, Acquire, within, AfterAcquire(u.threads[t]));
  }

  /** closeWithRemoteError(error), with any steps of other goroutines in between, closes the stream it finds
      open when it gets queueMu, with the text passed in, and leaves one it finds closed as it is. */
  lemma CloseAmongOthers(s: Monitor, t: nat, error: string, before: seq<MonitorStep>, within: seq<MonitorStep>)
    requires MonitorInv(s) && Enters(s, t, BeginClose(error), before, within)
    ensures var u, v := Thus(s, t, BeginClose(error), before).value, Found(s, t, BeginClose(error), before, within);
            && CanDo(v, t, Deactivate)
            && var r := Do(v, t, Deactivate);
            && r.queue == u.queue && r.counter == u.counter && !r.active
            && r.remoteError == if u.active then error else u.remoteError
  {
    FoundAt(s, t, BeginClose(error), before, within);
    hide MonitorInv, Enters, Thus, Found;
  }

  /** onSocketRead(m), with any steps of other goroutines in between, puts that message at the end of the
      queue it finds when it gets queueMu and counts its bytes. */
  lemma PushAmongOthers(s: Monitor, t: nat, m: StreamMsg, before: seq<MonitorStep>, within: seq<MonitorStep>,
                        between: seq<MonitorStep>)
    requires MonitorInv(s) && Enters(s, t, BeginPush(m), before, within)
    requires Thus(Found(s, t, BeginPush(m), before, within), t, PushBack, between).Some?
    ensures m.payload.Data?
    ensures var u := Thus(s, t, BeginPush(m), before).value;
            var v := Thus(Found(s, t, BeginPush(m), before, within), t, PushBack, between).value;
            && CanDo(v, t, Count)
            && var r := Do(v, t, Count);
            && r.queue == u.queue + [m] && r.counter == u.counter + |m.payload.any.value|
            && r.active == u.active && r.remoteError == u.remoteError
  {
    assert m.payload.Data?;
    FoundAt(s, t, BeginPush(m), before, within);
    var v := Found(s, t, BeginPush(m), before, within);
    hide MonitorInv, Enters, Thus, Found;
    ThusStays(v, t, PushBack, between, Pushed(m));
    hide Stays, Do;
    PushCounts(v, t, m, Thus(v, t, PushBack, between).value);
  }

  lemma PushCounts(v: Monitor, t: nat, m: StreamMsg, w: Monitor)
    requires v.lock == Some(t) && Is(v, t, Pushing(m)) && m.payload.Data? && Stays(Do(v, t, PushBack), w, t, Pushed(m))
    ensures CanDo(w, t, Count)
    ensures var r := Do(w, t, Count);
            && r.queue == v.queue + [m] && r.counter == v.counter + |m.payload.any.value|
            && r.active == v.active && r.remoteError == v.remoteError
  {
  }

  /** RecvMsg, with any steps of other goroutines in between: finding the queue not empty when it gets
      queueMu it takes the first message and subtracts its bytes; finding the stream closed and
      the queue empty it takes nothing and leaves; else it parks. */
  lemma ReceiveAmongOthers(s: Monitor, t: nat, before: seq<MonitorStep>, within: seq<MonitorStep>,
                           between: seq<MonitorStep>)
    requires MonitorInv(s) && Enters(s, t, BeginReceive, before, within)
    requires Thus(Found(s, t, BeginReceive, before, within), t, Test, between).Some?
    ensures var u, v := Thus(s, t, BeginReceive, before).value, Found(s, t, BeginReceive, before, within);
            var x := Thus(v, t, Test, between).value;
            && (u.queue != [] ==>
                  && CanDo(x, t, Subtract) && u.queue[0].payload.Data?
                  && var r := Do(x, t, Subtract);
                  && r.queue == u.queue[1..] && r.counter == u.counter - |u.queue[0].payload.any.value|
                  && r.active == u.active && r.remoteError == u.remoteError)
            && (u.queue == [] && !u.active ==> Is(x, t, Done) && Same(u, x))
            && (u.queue == [] && u.active ==> t in Asleep(Do(v, t, Test)) && Do(v, t, Test).lock.None?)
  {
    FoundAt(s, t, BeginReceive, before, within);
    var v := Found(s, t, BeginReceive, before, within);
    QueuedIsData(v);
    hide MonitorInv, Enters, Thus, Found;
    if v.queue != [] {
      ThusStays(v, t, Test, between, Popped(v.queue[0]));
    } else if !v.active {
      ThusStays(v, t, Test, between, Done);
    }
  }

  lemma QueuedIsData(s: Monitor)
    requires MonitorInv(s)
    ensures s.queue != [] ==> s.queue[0].payload.Data?
  {
  }
}
