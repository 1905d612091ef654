/**
 The blocking protocol of queue.c: tasks and interrupts act on one queue in
 atomic sections, in any order the scheduler allows. A task about to block
 suspends the scheduler and locks the queue; interrupts then only count their
 posts and removals, and unlocking replays the counts on the event lists.
 */
module QueueProtocol {
  import opened KernelTypes
  import opened Sequences

  datatype Op = Receive | Peek | Send | Overwrite

  predicate Receiving(op: Op) {
    op.Receive? || op.Peek?
  }

  const UNLOCKED := -1
  const INT8_MAX := 127

  // ---- The queue fields the protocol works on, and its atomic sections ----

  datatype Queue = Queue(n: nat, tx: int, rx: int, receivers: seq<Task>, senders: seq<Task>)

  // The task an event takes from an event list, if any.
  function Woken(list: seq<Task>): set<Task> {
    if list == [] then {} else {list[0]}
  }

  function Rest(list: seq<Task>): seq<Task> {
    if list == [] then [] else list[1..]
  }

  function Least(a: int, b: nat): nat {
    if a < 0 then 0 else if a < b then a else b
  }

  function Put(q: Queue, overwriting: bool): Queue {
    if overwriting && q.n > 0 then q else q.(n := q.n + 1)
  }

  function Post(q: Queue, overwriting: bool): Queue {
    Put(q, overwriting).(receivers := Rest(q.receivers))
  }

  function Take(q: Queue): Queue
    requires q.n > 0
  {
    q.(n := q.n - 1, senders := Rest(q.senders))
  }

  function Look(q: Queue): Queue {
    q.(receivers := Rest(q.receivers))
  }

  // A lock count is capped at the number of tasks.
  function Counted(lock: int, tasks: nat): int {
    if lock < tasks then lock + 1 else lock
  }

  function PostFromISR(q: Queue, overwriting: bool, tasks: nat): Queue {
    if q.tx == UNLOCKED then Post(q, overwriting) else Put(q, overwriting).(tx := Counted(q.tx, tasks))
  }

  function TakeFromISR(q: Queue, tasks: nat): Queue
    requires q.n > 0
  {
    if q.rx == UNLOCKED then Take(q) else q.(n := q.n - 1, rx := Counted(q.rx, tasks))
  }

  function Lock(q: Queue): Queue {
    q.(tx := if q.tx == UNLOCKED then 0 else q.tx, rx := if q.rx == UNLOCKED then 0 else q.rx)
  }

  function UnlockTx(q: Queue): Queue {
    q.(tx := UNLOCKED, receivers := q.receivers[Least(q.tx, |q.receivers|)..])
  }

  function UnlockRx(q: Queue): Queue {
    q.(rx := UNLOCKED, senders := q.senders[Least(q.rx, |q.senders|)..])
  }

  // ---- The whole system ----

  datatype Config = Config(length: nat, tasks: nat)

  // Where a task is: not in a call; about to enter the section that tries the operation (or blocked there); about to
  // suspend the scheduler after a failed try; or resumed after its block time expired.
  datatype Pc = Outside | Top(op: Op) | Failed(op: Op) | Expired(op: Op)

  // What the task that suspended the scheduler does next.
  datatype Stage = Locking | CheckingTime | CheckingQueue | Placing | UnlockingTx(expired: bool) | UnlockingRx(expired: bool)
                 | Resuming(expired: bool)

  datatype Scheduler = Running | Suspended(task: Task, stage: Stage)

  // wokenR and wokenS: taken from an event list by an event and not run since.
  datatype State = State(q: Queue, pc: map<Task, Pc>, sched: Scheduler, ghost wokenR: set<Task>, ghost wokenS: set<Task>)

  datatype Action =
    | Call(t: Task, op: Op)
    | Try(t: Task, mayBlock: bool)
    | Suspend(t: Task)
    | LockQueue
    | CheckTime(expired: bool)
    | CheckQueue
    | Place(position: nat)
    | UnlockTransmit
    | UnlockReceive
    | Resume
    | Recheck(t: Task)
    | TimeOut(t: Task)
    | SendFromISR(overwriting: bool)
    | ReceiveFromISR

  predicate Blocked(s: State, t: Task) {
    t in s.q.receivers || t in s.q.senders
  }

  predicate Runs(s: State, t: Task) {
    s.sched.Running? && t in s.pc && !Blocked(s, t)
  }

  predicate Succeeds(c: Config, s: State, op: Op) {
    match op
    case Receive | Peek => s.q.n > 0
    case Send => s.q.n < c.length
    case Overwrite => true
  }

  function HolderOp(s: State): Op
    requires s.sched.Suspended? && s.sched.task in s.pc
  {
    var pc := s.pc[s.sched.task];
    if pc.Outside? then Receive else pc.op
  }

  function WaitList(s: State): seq<Task>
    requires s.sched.Suspended? && s.sched.task in s.pc
  {
    if Receiving(HolderOp(s)) then s.q.receivers else s.q.senders
  }

  predicate AtStage(s: State, stage: Stage) {
    s.sched.Suspended? && s.sched.task in s.pc && s.sched.stage == stage
  }

  predicate Enabled(c: Config, s: State, a: Action) {
    match a
    case Call(t, op) => Runs(s, t) && s.pc[t].Outside? && (op.Overwrite? ==> c.length == 1)
    case Try(t, _) => Runs(s, t) && s.pc[t].Top?
    case Suspend(t) => Runs(s, t) && s.pc[t].Failed?
    case LockQueue => AtStage(s, Locking)
    case CheckTime(_) => AtStage(s, CheckingTime)
    case CheckQueue => AtStage(s, CheckingQueue)
    case Place(position) => AtStage(s, Placing) && position <= |WaitList(s)|
    case UnlockTransmit => AtStage(s, UnlockingTx(true)) || AtStage(s, UnlockingTx(false))
    case UnlockReceive => AtStage(s, UnlockingRx(true)) || AtStage(s, UnlockingRx(false))
    case Resume => AtStage(s, Resuming(true)) || AtStage(s, Resuming(false))
    case Recheck(t) => Runs(s, t) && s.pc[t].Expired?
    case TimeOut(t) => s.sched.Running? && Blocked(s, t)
    case SendFromISR(overwriting) => if overwriting then c.length == 1 else s.q.n < c.length
    case ReceiveFromISR => s.q.n > 0
  }

  function InsertAt(list: seq<Task>, i: nat, t: Task): seq<Task>
    requires i <= |list|
  {
    list[..i] + [t] + list[i..]
  }

  function NextTry(c: Config, s: State, t: Task, mayBlock: bool): State
    requires Runs(s, t) && s.pc[t].Top?
  {
    var op := s.pc[t].op;
    var s' := s.(wokenR := s.wokenR - {t}, wokenS := s.wokenS - {t});
    if Succeeds(c, s, op) then
      var done := s'.(pc := s.pc[t := Outside]);
      match op
      case Receive => done.(q := Take(s.q), wokenS := done.wokenS + Woken(s.q.senders))
      case Peek => done.(q := Look(s.q), wokenR := done.wokenR + Woken(s.q.receivers))
      case Send => done.(q := Post(s.q, false), wokenR := done.wokenR + Woken(s.q.receivers))
      case Overwrite => done.(q := Post(s.q, true), wokenR := done.wokenR + Woken(s.q.receivers))
    else s'.(pc := s.pc[t := if mayBlock then Failed(op) else Outside])
  }

  function NextPlace(s: State, position: nat): State
    requires AtStage(s, Placing) && position <= |WaitList(s)|
  {
    var t, op := s.sched.task, HolderOp(s);
    var list := InsertAt(WaitList(s), position, t);
    s.(q := if Receiving(op) then s.q.(receivers := list) else s.q.(senders := list), pc := s.pc[t := Top(op)],
       sched := Suspended(t, UnlockingTx(false)))
  }

  function Next(c: Config, s: State, a: Action): State
    requires Enabled(c, s, a)
  {
    match a
    case Call(t, op) => s.(pc := s.pc[t := Top(op)])
    case Try(t, mayBlock) => NextTry(c, s, t, mayBlock)
    case Suspend(t) => s.(sched := Suspended(t, Locking))
    case LockQueue => s.(q := Lock(s.q), sched := s.sched.(stage := CheckingTime))
    case CheckTime(expired) => s.(sched := s.sched.(stage := if expired then UnlockingTx(true) else CheckingQueue))
    case CheckQueue => s.(sched := s.sched.(stage := if Succeeds(c, s, HolderOp(s)) then UnlockingTx(false) else Placing))
    case Place(position) => NextPlace(s, position)
    case UnlockTransmit =>
      s.(q := UnlockTx(s.q), sched := s.sched.(stage := UnlockingRx(s.sched.stage.expired)),
         wokenR := s.wokenR + Elements(s.q.receivers[..Least(s.q.tx, |s.q.receivers|)]))
    case UnlockReceive =>
      s.(q := UnlockRx(s.q), sched := s.sched.(stage := Resuming(s.sched.stage.expired)),
         wokenS := s.wokenS + Elements(s.q.senders[..Least(s.q.rx, |s.q.senders|)]))
    case Resume =>
      var t, op := s.sched.task, HolderOp(s);
      s.(sched := Running, pc := s.pc[t := if s.sched.stage.expired then Expired(op) else Top(op)])
    case Recheck(t) => s.(pc := s.pc[t := if Receiving(s.pc[t].op) && s.q.n > 0 then Top(s.pc[t].op) else Outside])
    case TimeOut(t) => s.(q := s.q.(receivers := Without(s.q.receivers, t), senders := Without(s.q.senders, t)))
    case SendFromISR(overwriting) =>
      s.(q := PostFromISR(s.q, overwriting, c.tasks),
         wokenR := if s.q.tx == UNLOCKED then s.wokenR + Woken(s.q.receivers) else s.wokenR)
    case ReceiveFromISR =>
      s.(q := TakeFromISR(s.q, c.tasks),
         wokenS := if s.q.rx == UNLOCKED then s.wokenS + Woken(s.q.senders) else s.wokenS)
  }

  ghost predicate Initial(c: Config, s: State) {
    && s.q == Queue(0, UNLOCKED, UNLOCKED, [], []) && s.sched == Running && s.wokenR == {} && s.wokenS == {}
    && |s.pc| == c.tasks && forall t | t in s.pc :: s.pc[t].Outside?
  }

  ghost predicate IsRun(c: Config, s: State, actions: seq<Action>)
    decreases actions
  {
    actions != [] ==> Enabled(c, s, actions[0]) && IsRun(c, Next(c, s, actions[0]), actions[1..])
  }

  ghost function Run(c: Config, s: State, actions: seq<Action>): State
    requires IsRun(c, s, actions)
    decreases actions
  {
    if actions == [] then s else Run(c, Next(c, s, actions[0]), actions[1..])
  }

  // ---- Event lists ----

  ghost function Elements(list: seq<Task>): set<Task> {
    set t | t in list
  }

  ghost predicate Listed(list: seq<Task>, woken: set<Task>) {
    && (forall i, j | 0 <= i < j < |list| :: list[i] != list[j])
    && forall t | t in list :: t !in woken
  }

  lemma WakeMany(list: seq<Task>, woken: set<Task>, k: nat)
    requires Listed(list, woken) && k <= |list|
    ensures Listed(list[k..], woken + Elements(list[..k])) && |woken + Elements(list[..k])| == |woken| + k
  {
    if k > 0 {
      WakeMany(list, woken, k - 1);
      assert list[..k] == list[..k - 1] + [list[k - 1]];
      assert woken + Elements(list[..k]) == woken + Elements(list[..k - 1]) + {list[k - 1]};
    } else {
      assert woken + Elements(list[..0]) == woken;
    }
  }

  lemma WakeHead(list: seq<Task>, woken: set<Task>)
    requires Listed(list, woken)
    ensures Listed(Rest(list), woken + Woken(list))
    ensures |woken + Woken(list)| == |woken| + if list == [] then 0 else 1
  {
  }

  lemma {:induction false} Removed(list: seq<Task>, woken: set<Task>, t: Task)
    requires Listed(list, woken)
    ensures Listed(Without(list, t), woken) && Elements(Without(list, t)) == Elements(list) - {t}
  {
    if list != [] {
      Removed(list[1..], woken, t);
      assert Elements(list) == {list[0]} + Elements(list[1..]);
      if list[0] != t {
        assert Elements(Without(list, t)) == {list[0]} + Elements(Without(list[1..], t));
        forall u | u in Without(list[1..], t)
          ensures u in list[1..] && u != list[0]
        {
          assert u in Elements(Without(list[1..], t));
        }
      }
    }
  }

  lemma Inserted(list: seq<Task>, woken: set<Task>, i: nat, t: Task)
    requires Listed(list, woken) && i <= |list| && t !in list && t !in woken
    ensures Listed(InsertAt(list, i, t), woken) && forall u :: u in InsertAt(list, i, t) <==> u in list || u == t
  {
    assert list == list[..i] + list[i..];
  }

  lemma {:induction false} Fits(list: seq<Task>, all: set<Task>)
    requires Listed(list, {}) && forall t | t in list :: t in all
    ensures |list| <= |all|
  {
    if list != [] {
      Fits(list[1..], all - {list[0]});
    }
  }

  // ---- The invariant ----

  // The tasks of a wait list, and those woken from it, are at the top of a call of its kind.
  ghost predicate Members(list: seq<Task>, woken: set<Task>, pc: map<Task, Pc>, receiving: bool) {
    forall t | t in list || t in woken ::
      t in pc && pc[t].Top? && (if receiving then Receiving(pc[t].op) else pc[t].op == Send)
  }

  // While somebody waits (or is about to), every available unit has a woken task or a counted event to go with it.
  ghost predicate Covered(waiting: bool, units: int, woken: set<Task>, lock: int, tasks: nat) {
    waiting ==> units <= |woken| + (if lock < 0 then 0 else lock) || lock >= tasks
  }

  ghost predicate TxLocked(s: State) {
    s.sched.Suspended? && !s.sched.stage.Locking? && !s.sched.stage.UnlockingRx? && !s.sched.stage.Resuming?
  }

  ghost predicate RxLocked(s: State) {
    TxLocked(s) || (s.sched.Suspended? && s.sched.stage.UnlockingRx?)
  }

  // Before it is placed on a wait list, the holder has failed its try.
  ghost predicate HolderFailed(s: State) {
    s.sched.Suspended? ==>
      && s.sched.task in s.pc && (s.pc[s.sched.task].Failed? || s.pc[s.sched.task].Top?)
      && (s.pc[s.sched.task].op != Overwrite)
      && (!s.sched.stage.UnlockingTx? && !s.sched.stage.UnlockingRx? && !s.sched.stage.Resuming? ==> s.pc[s.sched.task].Failed?)
      && (s.sched.stage.UnlockingTx? || s.sched.stage.UnlockingRx? || s.sched.stage.Resuming? ==>
            s.sched.stage.expired ==> s.pc[s.sched.task].Failed?)
  }

  ghost predicate Locks(c: Config, s: State) {
    && (if TxLocked(s) then 0 <= s.q.tx <= c.tasks else s.q.tx == UNLOCKED)
    && (if RxLocked(s) then 0 <= s.q.rx <= c.tasks else s.q.rx == UNLOCKED)
  }

  ghost predicate AboutToWait(s: State, receiving: bool) {
    AtStage(s, Placing) && Receiving(HolderOp(s)) == receiving
  }

  // A wait list together with the tasks woken from it.
  ghost predicate Side(list: seq<Task>, woken: set<Task>, pc: map<Task, Pc>, receiving: bool) {
    Listed(list, woken) && Members(list, woken, pc, receiving)
  }

  ghost predicate Shape(c: Config, s: State) {
    && |s.pc| == c.tasks && s.q.n <= c.length
    && Locks(c, s) && HolderFailed(s)
    && (forall t | t in s.pc :: s.pc[t].Failed? ==> s.pc[t].op != Overwrite)
    && (forall t | t in s.pc :: !s.pc[t].Outside? && s.pc[t].op == Overwrite ==> c.length == 1)
  }

  ghost predicate CoveredR(c: Config, s: State) {
    Covered(s.q.receivers != [] || AboutToWait(s, true), s.q.n, s.wokenR, s.q.tx, c.tasks)
  }

  ghost predicate CoveredS(c: Config, s: State) {
    Covered(s.q.senders != [] || AboutToWait(s, false), c.length - s.q.n, s.wokenS, s.q.rx, c.tasks)
  }

  ghost predicate Inv(c: Config, s: State) {
    && Shape(c, s) && CoveredR(c, s) && CoveredS(c, s)
    && Side(s.q.receivers, s.wokenR, s.pc, true) && Side(s.q.senders, s.wokenS, s.pc, false)
  }

  // ---- What the sections do to one side ----

  lemma SideWake(list: seq<Task>, woken: set<Task>, pc: map<Task, Pc>, receiving: bool)
    requires Side(list, woken, pc, receiving)
    ensures Side(Rest(list), woken + Woken(list), pc, receiving)
    ensures |woken + Woken(list)| == |woken| + if list == [] then 0 else 1
  {
    WakeHead(list, woken);
  }

  lemma SideWakeMany(list: seq<Task>, woken: set<Task>, pc: map<Task, Pc>, receiving: bool, k: nat)
    requires Side(list, woken, pc, receiving) && k <= |list|
    ensures Side(list[k..], woken + Elements(list[..k]), pc, receiving)
    ensures |woken + Elements(list[..k])| == |woken| + k && |list| <= |pc|
  {
    WakeMany(list, woken, k);
    Fits(list, pc.Keys);
  }

  // A task that is not blocked runs again.
  lemma SideLeave(list: seq<Task>, woken: set<Task>, pc: map<Task, Pc>, receiving: bool, t: Task, next: Pc)
    requires Side(list, woken, pc, receiving) && t !in list && t in pc
    ensures Side(list, woken - {t}, pc[t := next], receiving)
    ensures t in woken ==> |woken - {t}| == |woken| - 1 && pc[t].Top? && if receiving then Receiving(pc[t].op) else pc[t].op == Send
    ensures t !in woken ==> woken - {t} == woken
  {
  }

  lemma SideRemove(list: seq<Task>, woken: set<Task>, pc: map<Task, Pc>, receiving: bool, t: Task)
    requires Side(list, woken, pc, receiving)
    ensures Side(Without(list, t), woken, pc, receiving)
    ensures list == [] ==> Without(list, t) == []
  {
    Removed(list, woken, t);
    forall u | u in Without(list, t)
      ensures u in list
    {
      assert u in Elements(Without(list, t));
    }
  }

  lemma SideInsert(list: seq<Task>, woken: set<Task>, pc: map<Task, Pc>, receiving: bool, i: nat, t: Task, op: Op)
    requires Side(list, woken, pc, receiving) && i <= |list| && t in pc && !pc[t].Top?
    requires if receiving then Receiving(op) else op == Send
    ensures Side(InsertAt(list, i, t), woken, pc[t := Top(op)], receiving)
  {
    Inserted(list, woken, i, t);
  }

  lemma TryShape(c: Config, s: State, t: Task, mayBlock: bool)
    requires Shape(c, s) && Enabled(c, s, Try(t, mayBlock))
    ensures Shape(c, NextTry(c, s, t, mayBlock)) && NextTry(c, s, t, mayBlock).sched == s.sched
    ensures !AboutToWait(NextTry(c, s, t, mayBlock), true) && !AboutToWait(NextTry(c, s, t, mayBlock), false)
  {
    hide Woken, Rest, Blocked;
  }

  lemma TryFailsKeeps(c: Config, s: State, t: Task, mayBlock: bool)
    requires Inv(c, s) && Enabled(c, s, Try(t, mayBlock)) && !Succeeds(c, s, s.pc[t].op)
    ensures Inv(c, NextTry(c, s, t, mayBlock))
  {
    hide Side, Shape, AboutToWait;
    var next := if mayBlock then Failed(s.pc[t].op) else Outside;
    TryShape(c, s, t, mayBlock);
    SideLeave(s.q.receivers, s.wokenR, s.pc, true, t, next);
    SideLeave(s.q.senders, s.wokenS, s.pc, false, t, next);
  }

  lemma TryTakesKeeps(c: Config, s: State, t: Task, mayBlock: bool)
    requires Inv(c, s) && Enabled(c, s, Try(t, mayBlock)) && s.pc[t].op == Receive && s.q.n > 0
    ensures Inv(c, NextTry(c, s, t, mayBlock))
  {
    hide Side, Woken, Rest, Shape, AboutToWait;
    TryShape(c, s, t, mayBlock);
    SideLeave(s.q.receivers, s.wokenR, s.pc, true, t, Outside);
    SideLeave(s.q.senders, s.wokenS, s.pc, false, t, Outside);
    SideWake(s.q.senders, s.wokenS - {t}, s.pc[t := Outside], false);
    RestOfNone();
  }

  // Peek, send and overwrite wake a receiver.
  lemma TryPostsKeeps(c: Config, s: State, t: Task, mayBlock: bool)
    requires Inv(c, s) && Enabled(c, s, Try(t, mayBlock)) && s.pc[t].op != Receive && Succeeds(c, s, s.pc[t].op)
    ensures Inv(c, NextTry(c, s, t, mayBlock))
  {
    hide Side, Woken, Rest, Shape, AboutToWait;
    TryShape(c, s, t, mayBlock);
    SideLeave(s.q.receivers, s.wokenR, s.pc, true, t, Outside);
    SideLeave(s.q.senders, s.wokenS, s.pc, false, t, Outside);
    SideWake(s.q.receivers, s.wokenR - {t}, s.pc[t := Outside], true);
    RestOfNone();
  }

  lemma RestOfNone()
    ensures Rest([]) == []
  {
  }

  lemma InterruptKeeps(c: Config, s: State, a: Action)
    requires Inv(c, s) && Enabled(c, s, a) && (a.SendFromISR? || a.ReceiveFromISR?)
    ensures Inv(c, Next(c, s, a))
  {
    hide Side, Woken, Rest;
    SideWake(s.q.receivers, s.wokenR, s.pc, true);
    SideWake(s.q.senders, s.wokenS, s.pc, false);
    RestOfNone();
  }

  lemma UnlockTransmitKeeps(c: Config, s: State)
    requires Inv(c, s) && Enabled(c, s, UnlockTransmit)
    ensures Inv(c, Next(c, s, UnlockTransmit))
  {
    hide Side, Elements, Blocked, Succeeds, Runs;
    SideWakeMany(s.q.receivers, s.wokenR, s.pc, true, Least(s.q.tx, |s.q.receivers|));
  }

  lemma UnlockReceiveKeeps(c: Config, s: State)
    requires Inv(c, s) && Enabled(c, s, UnlockReceive)
    ensures Inv(c, Next(c, s, UnlockReceive))
  {
    hide Side, Elements, Blocked, Succeeds, Runs;
    SideWakeMany(s.q.senders, s.wokenS, s.pc, false, Least(s.q.rx, |s.q.senders|));
  }

  lemma PlaceKeeps(c: Config, s: State, position: nat)
    requires Inv(c, s) && Enabled(c, s, Place(position))
    ensures Inv(c, Next(c, s, Place(position)))
  {
    hide Side, InsertAt;
    var t, op := s.sched.task, HolderOp(s);
    SideFresh(s.q.receivers, s.wokenR, s.pc, true, t, Top(op));
    SideFresh(s.q.senders, s.wokenS, s.pc, false, t, Top(op));
    if Receiving(op) {
      SideInsert(s.q.receivers, s.wokenR, s.pc, true, position, t, op);
    } else {
      SideInsert(s.q.senders, s.wokenS, s.pc, false, position, t, op);
    }
  }

  // A task not at the top of a call is in no list and not woken.
  lemma SideFresh(list: seq<Task>, woken: set<Task>, pc: map<Task, Pc>, receiving: bool, t: Task, next: Pc)
    requires Side(list, woken, pc, receiving) && t in pc && !pc[t].Top?
    ensures Side(list, woken, pc[t := next], receiving) && t !in list && t !in woken
  {
  }

  lemma TimeOutKeeps(c: Config, s: State, t: Task)
    requires Inv(c, s) && Enabled(c, s, TimeOut(t))
    ensures Inv(c, Next(c, s, TimeOut(t)))
  {
    hide Side, Without;
    SideRemove(s.q.receivers, s.wokenR, s.pc, true, t);
    SideRemove(s.q.senders, s.wokenS, s.pc, false, t);
  }

  lemma TaskStepKeeps(c: Config, s: State, a: Action)
    requires Inv(c, s) && Enabled(c, s, a) && (a.Call? || a.Suspend? || a.Recheck?)
    ensures Inv(c, Next(c, s, a))
  {
    hide Side;
    var next := Next(c, s, a).pc[a.t];
    if !a.Suspend? {
      SideFresh(s.q.receivers, s.wokenR, s.pc, true, a.t, next);
      SideFresh(s.q.senders, s.wokenS, s.pc, false, a.t, next);
    }
  }

  lemma HolderStepKeeps(c: Config, s: State, a: Action)
    requires Inv(c, s) && Enabled(c, s, a) && (a.LockQueue? || a.CheckTime? || a.CheckQueue?)
    ensures Inv(c, Next(c, s, a))
  {
    hide Side;
  }

  lemma ResumeKeeps(c: Config, s: State)
    requires Inv(c, s) && Enabled(c, s, Resume)
    ensures Inv(c, Next(c, s, Resume))
  {
    hide Side;
    var t := s.sched.task;
    var next := Next(c, s, Resume).pc[t];
    if s.pc[t].Top? {
      assert s.pc[t := next] == s.pc;
    } else {
      SideFresh(s.q.receivers, s.wokenR, s.pc, true, t, next);
      SideFresh(s.q.senders, s.wokenS, s.pc, false, t, next);
    }
  }

  lemma NextOfTry(c: Config, s: State, t: Task, mayBlock: bool)
    requires Enabled(c, s, Try(t, mayBlock))
    ensures Runs(s, t) && s.pc[t].Top? && Next(c, s, Try(t, mayBlock)) == NextTry(c, s, t, mayBlock)
    ensures s.pc[t].op == Receive && Succeeds(c, s, s.pc[t].op) ==> s.q.n > 0
  {
  }

  // Every atomic section of every task and interrupt keeps the invariant.
  lemma StepKeeps(c: Config, s: State, a: Action)
    requires Inv(c, s) && Enabled(c, s, a)
    ensures Inv(c, Next(c, s, a))
  {
    hide Inv, Next, Enabled;
    match a
    case Try(t, mayBlock) =>
      NextOfTry(c, s, t, mayBlock);
      if !Succeeds(c, s, s.pc[t].op) {
        TryFailsKeeps(c, s, t, mayBlock);
      } else if s.pc[t].op == Receive {
        TryTakesKeeps(c, s, t, mayBlock);
      } else {
        TryPostsKeeps(c, s, t, mayBlock);
      }
    case SendFromISR(_) => InterruptKeeps(c, s, a);
    case ReceiveFromISR => InterruptKeeps(c, s, a);
    case UnlockTransmit => UnlockTransmitKeeps(c, s);
    case UnlockReceive => UnlockReceiveKeeps(c, s);
    case Place(position) => PlaceKeeps(c, s, position);
    case TimeOut(t) => TimeOutKeeps(c, s, t);
    case Call(_, _) => TaskStepKeeps(c, s, a);
    case Suspend(_) => TaskStepKeeps(c, s, a);
    case Recheck(_) => TaskStepKeeps(c, s, a);
    case LockQueue => HolderStepKeeps(c, s, a);
    case CheckTime(_) => HolderStepKeeps(c, s, a);
    case CheckQueue => HolderStepKeeps(c, s, a);
    case Resume => ResumeKeeps(c, s);
  }

  lemma {:induction false} RunKeeps(c: Config, s: State, actions: seq<Action>)
    requires Inv(c, s) && IsRun(c, s, actions)
    ensures Inv(c, Run(c, s, actions))
    decreases actions
  {
    hide Inv, Next, Enabled;
    if actions != [] {
      StepKeeps(c, s, actions[0]);
      RunKeeps(c, Next(c, s, actions[0]), actions[1..]);
    }
  }

  // ---- No lost wake-up ----

  // An event-woken task that only has to be scheduled to retry its operation.
  ghost predicate Ready(s: State, t: Task, receiving: bool) {
    && !Blocked(s, t) && t in s.pc && s.pc[t].Top?
    && (if receiving then Receiving(s.pc[t].op) else s.pc[t].op == Send)
  }

  // In every run: while a receiver is blocked, an item is matched by a woken receiver, or by an event still counted in
  // the lock; likewise for blocked senders and free slots. With the queue unlocked there are at least as many woken
  // tasks as items (slots).
  lemma NoLostWakeup(c: Config, s0: State, actions: seq<Action>)
    requires Initial(c, s0) && IsRun(c, s0, actions)
    ensures var s := Run(c, s0, actions);
            && (s.q.receivers != [] && s.q.tx == UNLOCKED ==> s.q.n <= |s.wokenR|)
            && (s.q.senders != [] && s.q.rx == UNLOCKED ==> c.length - s.q.n <= |s.wokenS|)
            && (s.q.receivers != [] && s.q.n > 0 && s.wokenR == {} ==> s.q.tx > 0)
            && (s.q.senders != [] && s.q.n < c.length && s.wokenS == {} ==> s.q.rx > 0)
            && (forall t | t in s.wokenR :: Ready(s, t, true)) && (forall t | t in s.wokenS :: Ready(s, t, false))
  {
    RunKeeps(c, s0, actions);
    var s := Run(c, s0, actions);
    WokenReady(s);

  }

  lemma WokenReady(s: State)
    requires Side(s.q.receivers, s.wokenR, s.pc, true) && Side(s.q.senders, s.wokenS, s.pc, false)
    ensures (forall t | t in s.wokenR :: Ready(s, t, true)) && forall t | t in s.wokenS :: Ready(s, t, false)
  {
  }

  // When no task can run and none holds the scheduler, nobody sleeps for something that is there.
  lemma NobodySleepsForNothing(c: Config, s0: State, actions: seq<Action>)
    requires Initial(c, s0) && IsRun(c, s0, actions)
    requires var s := Run(c, s0, actions); s.sched.Running? && forall t | t in s.pc :: s.pc[t].Outside? || Blocked(s, t)
    ensures var s := Run(c, s0, actions);
            (s.q.receivers == [] || s.q.n == 0) && (s.q.senders == [] || s.q.n == c.length)
  {
    hide Inv, IsRun, Run, Initial;
    InitialInv(c, s0);
    NoLostWakeup(c, s0, actions);
    RunKeeps(c, s0, actions);
    var s := Run(c, s0, actions);
    NobodyWoken(s);
    Bounded(c, s);
  }

  lemma InitialInv(c: Config, s: State)
    requires Initial(c, s)
    ensures Inv(c, s)
  {
  }

  // With every task outside or blocked, none is on its way after a wake-up.
  lemma NobodyWoken(s: State)
    requires forall t | t in s.pc :: s.pc[t].Outside? || Blocked(s, t)
    requires (forall t | t in s.wokenR :: Ready(s, t, true)) && forall t | t in s.wokenS :: Ready(s, t, false)
    ensures s.wokenR == {} && s.wokenS == {}
  {
    if t :| t in s.wokenR {
      assert false;
    }
    if t :| t in s.wokenS {
      assert false;
    }
  }

  lemma Bounded(c: Config, s: State)
    requires Inv(c, s)
    ensures s.q.n <= c.length && (s.sched.Running? ==> s.q.tx == UNLOCKED && s.q.rx == UNLOCKED)
  {
  }

  // Nobody is woken out of turn: one post or removal wakes at most the first of a list, and unlocking no more of the
  // first than there were posts or removals counted.
  lemma WakesInTurn(c: Config, s: State, a: Action)
    requires Enabled(c, s, a) && !a.Place? && !a.TimeOut?
    ensures var s' := Next(c, s, a);
            exists r: nat, w: nat :: r <= |s.q.receivers| && w <= |s.q.senders|
              && s'.q.receivers == s.q.receivers[r..] && s'.q.senders == s.q.senders[w..]
              && (r > 0 ==> if a.UnlockTransmit? then r <= s.q.tx else r == 1 && (a.Try? || a.SendFromISR?))
              && (w > 0 ==> if a.UnlockReceive? then w <= s.q.rx else w == 1 && (a.Try? || a.ReceiveFromISR?))
              && !(r > 0 && w > 0)
  {
    var s' := Next(c, s, a);
    var r: nat := |s.q.receivers| - |s'.q.receivers|;
    var w: nat := |s.q.senders| - |s'.q.senders|;
    assert s'.q.receivers == s.q.receivers[r..] && s'.q.senders == s.q.senders[w..];
  }

  // ---- The 8-bit lock counts ----

  // The assertion made before a lock count is incremented.
  predicate IncrementAllowed(c: Config, s: State, a: Action) {
    && (a.SendFromISR? && 0 <= s.q.tx < c.tasks ==> s.q.tx != INT8_MAX)
    && (a.ReceiveFromISR? && 0 <= s.q.rx < c.tasks ==> s.q.rx != INT8_MAX)
  }

  ghost predicate NeverTrips(c: Config) {
    forall s0, actions, a | Initial(c, s0) && IsRun(c, s0, actions) && Enabled(c, Run(c, s0, actions), a) ::
      IncrementAllowed(c, Run(c, s0, actions), a)
  }

  lemma {:induction false} RunConcat(c: Config, s: State, first: seq<Action>, second: seq<Action>)
    requires IsRun(c, s, first) && IsRun(c, Run(c, s, first), second)
    ensures IsRun(c, s, first + second) && Run(c, s, first + second) == Run(c, Run(c, s, first), second)
    decreases first
  {
    hide Enabled, Next;
    if first == [] {
      assert first + second == second;
    } else {
      RunConcat(c, Next(c, s, first[0]), first[1..], second);
      assert (first + second)[1..] == first[1..] + second;
    }
  }

  function Burst(k: nat): seq<Action> {
    if k == 0 then [] else [SendFromISR(false), ReceiveFromISR] + Burst(k - 1)
  }

  lemma {:induction false} BurstCounts(c: Config, s: State, k: nat)
    requires s.q.n == 0 && 0 <= s.q.tx && 0 <= s.q.rx && s.q.tx + k <= c.tasks && c.length >= 1
    ensures IsRun(c, s, Burst(k))
    ensures var s' := Run(c, s, Burst(k)); s'.q.n == 0 && s'.q.tx == s.q.tx + k
    decreases k
  {
    if k > 0 {
      var s1 := Next(c, s, SendFromISR(false));
      var s2 := Next(c, s1, ReceiveFromISR);
      BurstCounts(c, s2, k - 1);
      TwoThen(c, s, SendFromISR(false), ReceiveFromISR, Burst(k - 1));
    }
  }

  lemma TwoThen(c: Config, s: State, a: Action, b: Action, rest: seq<Action>)
    requires Enabled(c, s, a) && Enabled(c, Next(c, s, a), b) && IsRun(c, Next(c, Next(c, s, a), b), rest)
    ensures IsRun(c, s, [a, b] + rest) && Run(c, s, [a, b] + rest) == Run(c, Next(c, Next(c, s, a), b), rest)
  {
    hide Enabled, Next;
    assert ([a, b] + rest)[1..] == [b] + rest;
    assert ([b] + rest)[1..] == rest;
  }

  // With more than 127 tasks, 127 interrupt posts while a queue stays locked make the next one trip the assertion.
  lemma Trips(c: Config, s0: State) returns (actions: seq<Action>)
    requires c.tasks > INT8_MAX && c.length >= 1 && Initial(c, s0)
    ensures IsRun(c, s0, actions)
    ensures var s := Run(c, s0, actions); Enabled(c, s, SendFromISR(false)) && !IncrementAllowed(c, s, SendFromISR(false))
  {
    assert s0.pc.Keys != {};
    var t :| t in s0.pc;
    var s2 := Next(c, Next(c, s0, Call(t, Receive)), Try(t, true));
    var s4 := Next(c, Next(c, s2, Suspend(t)), LockQueue);
    BurstCounts(c, s4, INT8_MAX);
    TwoThen(c, s2, Suspend(t), LockQueue, Burst(INT8_MAX));
    TwoThen(c, s0, Call(t, Receive), Try(t, true), [Suspend(t), LockQueue] + Burst(INT8_MAX));
    actions := [Call(t, Receive), Try(t, true)] + ([Suspend(t), LockQueue] + Burst(INT8_MAX));
  }

  lemma LockAssertionExact(c: Config, s0: State)
    requires c.length >= 1 && Initial(c, s0)
    ensures NeverTrips(c) <==> c.tasks <= INT8_MAX
  {
    if c.tasks <= INT8_MAX {
      forall s1, actions, a | Initial(c, s1) && IsRun(c, s1, actions) && Enabled(c, Run(c, s1, actions), a)
        ensures IncrementAllowed(c, Run(c, s1, actions), a)
      {
        RunKeeps(c, s1, actions);
      }
    } else {
      hide Enabled, Run, IsRun, Initial, IncrementAllowed;
      var actions := Trips(c, s0);
    }
  }
}
