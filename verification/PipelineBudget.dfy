/** The cost counter shared by all agents of a pipeline: the class itself, and the protocol
    of any number of threads that step through its lock in any order. */
module PipelineBudget {

  datatype Op = Consume(cost: real) | ReadRemaining | ReadUsed

  datatype Result = Granted | Refused | Amount(usd: real)

  type Thread = nat

  /** One entry per completed operation, in the order in which the operations took effect. */
  datatype Entry = Entry(thread: Thread, op: Op, result: Result)

  function Remaining(cap: real, used: real): real {
    if cap - used > 0.0 then cap - used else 0.0
  }

  /** The result of an operation performed in one piece on a counter that holds `used`. */
  function AtomicResult(cap: real, used: real, op: Op): Result {
    match op
    case Consume(cost) => if used + cost > cap then Refused else Granted
    case ReadRemaining => Amount(Remaining(cap, used))
    case ReadUsed => Amount(used)
  }

  function AtomicUsed(cap: real, used: real, op: Op): real {
    if op.Consume? && AtomicResult(cap, used, op) == Granted then used + op.cost else used
  }

  class Budget {
    const maxTotalUsd: real
    var used: real

    constructor (cap: real)
      ensures maxTotalUsd == cap && used == 0.0
    {
      maxTotalUsd := cap;
      used := 0.0;
    }

    method Consume(cost: real) returns (ok: bool)
      modifies this
      ensures (if ok then Granted else Refused) == AtomicResult(maxTotalUsd, old(used), Op.Consume(cost))
      ensures used == AtomicUsed(maxTotalUsd, old(used), Op.Consume(cost))
      ensures ok <==> old(used) + cost <= maxTotalUsd
      ensures used == if ok then old(used) + cost else old(used)
    {
      if used + cost > maxTotalUsd {
        return false;
      }
      used := used + cost;
      ok := true;
    }

    method GetRemaining() returns (usd: real)
      ensures Amount(usd) == AtomicResult(maxTotalUsd, used, ReadRemaining)
      ensures used <= maxTotalUsd ==> used + usd == maxTotalUsd
      ensures used > maxTotalUsd ==> usd == 0.0
    {
      usd := if maxTotalUsd - used > 0.0 then maxTotalUsd - used else 0.0;
    }

    method GetUsed() returns (usd: real)
      ensures Amount(usd) == AtomicResult(maxTotalUsd, used, ReadUsed)
      ensures usd == used
    {
      usd := used;
    }
  }

  // ----- The interleaved protocol ------------------------------------------------------

  /** Where a thread stands: outside, holding the lock before its check, past a successful
      check with the addition still to come, or done and about to release. */
  datatype Pc = Outside | Entered(op: Op) | Checked(cost: real) | Finished(op: Op, result: Result)

  datatype State = State(cap: real, used: real, holder: set<Thread>, pcs: map<Thread, Pc>, log: seq<Entry>)
  {
    function PcOf(t: Thread): Pc {
      if t in pcs then pcs[t] else Outside
    }
  }

  function Init(cap: real): State {
    State(cap, 0.0, {}, map[], [])
  }

  datatype Action =
    | Acquire(t: Thread, op: Op)
    | Check(t: Thread)
    | Add(t: Thread)
    | Read(t: Thread)
    | Release(t: Thread)

  predicate Enabled(s: State, a: Action) {
    match a
    case Acquire(t, _) => s.holder == {} && s.PcOf(t) == Outside
    case Check(t) => s.PcOf(t).Entered? && s.PcOf(t).op.Consume?
    case Add(t) => s.PcOf(t).Checked?
    case Read(t) => s.PcOf(t).Entered? && !s.PcOf(t).op.Consume?
    case Release(t) => s.PcOf(t).Finished?
  }

  function Finish(s: State, t: Thread, op: Op, result: Result): State {
    s.(pcs := s.pcs[t := Finished(op, result)], log := s.log + [Entry(t, op, result)])
  }

  /** One step of one thread. The check and the addition are separate steps. */
  function Step(s: State, a: Action): State
    requires Enabled(s, a)
  {
    match a
    case Acquire(t, op) => s.(holder := {t}, pcs := s.pcs[t := Entered(op)])
    case Check(t) =>
      var op := s.PcOf(t).op;
      if s.used + op.cost > s.cap then Finish(s, t, op, Refused) else s.(pcs := s.pcs[t := Checked(op.cost)])
    case Add(t) =>
      var cost := s.PcOf(t).cost;
      Finish(s.(used := s.used + cost), t, Consume(cost), Granted)
    case Read(t) =>
      var op := s.PcOf(t).op;
      Finish(s, t, op, Amount(if op.ReadUsed? then s.used else Remaining(s.cap, s.used)))
    case Release(t) => s.(holder := {}, pcs := s.pcs[t := Outside])
  }

  /** The counter after the logged operations, each performed in one piece. */
  function Replay(cap: real, log: seq<Entry>): real {
    if log == [] then 0.0 else AtomicUsed(cap, Replay(cap, log[..|log| - 1]), log[|log| - 1].op)
  }

  /** Every logged operation got the result it would have got on its own at that point. */
  predicate Linear(cap: real, log: seq<Entry>) {
    forall i :: 0 <= i < |log| ==> log[i].result == AtomicResult(cap, Replay(cap, log[..i]), log[i].op)
  }

  function GrantedSum(log: seq<Entry>): real {
    if log == [] then 0.0
    else
      var last := log[|log| - 1];
      GrantedSum(log[..|log| - 1]) + (if last.op.Consume? && last.result == Granted then last.op.cost else 0.0)
  }

  /** Exactly the holder is inside, and there is at most one. */
  ghost predicate LockHeld(s: State) {
    && (forall t :: t in s.pcs && !s.pcs[t].Outside? <==> t in s.holder)
    && (forall t, u :: t in s.holder && u in s.holder ==> t == u)
  }

  /** A check that has passed still holds, and a finished call has just been logged. */
  ghost predicate CallsCurrent(s: State) {
    && (forall t :: t in s.pcs && s.pcs[t].Checked? ==> s.used + s.pcs[t].cost <= s.cap)
    && (forall t :: t in s.pcs && s.pcs[t].Finished? ==>
                      s.log != [] && s.log[|s.log| - 1] == Entry(t, s.pcs[t].op, s.pcs[t].result))
  }

  /** The counter is what the log says. */
  ghost predicate CounterLogged(s: State) {
    && s.used == Replay(s.cap, s.log)
    && Linear(s.cap, s.log)
    && (s.used <= s.cap || s.used == 0.0)
  }

  ghost predicate Inv(s: State) {
    LockHeld(s) && CallsCurrent(s) && CounterLogged(s)
  }

  lemma LogOne(cap: real, log: seq<Entry>, e: Entry)
    requires Linear(cap, log) && e.result == AtomicResult(cap, Replay(cap, log), e.op)
    ensures Linear(cap, log + [e])
    ensures Replay(cap, log + [e]) == AtomicUsed(cap, Replay(cap, log), e.op)
  {
    assert (log + [e])[..|log|] == log;
    forall i | 0 <= i < |log + [e]|
      ensures (log + [e])[i].result == AtomicResult(cap, Replay(cap, (log + [e])[..i]), (log + [e])[i].op)
    {
      assert i < |log| ==> (log + [e])[..i] == log[..i];
    }
  }

  /** The step performs exactly one operation in one piece and logs its result for the thread. */
  ghost predicate Performs(s: State, s': State, t: Thread, op: Op) {
    && s'.log == s.log + [Entry(t, op, AtomicResult(s.cap, s.used, op))]
    && s'.used == AtomicUsed(s.cap, s.used, op)
  }

  ghost predicate Unmoved(s: State, s': State) {
    s'.used == s.used && s'.log == s.log
  }

  /** The operation that a thread is in the middle of. */
  function OpOf(pc: Pc): Op
    requires !pc.Outside?
  {
    match pc
    case Entered(op) => op
    case Checked(cost) => Consume(cost)
    case Finished(op, _) => op
  }

  lemma FinishKeepsLock(s: State, used: real, t: Thread, op: Op, result: Result)
    requires LockHeld(s) && t in s.holder
    ensures var s' := Finish(s.(used := used), t, op, result);
            LockHeld(s') && CallsCurrent(s')
  {
    var s' := Finish(s.(used := used), t, op, result);
    forall u | u in s'.pcs && u != t
      ensures s'.pcs[u].Outside?
    {
      assert u !in s.holder;
    }
  }

  lemma FinishKeepsInv(s: State, t: Thread, op: Op)
    requires Inv(s) && t in s.holder
    requires AtomicUsed(s.cap, s.used, op) <= s.cap || AtomicUsed(s.cap, s.used, op) == 0.0
    ensures var s' := Finish(s.(used := AtomicUsed(s.cap, s.used, op)), t, op, AtomicResult(s.cap, s.used, op));
            Inv(s') && Performs(s, s', t, op)
  {
    FinishKeepsLock(s, AtomicUsed(s.cap, s.used, op), t, op, AtomicResult(s.cap, s.used, op));
    LogOne(s.cap, s.log, Entry(t, op, AtomicResult(s.cap, s.used, op)));
  }

  lemma CheckRefines(s: State, t: Thread)
    requires Inv(s) && Enabled(s, Check(t))
    ensures var s' := Step(s, Check(t));
            Inv(s') && (Unmoved(s, s') || Performs(s, s', t, OpOf(s.PcOf(t))))
  {
    var op := s.PcOf(t).op;
    assert t in s.holder;
    if s.used + op.cost > s.cap {
      assert AtomicUsed(s.cap, s.used, op) == s.used;
      assert Step(s, Check(t)) == Finish(s.(used := s.used), t, op, Refused);
      FinishKeepsInv(s, t, op);
    }
  }

  lemma AddRefines(s: State, t: Thread)
    requires Inv(s) && Enabled(s, Add(t))
    ensures var s' := Step(s, Add(t));
            Inv(s') && Performs(s, s', t, OpOf(s.PcOf(t)))
  {
    var op := Consume(s.PcOf(t).cost);
    assert t in s.holder && AtomicResult(s.cap, s.used, op) == Granted;
    assert Step(s, Add(t)) == Finish(s.(used := AtomicUsed(s.cap, s.used, op)), t, op, Granted);
    FinishKeepsInv(s, t, op);
  }

  lemma ReadRefines(s: State, t: Thread)
    requires Inv(s) && Enabled(s, Read(t))
    ensures var s' := Step(s, Read(t));
            Inv(s') && Performs(s, s', t, OpOf(s.PcOf(t)))
  {
    var op := s.PcOf(t).op;
    assert t in s.holder && AtomicUsed(s.cap, s.used, op) == s.used;
    assert Step(s, Read(t)) == Finish(s.(used := s.used), t, op, AtomicResult(s.cap, s.used, op));
    FinishKeepsInv(s, t, op);
  }

  /** Refinement: a step either leaves the counter and the log alone or performs, in one piece,
      exactly the operation that the acting thread came in with. */
  lemma StepRefines(s: State, a: Action)
    requires Inv(s) && Enabled(s, a)
    ensures var s' := Step(s, a);
      && Inv(s') && s'.cap == s.cap
      && (Unmoved(s, s') || (!s.PcOf(a.t).Outside? && Performs(s, s', a.t, OpOf(s.PcOf(a.t)))))
  {
    match a {
      case Acquire(t, op) =>
      case Check(t) => CheckRefines(s, t);
      case Add(t) => AddRefines(s, t);
      case Read(t) => ReadRefines(s, t);
      case Release(t) => assert t in s.holder;
    }
  }

  /** The state after a schedule: actions that are not enabled are not taken. */
  function Execute(cap: real, schedule: seq<Action>): State {
    if schedule == [] then Init(cap)
    else
      var s, a := Execute(cap, schedule[..|schedule| - 1]), schedule[|schedule| - 1];
      if Enabled(s, a) then Step(s, a) else s
  }

  lemma {:induction false} ExecuteInv(cap: real, schedule: seq<Action>)
    ensures Inv(Execute(cap, schedule)) && Execute(cap, schedule).cap == cap
  {
    if schedule != [] {
      var s, a := Execute(cap, schedule[..|schedule| - 1]), schedule[|schedule| - 1];
      ExecuteInv(cap, schedule[..|schedule| - 1]);
      if Enabled(s, a) {
        StepRefines(s, a);
      }
    }
  }

  lemma {:induction false} ReplayIsGrantedSum(cap: real, log: seq<Entry>)
    requires Linear(cap, log)
    ensures Replay(cap, log) == GrantedSum(log)
  {
    if log != [] {
      var n := |log| - 1;
      forall i | 0 <= i < n
        ensures log[..n][i].result == AtomicResult(cap, Replay(cap, log[..n][..i]), log[..n][i].op)
      {
        assert log[..n][..i] == log[..i];
      }
      ReplayIsGrantedSum(cap, log[..n]);
    }
  }

  /** Safety of every interleaving of every number of threads: what was used is the sum of
      the granted costs and never exceeds a non-negative cap; a cost is refused exactly
      when it would have exceeded the cap at its turn; and what is used and what is left
      add up to the cap. */
  lemma EveryInterleaving(cap: real, schedule: seq<Action>)
    ensures var s := Execute(cap, schedule);
      && s.used == GrantedSum(s.log)
      && (forall i :: 0 <= i < |s.log| && s.log[i].op.Consume? ==>
            (s.log[i].result == Refused <==> GrantedSum(s.log[..i]) + s.log[i].op.cost > cap))
      && (cap >= 0.0 ==> s.used <= cap && s.used + Remaining(cap, s.used) == cap)
      && (s.holder == {} ==> forall t :: s.PcOf(t) == Outside)
  {
    var s := Execute(cap, schedule);
    ExecuteInv(cap, schedule);
    ReplayIsGrantedSum(cap, s.log);
    forall i | 0 <= i < |s.log|
      ensures Replay(cap, s.log[..i]) == GrantedSum(s.log[..i])
    {
      assert forall j :: 0 <= j < i ==> s.log[..i][..j] == s.log[..j];
      ReplayIsGrantedSum(cap, s.log[..i]);
    }
  }

  /** What each call was told, over every schedule: a cost was granted if and only if it fitted
      beside the costs granted before it, a read of `used` returned the sum of those costs, and a
      read of `remaining` returned what that sum leaves of the cap, or nothing. */
  lemma EveryCallIsTold(cap: real, schedule: seq<Action>, i: nat)
    requires i < |Execute(cap, schedule).log|
    ensures var log := Execute(cap, schedule).log;
      var before := GrantedSum(log[..i]);
      match log[i].op
      case Consume(cost) => log[i].result == if before + cost <= cap then Granted else Refused
      case ReadUsed => log[i].result == Amount(before)
      case ReadRemaining =>
        && log[i].result.Amount?
        && (before <= cap ==> log[i].result.usd + before == cap)
        && (before > cap ==> log[i].result.usd == 0.0)
    ensures cap >= 0.0 ==> GrantedSum(Execute(cap, schedule).log[..i]) <= cap
  {
    var log := Execute(cap, schedule).log;
    ExecuteInv(cap, schedule);
    assert forall j :: 0 <= j < i ==> log[..i][..j] == log[..j] && log[..i][j] == log[j];
    ReplayIsGrantedSum(cap, log[..i]);
    GrantsBound(cap, log[..i]);
  }

  predicate IsGrant(e: Entry) {
    e.op.Consume? && e.result == Granted
  }

  predicate HasGrant(log: seq<Entry>) {
    exists i :: 0 <= i < |log| && IsGrant(log[i])
  }

  lemma HasGrantSnoc(log: seq<Entry>, e: Entry)
    ensures HasGrant(log + [e]) <==> HasGrant(log) || IsGrant(e)
  {
    var more := log + [e];
    assert more[|log|] == e && forall i :: 0 <= i < |log| ==> more[i] == log[i];
  }

  /** A grant brings the counter within the cap, and nothing moves it without one. */
  lemma {:induction false} GrantsBound(cap: real, log: seq<Entry>)
    requires Linear(cap, log)
    ensures if HasGrant(log) then Replay(cap, log) <= cap else Replay(cap, log) == 0.0
  {
    if log != [] {
      var n := |log| - 1;
      assert forall i :: 0 <= i < n ==> log[..n][..i] == log[..i] && log[..n][i] == log[i];
      GrantsBound(cap, log[..n]);
      HasGrantSnoc(log[..n], log[n]);
      assert log[..n] + [log[n]] == log;
    }
  }

  /** Whatever the signs of the costs, "used plus remaining is the cap" holds if and only if
      the cap is not negative or some cost was granted. */
  lemma RemainingReconciles(cap: real, schedule: seq<Action>)
    ensures var s := Execute(cap, schedule);
      s.used + Remaining(cap, s.used) == cap <==> cap >= 0.0 || HasGrant(s.log)
  {
    ExecuteInv(cap, schedule);
    GrantsBound(cap, Execute(cap, schedule).log);
  }

  // ----- Each call ---------------------------------------------------------------------

  ghost predicate Taken(cap: real, schedule: seq<Action>, i: nat) {
    i < |schedule| && Enabled(Execute(cap, schedule[..i]), schedule[i])
  }

  /** What has become of an operation that a thread came in with at state `s0`. */
  ghost predicate Underway(s0: State, s: State, t: Thread, op: Op) {
    match s.PcOf(t)
    case Outside => false
    case Entered(o) => o == op && Unmoved(s0, s)
    case Checked(cost) => op == Consume(cost) && Unmoved(s0, s) && s.used + cost <= s.cap
    case Finished(o, result) => o == op && result == AtomicResult(s0.cap, s0.used, op) && Performs(s0, s, t, op)
  }

  lemma StepUnderway(s0: State, s: State, a: Action, t: Thread, op: Op)
    requires Inv(s) && s0.cap == s.cap && Underway(s0, s, t, op)
    requires Enabled(s, a) && !Step(s, a).PcOf(t).Outside?
    ensures Underway(s0, Step(s, a), t, op)
  {
    OnlyHolderMoves(s, a, t);
  }

  lemma OnlyHolderMoves(s: State, a: Action, t: Thread)
    requires Inv(s) && Enabled(s, a) && !s.PcOf(t).Outside?
    ensures a.t == t
  {
    assert t in s.holder;
    assert s.PcOf(a.t) != Outside ==> a.t in s.holder;
  }

  /** A thread that is not outside came in at some point and has been alone since. */
  lemma {:induction false} CameIn(cap: real, schedule: seq<Action>, t: Thread) returns (a: nat, op: Op)
    requires !Execute(cap, schedule).PcOf(t).Outside?
    ensures Taken(cap, schedule, a) && schedule[a] == Acquire(t, op)
    ensures Underway(Execute(cap, schedule[..a]), Execute(cap, schedule), t, op)
    decreases |schedule|
  {
    var n := |schedule| - 1;
    var s, act := Execute(cap, schedule[..n]), schedule[n];
    ExecuteInv(cap, schedule[..n]);
    if Enabled(s, act) && act.Acquire? {
      assert act.t == t;
      a, op := n, act.op;
    } else {
      a, op := CameIn(cap, schedule[..n], t);
      assert schedule[..n][..a] == schedule[..a];
      ExecuteInv(cap, schedule[..a]);
      if Enabled(s, act) {
        StepUnderway(Execute(cap, schedule[..a]), s, act, t, op);
      }
    }
  }

  /** Every call that completes is atomic: a release follows the acquire of the same thread, the
      two have exactly one entry between them, the call's own, and the counter moves from the one
      to the other just as if the call had been made in one piece. */
  lemma CallsAreAtomic(cap: real, schedule: seq<Action>, r: nat) returns (a: nat, op: Op)
    requires Taken(cap, schedule, r) && schedule[r].Release?
    ensures a < r && Taken(cap, schedule, a) && schedule[a] == Acquire(schedule[r].t, op)
    ensures var s0, s, t := Execute(cap, schedule[..a]), Execute(cap, schedule[..r]), schedule[r].t;
      && s.PcOf(t) == Finished(op, AtomicResult(cap, s0.used, op))
      && Performs(s0, s, t, op)
  {
    a, op := CameIn(cap, schedule[..r], schedule[r].t);
    assert schedule[..r][..a] == schedule[..a];
    ExecuteInv(cap, schedule[..a]);
  }

  /** With non-negative costs the counter never falls, so a refusal is final: no later
      request for the same or a higher cost is granted. */
  lemma {:induction false} RefusalIsFinal(cap: real, log: seq<Entry>, i: nat, j: nat)
    requires Linear(cap, log) && i < j < |log|
    requires forall k :: 0 <= k < |log| && log[k].op.Consume? ==> log[k].op.cost >= 0.0
    requires log[i].op.Consume? && log[i].result == Refused
    requires log[j].op.Consume? && log[j].op.cost >= log[i].op.cost
    ensures log[j].result == Refused
  {
    ReplayGrows(cap, log, i, j);
  }

  lemma {:induction false} ReplayGrows(cap: real, log: seq<Entry>, i: nat, j: nat)
    requires i <= j <= |log|
    requires forall k :: 0 <= k < |log| && log[k].op.Consume? ==> log[k].op.cost >= 0.0
    ensures Replay(cap, log[..i]) <= Replay(cap, log[..j])
  {
    if i < j {
      ReplayGrows(cap, log, i, j - 1);
      assert log[..j][..j - 1] == log[..j - 1];
    }
  }

  // ----- Progress ----------------------------------------------------------------------

  /** How many steps a call still has to take. */
  function Left(pc: Pc): nat {
    match pc
    case Outside => 0
    case Entered(_) => 3
    case Checked(_) => 2
    case Finished(_, _) => 1
  }

  /** Nothing blocks: while no thread holds the lock, any thread may come in with any operation, and a
      thread that is in has exactly one step that it can take next, with which its call gets shorter. */
  lemma NothingBlocks(cap: real, schedule: seq<Action>, t: Thread, op: Op)
    ensures var s := Execute(cap, schedule);
      && (s.holder == {} ==> Enabled(s, Acquire(t, op)))
      && (s.PcOf(t) != Outside ==> exists a: Action ::
            && a.t == t && Enabled(s, a) && Left(Step(s, a).PcOf(t)) < Left(s.PcOf(t))
            && forall b: Action :: b.t == t && Enabled(s, b) ==> b == a)
  {
    var s := Execute(cap, schedule);
    ExecuteInv(cap, schedule);
    if s.PcOf(t) != Outside {
      var a := NextOf(t, s.PcOf(t));
      assert a.t == t && Enabled(s, a) && Left(Step(s, a).PcOf(t)) < Left(s.PcOf(t));
    }
  }

  function NextOf(t: Thread, pc: Pc): Action
    requires pc != Outside
  {
    match pc
    case Entered(op) => if op.Consume? then Check(t) else Read(t)
    case Checked(_) => Add(t)
    case Finished(_, _) => Release(t)
  }
}
