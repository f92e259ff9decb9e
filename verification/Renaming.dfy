/** Renaming pids: the machine uses pids only by equality and in queue order, so it commutes with every
    injective renaming, and what it writes does not mention pids at all (src/runtime/supervisor.rs:88-92). */
module Renaming {
  import opened Base
  import opened Machine
  import Clock
  import Prng
  import Recorder

  type Map = Pid -> Pid

  ghost predicate Injective(pi: Map) { forall a, b :: pi(a) == pi(b) ==> a == b }

  // ----- collections

  ghost function RSet(pi: Map, s: set<Pid>): set<Pid> { set p | p in s :: pi(p) }

  ghost function RSeq(pi: Map, q: seq<Pid>): (r: seq<Pid>) ensures |r| == |q| {
    seq(|q|, i requires 0 <= i < |q| => pi(q[i]))
  }

  ghost function RMap<V>(pi: Map, m: map<Pid, V>): map<Pid, V>
    requires Injective(pi)
  {
    map p | p in m :: pi(p) := m[p]
  }

  ghost function ROpt(pi: Map, o: Option<Pid>): Option<Pid> {
    match o case None => None case Some(p) => Some(pi(p))
  }

  ghost function RWaiting(pi: Map, w: map<Addr, seq<Pid>>): map<Addr, seq<Pid>> {
    map a | a in w :: RSeq(pi, w[a])
  }

  ghost function RFrame(pi: Map, f: Frame): Frame { Frame(pi(f.parent), pi(f.child)) }

  ghost function RFrames(pi: Map, frames: seq<Frame>): (r: seq<Frame>) ensures |r| == |frames| {
    seq(|frames|, i requires 0 <= i < |frames| => RFrame(pi, frames[i]))
  }

  // ----- states and statuses

  ghost function RReg(pi: Map, reg: Registry): Registry requires Injective(pi) {
    Registry(pi(reg.init), RMap(pi, reg.threads), reg.vtidNext)
  }

  ghost function RQueues(pi: Map, q: Queues): Queues {
    Queues(RSeq(pi, q.runnable), RSet(pi, q.pendingStart), RSet(pi, q.stoppedPending), RSet(pi, q.blocked), RWaiting(pi, q.waiting))
  }

  ghost function RFocus(pi: Map, f: Focus): Focus {
    Focus(ROpt(pi, f.current), f.lastVtid, f.groupExiting, RFrames(pi, f.frames))
  }

  ghost function RCalls(pi: Map, c: Calls): Calls requires Injective(pi) {
    Calls(RMap(pi, c.pending), RMap(pi, c.sigPending), RMap(pi, c.clonePending))
  }

  ghost function RKern(pi: Map, k: Kernel): Kernel requires Injective(pi) {
    Kernel(RMap(pi, k.task), k.groupStatus)
  }

  /** The renamed state: same devices, same log, same outcome. */
  ghost function Ren(pi: Map, s: State): State requires Injective(pi) {
    State(RReg(pi, s.reg), RQueues(pi, s.q), RFocus(pi, s.focus), RCalls(pi, s.calls), s.dev, s.log, RKern(pi, s.kern), s.outcome)
  }

  ghost function RenStatus(pi: Map, st: Status): Status {
    match st
    case SyscallStop(p, op) => SyscallStop(pi(p), op)
    case CloneEvent(p, c) => CloneEvent(pi(p), pi(c))
    case ExitEvent(p) => ExitEvent(pi(p))
    case OtherEvent(p) => OtherEvent(pi(p))
    case SignalStop(p, sig) => SignalStop(pi(p), sig)
    case Exited(p, code) => Exited(pi(p), code)
    case Killed(p, sig) => Killed(pi(p), sig)
    case Idle => Idle
  }

  // ----- facts about renamed collections

  lemma MapAt<V>(pi: Map, m: map<Pid, V>, p: Pid)
    requires Injective(pi)
    ensures pi(p) in RMap(pi, m) <==> p in m
    ensures p in m ==> RMap(pi, m)[pi(p)] == m[p]
  {
  }

  lemma MapPut<V>(pi: Map, m: map<Pid, V>, p: Pid, v: V)
    requires Injective(pi)
    ensures RMap(pi, m[p := v]) == RMap(pi, m)[pi(p) := v]
  {
    var l, r := RMap(pi, m[p := v]), RMap(pi, m)[pi(p) := v];
    assert forall q :: q in m[p := v] ==> pi(q) in r && r[pi(q)] == l[pi(q)];
    assert forall x :: x in r ==> x in l;
  }

  lemma MapDrop<V>(pi: Map, m: map<Pid, V>, p: Pid)
    requires Injective(pi)
    ensures RMap(pi, m - {p}) == RMap(pi, m) - {pi(p)}
  {
    var l, r := RMap(pi, m - {p}), RMap(pi, m) - {pi(p)};
    assert forall x :: x in l <==> x in r;
  }

  lemma SetAt(pi: Map, s: set<Pid>, p: Pid)
    requires Injective(pi)
    ensures pi(p) in RSet(pi, s) <==> p in s
  {
  }

  lemma SetHas(pi: Map, s: set<Pid>, p: Pid)
    requires p in s
    ensures pi(p) in RSet(pi, s)
  {
  }

  lemma SetPut(pi: Map, s: set<Pid>, p: Pid)
    ensures RSet(pi, s + {p}) == RSet(pi, s) + {pi(p)}
  {
  }

  lemma SetDrop(pi: Map, s: set<Pid>, p: Pid)
    requires Injective(pi)
    ensures RSet(pi, s - {p}) == RSet(pi, s) - {pi(p)}
  {
  }

  lemma SetMinus(pi: Map, s: set<Pid>, t: set<Pid>)
    requires Injective(pi)
    ensures RSet(pi, s - t) == RSet(pi, s) - RSet(pi, t)
  {
  }

  lemma SeqAdd(pi: Map, a: seq<Pid>, b: seq<Pid>)
    ensures RSeq(pi, a + b) == RSeq(pi, a) + RSeq(pi, b)
  {
  }

  lemma SeqPut(pi: Map, a: seq<Pid>, p: Pid)
    ensures RSeq(pi, a + [p]) == RSeq(pi, a) + [pi(p)]
  {
  }

  lemma SeqTail(pi: Map, a: seq<Pid>)
    requires a != []
    ensures RSeq(pi, a)[0] == pi(a[0]) && RSeq(pi, a)[1..] == RSeq(pi, a[1..])
  {
  }

  lemma SeqElems(pi: Map, q: seq<Pid>)
    ensures RSet(pi, Elems(q)) == Elems(RSeq(pi, q))
  {
    var r := RSeq(pi, q);
    forall x | x in Elems(r) ensures x in RSet(pi, Elems(q)) {
      var i :| 0 <= i < |r| && r[i] == x;
      SetHas(pi, Elems(q), q[i]);
    }
    forall p | p in q ensures pi(p) in r {
      var i :| 0 <= i < |q| && q[i] == p;
      assert r[i] == pi(p) && r[i] in r;
    }
  }

  lemma {:induction false} SeqWithout(pi: Map, q: seq<Pid>, p: Pid)
    requires Injective(pi)
    ensures RSeq(pi, Without(q, p)) == Without(RSeq(pi, q), pi(p))
  {
    if q != [] {
      SeqWithout(pi, q[1..], p);
      SeqTail(pi, q);
      var rest := Without(q[1..], p);
      if q[0] != p {
        SeqAdd(pi, [q[0]], rest);
        assert RSeq(pi, [q[0]]) == [pi(q[0])];
      }
    }
  }

  lemma WaitingPut(pi: Map, w: map<Addr, seq<Pid>>, a: Addr, q: seq<Pid>)
    ensures RWaiting(pi, w[a := q]) == RWaiting(pi, w)[a := RSeq(pi, q)]
    ensures RWaiting(pi, SetQueue(w, a, q)) == SetQueue(RWaiting(pi, w), a, RSeq(pi, q))
  {
  }

  lemma WaitingAt(pi: Map, w: map<Addr, seq<Pid>>, a: Addr)
    ensures a in RWaiting(pi, w) <==> a in w
    ensures a in w ==> RWaiting(pi, w)[a] == RSeq(pi, w[a])
  {
    hide RSeq;
  }

  lemma PurgeAt(w: map<Addr, seq<Pid>>, p: Pid, a: Addr)
    ensures a in Purge(w, p) <==> a in w && Without(w[a], p) != []
    ensures a in Purge(w, p) ==> Purge(w, p)[a] == Without(w[a], p)
  {
    hide Without;
  }

  lemma WaitingPurge(pi: Map, w: map<Addr, seq<Pid>>, p: Pid)
    requires Injective(pi)
    ensures RWaiting(pi, Purge(w, p)) == Purge(RWaiting(pi, w), pi(p))
  {
    hide *;
    var l, r := RWaiting(pi, Purge(w, p)), Purge(RWaiting(pi, w), pi(p));
    forall a: Addr ensures (a in l <==> a in r) && (a in l ==> l[a] == r[a]) {
      WaitingAt(pi, Purge(w, p), a);
      PurgeAt(w, p, a);
      WaitingAt(pi, w, a);
      PurgeAt(RWaiting(pi, w), pi(p), a);
      if a in w {
        SeqWithout(pi, w[a], p);
        SeqNothing(pi, Without(w[a], p));
      }
    }
    assert l == r;
  }

  lemma SeqNothing(pi: Map, q: seq<Pid>)
    ensures RSeq(pi, q) == [] <==> q == []
  {
  }

  lemma FramesPush(pi: Map, frames: seq<Frame>, f: Frame)
    ensures RFrames(pi, frames + [f]) == RFrames(pi, frames) + [RFrame(pi, f)]
  {
  }

  lemma FramesPop(pi: Map, frames: seq<Frame>)
    requires frames != []
    ensures RFrames(pi, frames)[|frames| - 1] == RFrame(pi, frames[|frames| - 1])
    ensures RFrames(pi, frames[..|frames| - 1]) == RFrames(pi, frames)[..|frames| - 1]
  {
  }

  lemma SetEmpty(pi: Map, s: set<Pid>)
    ensures RSet(pi, s) == {} <==> s == {}
  {
    if exists p :: p in s {
      var p :| p in s;
      assert pi(p) in RSet(pi, s);
    } else {
      assert s == {} && RSet(pi, s) == {};
    }
  }

  lemma SetSize(pi: Map, s: set<Pid>)
    requires Injective(pi)
    ensures |RSet(pi, s)| == |s|
  {
    if exists p :: p in s {
      var p :| p in s;
      SetSize(pi, s - {p});
      SetDrop(pi, s, p);
      SetAt(pi, s, p);
      assert |s - {p}| == |s| - 1;
    } else {
      assert s == {} && RSet(pi, s) == {};
    }
  }

  // ----- the machine, from the bottom up

  lemma VtidRen(pi: Map, s: State, p: Pid)
    requires Injective(pi)
    ensures VtidOf(Ren(pi, s), pi(p)) == VtidOf(s, p) && IsScheduled(Ren(pi, s), pi(p)) == IsScheduled(s, p)
    ensures pi(p) in Ren(pi, s).reg.threads <==> p in s.reg.threads
    ensures p in s.reg.threads ==> Ren(pi, s).reg.threads[pi(p)] == s.reg.threads[p]
  {
    MapAt(pi, s.reg.threads, p);
    hide RMap;
  }

  /** What a renaming leaves as it is. */
  lemma RenSame(pi: Map, s: State)
    requires Injective(pi)
    ensures var r := Ren(pi, s);
            && r.outcome == s.outcome && r.log == s.log && r.dev == s.dev && r.reg.vtidNext == s.reg.vtidNext
            && r.focus.groupExiting == s.focus.groupExiting && r.focus.lastVtid == s.focus.lastVtid
            && (r.focus.frames == [] <==> s.focus.frames == [])
  {
  }

  lemma EmitRen(pi: Map, s: State, e: Event)
    requires Injective(pi)
    ensures Ren(pi, Emit(s, e)) == Emit(Ren(pi, s), e)
  {
  }

  lemma CurrentRen(pi: Map, s: State, p: Pid)
    requires Injective(pi)
    ensures Ren(pi, s).focus.current == Some(pi(p)) <==> s.focus.current == Some(p)
  {
  }

  lemma SetTaskRen(pi: Map, s: State, p: Pid, t: Task)
    requires Injective(pi)
    ensures Ren(pi, SetTask(s, p, t)) == SetTask(Ren(pi, s), pi(p), t)
  {
    MapPut(pi, s.kern.task, p, t);
    hide RMap;
  }

  lemma PtraceCases(s: State, p: Pid, sig: Option<Signal>)
    ensures PtraceSyscall(s, p, sig) ==
            if p in s.kern.task && s.kern.task[p].Held? then Did(SetTask(s, p, Resumed), Resume(VtidOf(s, p), sig))
            else if p in s.kern.task && s.kern.task[p].ExitStop? then Did(SetTask(s, p, Dying), Resume(VtidOf(s, p), sig))
            else s.(outcome := Failed(Ptrace))
  {
  }

  lemma PtraceRen(pi: Map, s: State, p: Pid, sig: Option<Signal>)
    requires Injective(pi)
    ensures Ren(pi, PtraceSyscall(s, p, sig)) == PtraceSyscall(Ren(pi, s), pi(p), sig)
  {
    hide *;
    PtraceCases(s, p, sig);
    PtraceCases(Ren(pi, s), pi(p), sig);
    VtidRen(pi, s, p);
    SetTaskRen(pi, s, p, Resumed);
    SetTaskRen(pi, s, p, Dying);
    TaskKnown(pi, s, p);
    DidRen(pi, SetTask(s, p, Resumed), Resume(VtidOf(s, p), sig));
    DidRen(pi, SetTask(s, p, Dying), Resume(VtidOf(s, p), sig));
    FailRen(pi, s);
  }

  lemma TaskKnown(pi: Map, s: State, p: Pid)
    requires Injective(pi)
    ensures pi(p) in Ren(pi, s).kern.task <==> p in s.kern.task
    ensures p in s.kern.task ==> Ren(pi, s).kern.task[pi(p)] == s.kern.task[p]
  {
    MapAt(pi, s.kern.task, p);
    hide RMap;
  }

  lemma DidRen(pi: Map, s: State, act: Act)
    requires Injective(pi)
    ensures Ren(pi, Did(s, act)) == Did(Ren(pi, s), act)
  {
  }

  lemma FailRen(pi: Map, s: State)
    requires Injective(pi)
    ensures Ren(pi, s.(outcome := Failed(Ptrace))) == Ren(pi, s).(outcome := Failed(Ptrace))
  {
  }

  lemma ResumeRen(pi: Map, s: State, p: Pid)
    requires Injective(pi)
    ensures Ren(pi, ResumeThread(s, p)) == ResumeThread(Ren(pi, s), pi(p))
  {
    MapAt(pi, s.calls.sigPending, p);
    MapDrop(pi, s.calls.sigPending, p);
    hide RMap, PtraceSyscall;
    PtraceRen(pi, s.(calls := s.calls.(sigPending := s.calls.sigPending - {p})), p, SignalFor(s, p));
  }

  lemma ContinueRen(pi: Map, s: State, p: Pid)
    requires Injective(pi)
    ensures Ren(pi, ResumeCurrent(s, p)) == ResumeCurrent(Ren(pi, s), pi(p))
    ensures Ren(pi, Continue(s, p)) == Continue(Ren(pi, s), pi(p))
  {
    ResumeRen(pi, s, p);
    VtidRen(pi, s, p);
    CurrentRen(pi, s, p);
    hide ResumeThread, Ren, IsScheduled;
  }

  lemma PushRen(pi: Map, s: State, p: Pid)
    requires Injective(pi)
    ensures Ren(pi, PushRunnable(s, p)) == PushRunnable(Ren(pi, s), pi(p))
  {
    SeqPut(pi, s.q.runnable, p);
    hide RSeq;
  }

  lemma ReleaseRen(pi: Map, s: State, p: Pid)
    requires Injective(pi)
    ensures Ren(pi, Release(s, p)) == Release(Ren(pi, s), pi(p))
  {
    ResumeRen(pi, s, p);
    PushRen(pi, s, p);
    VtidRen(pi, s, p);
    hide ResumeThread, Ren, IsScheduled, PushRunnable;
  }

  lemma PickRen(pi: Map, s: State, tid: Pid)
    requires Injective(pi) && tid in s.reg.threads
    ensures pi(tid) in Ren(pi, s).reg.threads
    ensures Ren(pi, Pick(s, tid)) == Pick(Ren(pi, s), pi(tid))
  {
    VtidRen(pi, s, tid);
    var to := s.reg.threads[tid].vtid;
    var s1 := if s.focus.lastVtid != Some(to) then Emit(s, Schedule(s.focus.lastVtid, to)) else s;
    hide ResumeThread, RMap, RSeq, RSet, RWaiting, RFrames;
    ResumeRen(pi, Did(s1.(focus := s1.focus.(lastVtid := Some(to), current := Some(tid))), Turn(to)), tid);
  }

  lemma AnyConcurrentRen(pi: Map, s: State)
    requires Injective(pi)
    ensures AnyConcurrent(Ren(pi, s)) <==> AnyConcurrent(s)
  {
    if AnyConcurrent(s) {
      var p :| p in s.reg.threads && !s.reg.threads[p].scheduled;
      VtidRen(pi, s, p);
    }
  }

  lemma {:induction false} ScheduleNextRen(pi: Map, s: State)
    requires Injective(pi)
    ensures Ren(pi, ScheduleNext(s)) == ScheduleNext(Ren(pi, s))
    decreases |s.q.runnable|
  {
    if s.q.runnable == [] {
      AnyConcurrentRen(pi, s);
      SetEmpty(pi, s.q.pendingStart);
      hide AnyConcurrent, RMap, RSet;
    } else {
      var tid := s.q.runnable[0];
      SeqTail(pi, s.q.runnable);
      VtidRen(pi, s, tid);
      SetAt(pi, s.q.blocked, tid);
      assert Ren(pi, PopRunnable(s)) == PopRunnable(Ren(pi, s));
      hide Pick, RMap, RSeq, RSet, RWaiting, RFrames;
      if tid !in s.reg.threads || tid in s.q.blocked {
        ScheduleNextRen(pi, PopRunnable(s));
      } else {
        PickRen(pi, PopRunnable(s), tid);
      }
    }
  }

  lemma YieldRen(pi: Map, s: State, p: Pid)
    requires Injective(pi)
    ensures Ren(pi, YieldCurrent(s, p)) == YieldCurrent(Ren(pi, s), pi(p))
  {
    CurrentRen(pi, s, p);
    PushRen(pi, SetCurrent(s, None), p);
    hide ScheduleNext, PushRunnable, RMap, RSeq, RSet, RWaiting, RFrames;
    ScheduleNextRen(pi, if s.focus.current == Some(p) then PushRunnable(SetCurrent(s, None), p) else s);
  }

  // ----- futexes

  lemma SkipRen(pi: Map, s: State, p: Pid, syscall: nat, retval: nat)
    requires Injective(pi)
    ensures Ren(pi, SkipSyscall(s, p, syscall, retval)) == SkipSyscall(Ren(pi, s), pi(p), syscall, retval)
  {
    VtidRen(pi, s, p);
    MapPut(pi, s.calls.pending, p, Inject(syscall, retval));
    hide RMap, VtidOf;
  }

  lemma BlockRen(pi: Map, s: State, p: Pid, addr: Addr)
    requires Injective(pi)
    ensures Ren(pi, Block(s, p, addr)) == Block(Ren(pi, s), pi(p), addr)
  {
    VtidRen(pi, s, p);
    SetPut(pi, s.q.blocked, p);
    var queue := if addr in s.q.waiting then s.q.waiting[addr] else [];
    SeqPut(pi, queue, p);
    WaitingPut(pi, s.q.waiting, addr, queue + [p]);
    assert (if addr in RWaiting(pi, s.q.waiting) then RWaiting(pi, s.q.waiting)[addr] else []) == RSeq(pi, queue);
    hide RMap, RSeq, RSet, RWaiting, VtidOf;
  }

  lemma {:induction false} WakeLoopRen(pi: Map, parked: seq<Pid>, blocked: set<Pid>, cap: nat)
    requires Injective(pi)
    ensures var r := WakeLoop(parked, blocked, cap);
            WakeLoop(RSeq(pi, parked), RSet(pi, blocked), cap) == Split(RSeq(pi, r.woken), RSeq(pi, r.left))
  {
    if cap != 0 && parked != [] {
      SeqTail(pi, parked);
      SetAt(pi, blocked, parked[0]);
      SetDrop(pi, blocked, parked[0]);
      if parked[0] in blocked {
        WakeLoopRen(pi, parked[1..], blocked - {parked[0]}, cap - 1);
        var r := WakeLoop(parked[1..], blocked - {parked[0]}, cap - 1);
        SeqAdd(pi, [parked[0]], r.woken);
        assert RSeq(pi, [parked[0]]) == [pi(parked[0])];
      } else {
        WakeLoopRen(pi, parked[1..], blocked, cap);
      }
    } else {
      assert RSeq(pi, []) == [];
    }
  }

  lemma UnparksRen(pi: Map, names: map<Pid, Thread>, woken: seq<Pid>, addr: Addr)
    requires Injective(pi)
    ensures Unparks(RMap(pi, names), RSeq(pi, woken), addr) == Unparks(names, woken, addr)
  {
    forall i | 0 <= i < |woken| ensures VtidIn(RMap(pi, names), pi(woken[i])) == VtidIn(names, woken[i]) {
      MapAt(pi, names, woken[i]);
    }
  }

  lemma WakeSplitRen(pi: Map, s: State, addr: Addr, val: u64)
    requires Injective(pi)
    ensures addr in Ren(pi, s).q.waiting <==> addr in s.q.waiting
    ensures var r := WakeSplit(s, addr, val);
            WakeSplit(Ren(pi, s), addr, val) == Split(RSeq(pi, r.woken), RSeq(pi, r.left))
    ensures WakeCount(Ren(pi, s), addr, val) == WakeCount(s, addr, val)
  {
    assert RSeq(pi, []) == [];
    if addr in s.q.waiting {
      WakeLoopRen(pi, s.q.waiting[addr], s.q.blocked, Cap(val));
    }
    hide WakeLoop, RMap, RSet, RFrames;
  }

  lemma WakeRen(pi: Map, s: State, names: map<Pid, Thread>, addr: Addr, val: u64)
    requires Injective(pi)
    ensures Ren(pi, Wake(s, names, addr, val)) == Wake(Ren(pi, s), RMap(pi, names), addr, val)
  {
    WakeSplitRen(pi, s, addr, val);
    var r := WakeSplit(s, addr, val);
    SetMinus(pi, s.q.blocked, Elems(r.woken));
    SeqElems(pi, r.woken);
    SeqAdd(pi, s.q.runnable, r.woken);
    WaitingPut(pi, s.q.waiting, addr, r.left);
    UnparksRen(pi, names, r.woken, addr);
    hide WakeSplit, RMap, RSeq, RSet, RWaiting, RFrames, SetQueue, Elems, Unparks;
  }

  // ----- thread life cycle

  lemma EnrolRen(pi: Map, s: State, c: Pid, thread: Thread)
    requires Injective(pi)
    ensures Ren(pi, Enrol(s, c, thread)) == Enrol(Ren(pi, s), pi(c), thread)
  {
    MapPut(pi, s.reg.threads, c, thread);
    hide RMap, RSeq, RSet, RWaiting, RFrames;
  }

  lemma AdmitRen(pi: Map, s: State, c: Pid)
    requires Injective(pi)
    ensures Ren(pi, Admit(s, c)) == Admit(Ren(pi, s), pi(c))
  {
    SetAt(pi, s.q.stoppedPending, c);
    SetDrop(pi, s.q.stoppedPending, c);
    SetPut(pi, s.q.pendingStart, c);
    hide RMap, RSeq, RSet, RWaiting, RFrames, Release;
    ReleaseRen(pi, s.(q := s.q.(stoppedPending := s.q.stoppedPending - {c})), c);
  }

  lemma RegisterRen(pi: Map, s: State, c: Pid, info: CloneInfo)
    requires Injective(pi)
    ensures Ren(pi, Register(s, c, info)) == Register(Ren(pi, s), pi(c), info)
  {
    VtidRen(pi, s, c);
    RenSame(pi, s);
    var thread := Thread(s.reg.vtidNext, info.childTid, info.flags, HasCloneThread(info.flags));
    hide Ren, Admit, Enrol, Emit;
    EnrolRen(pi, s, c, thread);
    AdmitRen(pi, Enrol(s, c, thread), c);
    var t := Admit(Enrol(s, c, thread), c);
    RenSame(pi, t);
    EmitRen(pi, t, ThreadCreate(thread.vtid, thread.scheduled));
  }

  lemma RetireRen(pi: Map, s: State, p: Pid, record: bool)
    requires Injective(pi)
    ensures Ren(pi, Retire(s, p, record)) == Retire(Ren(pi, s), pi(p), record)
  {
    VtidRen(pi, s, p);
    if p in s.reg.threads {
      var t := s.reg.threads[p];
      var s1 := s.(reg := s.reg.(threads := s.reg.threads - {p}));
      MapDrop(pi, s.reg.threads, p);
      hide RMap, RSeq, RSet, RWaiting, RFrames, Wake;
      WakeRen(pi, s1, s.reg.threads, t.childTid, 1);
      var s2 := if t.childTid != 0 && HasClearTid(t.flags) then Wake(s1, s.reg.threads, t.childTid, 1) else s1;
      MapDrop(pi, s2.calls.pending, p);
    }
  }

  lemma ForgetRen(pi: Map, s: State, p: Pid)
    requires Injective(pi)
    ensures Ren(pi, Forget(s, p)) == Forget(Ren(pi, s), pi(p))
  {
    SeqWithout(pi, s.q.runnable, p);
    SetDrop(pi, s.q.pendingStart, p);
    SetDrop(pi, s.q.stoppedPending, p);
    SetDrop(pi, s.q.blocked, p);
    WaitingPurge(pi, s.q.waiting, p);
    MapDrop(pi, s.calls.sigPending, p);
    hide RMap, RSeq, RSet, RWaiting, RFrames, Without, Purge;
  }

  lemma ExitRen(pi: Map, s: State, p: Pid, record: bool)
    requires Injective(pi)
    ensures Ren(pi, OnThreadExit(s, p, record)) == OnThreadExit(Ren(pi, s), pi(p), record)
  {
    RetireRen(pi, s, p, record);
    ForgetRen(pi, Retire(s, p, record), p);
    hide Retire, Forget, Ren;
  }

  // ----- system calls

  lemma WriteRen(pi: Map, s: State, p: Pid, addr: Addr, data: Data, writable: bool)
    requires Injective(pi)
    ensures Ren(pi, WriteMem(s, p, addr, data, writable)) == WriteMem(Ren(pi, s), pi(p), addr, data, writable)
  {
    VtidRen(pi, s, p);
    hide RMap, RSeq, RSet, RWaiting, RFrames, VtidOf;
  }

  lemma GetRandomRen(pi: Map, s: State, p: Pid, regs: Regs, mem: Memory)
    requires Injective(pi)
    ensures Ren(pi, InterceptGetRandom(s, p, regs, mem)) == InterceptGetRandom(Ren(pi, s), pi(p), regs, mem)
  {
    hide RMap, RSeq, RSet, RWaiting, RFrames, Recorder.Filled, Recorder.Hex, Prng.WordAfter, WriteMem, SkipSyscall;
    var buflen := if regs.rsi < GETRANDOM_MAX then regs.rsi else GETRANDOM_MAX;
    var s1 := s.(dev := s.dev.(rng := Prng.WordAfter(s.dev.rng, Recorder.DrawsFor(buflen))));
    var data := Random(Recorder.Filled(s.dev.rng, buflen));
    WriteRen(pi, s1, p, regs.rdi, data, mem.writable);
    SkipRen(pi, if buflen > 0 then WriteMem(s1, p, regs.rdi, data, mem.writable) else s1, p, SYS_GETRANDOM, buflen);
  }

  lemma ClockRen(pi: Map, s: State, p: Pid, regs: Regs, mem: Memory)
    requires Injective(pi)
    ensures Ren(pi, InterceptClockGettime(s, p, regs, mem)) == InterceptClockGettime(Ren(pi, s), pi(p), regs, mem)
    ensures Ren(pi, InterceptGetTimeOfDay(s, p, regs, mem)) == InterceptGetTimeOfDay(Ren(pi, s), pi(p), regs, mem)
  {
    hide RMap, RSeq, RSet, RWaiting, RFrames, Clock.Read, Clock.NextTick, WriteMem, SkipSyscall;
    var clk := AsI32(regs.rdi);
    var r, w := Clock.Read(s.dev.tick, clk), Clock.Read(s.dev.tick, Clock.CLOCK_REALTIME);
    var s1 := s.(dev := s.dev.(tick := Clock.NextTick(s.dev.tick, clk)));
    WriteRen(pi, s1, p, regs.rsi, Time(r.sec, r.nsec), mem.writable);
    SkipRen(pi, WriteMem(s1, p, regs.rsi, Time(r.sec, r.nsec), mem.writable), p, SYS_CLOCK_GETTIME, 0);
    WriteRen(pi, s, p, regs.rdi, Time(w.sec, w.nsec / 1_000), mem.writable);
    SkipRen(pi, WriteMem(s, p, regs.rdi, Time(w.sec, w.nsec / 1_000), mem.writable), p, SYS_GETTIMEOFDAY, 0);
  }

  lemma PlanRen(pi: Map, s: State, p: Pid, regs: Regs, mem: Memory)
    requires Injective(pi)
    ensures PlanFutex(Ren(pi, s), pi(p), regs, mem) == PlanFutex(s, p, regs, mem)
    ensures Parks(Ren(pi, s), pi(p), regs, mem) == Parks(s, p, regs, mem)
  {
    VtidRen(pi, s, p);
    assert ScheduledPids(Ren(pi, s)) == RSet(pi, ScheduledPids(s)) by {
      forall q | q in s.reg.threads ensures IsScheduled(Ren(pi, s), pi(q)) == IsScheduled(s, q) { VtidRen(pi, s, q); }
    }
    SetSize(pi, ScheduledPids(s));
    hide Ren, IsScheduled, ScheduledPids, RSet;
  }

  lemma ParkRen(pi: Map, s: State, p: Pid, addr: Addr, cmd: nat)
    requires Injective(pi)
    ensures Ren(pi, ParkThread(s, p, cmd, addr)) == ParkThread(Ren(pi, s), pi(p), cmd, addr)
  {
    hide SkipSyscall, Block, Ren, TraceFutex;
    SkipRen(pi, s, p, SYS_FUTEX, 0);
    var s1 := SkipSyscall(s, p, SYS_FUTEX, 0);
    BlockRen(pi, s1, p, addr);
    TraceFutexRen(pi, Block(s1, p, addr), p, cmd, FutexParked);
  }

  lemma AnswerRen(pi: Map, s: State, p: Pid, n: nat, cmd: nat)
    requires Injective(pi)
    ensures Ren(pi, AnswerWake(s, p, cmd, n)) == AnswerWake(Ren(pi, s), pi(p), cmd, n)
  {
    hide SkipSyscall, Ren, TraceFutex;
    SkipRen(pi, s, p, SYS_FUTEX, n);
    TraceFutexRen(pi, SkipSyscall(s, p, SYS_FUTEX, n), p, cmd, FutexWoke);
  }

  lemma WakeAtRen(pi: Map, s: State, addr: Addr, val: u64)
    requires Injective(pi)
    ensures Ren(pi, WakeAt(s, addr, val)) == WakeAt(Ren(pi, s), addr, val)
    ensures WakeCount(Ren(pi, s), addr, val) == WakeCount(s, addr, val)
  {
    WakeRen(pi, s, s.reg.threads, addr, val);
    WakeSplitRen(pi, s, addr, val);
    hide Wake, WakeCount, RMap;
  }

  lemma CarryOutRen(pi: Map, s: State, p: Pid, cmd: nat, plan: FutexPlan)
    requires Injective(pi)
    ensures Ren(pi, CarryOut(s, p, cmd, plan)) == CarryOut(Ren(pi, s), pi(p), cmd, plan)
  {
    hide Ren, TraceFutex, ParkThread, AnswerWake, WakeAt, WakeCount;
    match plan {
      case PassThrough => TraceFutexRen(pi, s, p, cmd, FutexPass);
      case ParkOn(addr) => ParkRen(pi, s, p, addr, cmd);
      case WakeOn(addr, val) =>
        WakeAtRen(pi, s, addr, val);
        AnswerRen(pi, WakeAt(s, addr, val), p, WakeCount(s, addr, val), cmd);
      case RequeueOn(addr, val, val2) =>
        var s1 := WakeAt(s, addr, val);
        WakeAtRen(pi, s, addr, val);
        WakeAtRen(pi, s1, addr, val2);
        AnswerRen(pi, WakeAt(s1, addr, val2), p, WakeCount(s, addr, val) + WakeCount(s1, addr, val2), cmd);
    }
  }

  lemma FutexRen(pi: Map, s: State, p: Pid, regs: Regs, mem: Memory)
    requires Injective(pi)
    ensures Ren(pi, InterceptFutex(s, p, regs, mem)) == InterceptFutex(Ren(pi, s), pi(p), regs, mem)
  {
    PlanRen(pi, s, p, regs, mem);
    hide PlanFutex, CarryOut, Ren;
    CarryOutRen(pi, s, p, FutexCmd(regs), PlanFutex(s, p, regs, mem));
  }

  lemma TraceFutexRen(pi: Map, s: State, p: Pid, cmd: nat, kind: FutexKind)
    requires Injective(pi)
    ensures Ren(pi, TraceFutex(s, p, cmd, kind)) == TraceFutex(Ren(pi, s), pi(p), cmd, kind)
  {
    VtidRen(pi, s, p);
    hide RMap, RSeq, RSet, RWaiting, RFrames, VtidOf;
  }

  lemma StashRen(pi: Map, s: State, p: Pid, nr: nat, regs: Regs, mem: Memory)
    requires Injective(pi)
    ensures Ren(pi, StashClone(s, p, nr, regs, mem)) == StashClone(Ren(pi, s), pi(p), nr, regs, mem)
  {
    var info := if nr == SYS_CLONE3 then
                  match mem.cloneArgs case Some(args) => args case None => CloneInfo(0, 0)
                else CloneInfo(regs.rdi, regs.r10);
    MapPut(pi, s.calls.clonePending, p, info);
    hide RMap, RSeq, RSet, RWaiting, RFrames;
  }

  lemma EntryRen(pi: Map, s: State, p: Pid, regs: Regs, mem: Memory)
    requires Injective(pi)
    ensures Ren(pi, OnSyscallEntry(s, p, regs, mem)) == OnSyscallEntry(Ren(pi, s), pi(p), regs, mem)
  {
    var nr := regs.origRax;
    hide RMap, RSeq, RSet, RWaiting, RFrames, InterceptFutex, InterceptGetRandom, InterceptClockGettime,
      InterceptGetTimeOfDay, StashClone;
    FutexRen(pi, s, p, regs, mem);
    GetRandomRen(pi, s, p, regs, mem);
    ClockRen(pi, s, p, regs, mem);
    StashRen(pi, s, p, nr, regs, mem);
  }

  lemma ReturnRen(pi: Map, s: State, p: Pid, inject: Inject)
    requires Injective(pi)
    ensures Ren(pi, Did(s.(calls := s.calls.(pending := s.calls.pending - {p})), Return(VtidOf(s, p), inject.syscall, inject.retval)))
         == var r := Ren(pi, s); Did(r.(calls := r.calls.(pending := r.calls.pending - {pi(p)})),
                                     Return(VtidOf(r, pi(p)), inject.syscall, inject.retval))
  {
    MapDrop(pi, s.calls.pending, p);
    VtidRen(pi, s, p);
    hide RMap, RSeq, RSet, RWaiting, RFrames, VtidOf;
  }

  lemma PendingAt(pi: Map, s: State, p: Pid)
    requires Injective(pi)
    ensures pi(p) in Ren(pi, s).calls.pending <==> p in s.calls.pending
    ensures p in s.calls.pending ==> Ren(pi, s).calls.pending[pi(p)] == s.calls.pending[p]
  {
    MapAt(pi, s.calls.pending, p);
    hide RMap;
  }

  lemma OnExitRen(pi: Map, s: State, p: Pid)
    requires Injective(pi)
    ensures Ren(pi, OnSyscallExit(s, p)) == OnSyscallExit(Ren(pi, s), pi(p))
  {
    PendingAt(pi, s, p);
    if p in s.calls.pending {
      var inject := s.calls.pending[p];
      ReturnRen(pi, s, p, inject);
      hide Ren, Emit, Did;
      EmitRen(pi, Did(s.(calls := s.calls.(pending := s.calls.pending - {p})), Return(VtidOf(s, p), inject.syscall, inject.retval)),
              Syscall(inject.syscall, Injected));
    }
    hide Ren, Emit, Did;
  }

  // ----- one status

  lemma DeliverRen(pi: Map, s: State, st: Status)
    requires Injective(pi)
    ensures Ren(pi, Deliver(s, st)) == Deliver(Ren(pi, s), RenStatus(pi, st))
  {
    hide Ren, SetTask;
    match st {
      case SyscallStop(p, _) => SetTaskRen(pi, s, p, Held);
      case OtherEvent(p) => SetTaskRen(pi, s, p, Held);
      case SignalStop(p, _) => SetTaskRen(pi, s, p, Held);
      case ExitEvent(p) => SetTaskRen(pi, s, p, ExitStop);
      case CloneEvent(p, c) =>
        SetTaskRen(pi, s, p, Held);
        var s1 := SetTask(s, p, Held);
        TaskAt(pi, s1, c);
        SetTaskRen(pi, s1, c, Attaching);
      case Exited(p, _) => TaskDropRen(pi, s, p);
      case Killed(p, _) => TaskDropRen(pi, s, p);
      case Idle =>
    }
  }

  lemma TaskAt(pi: Map, s: State, p: Pid)
    requires Injective(pi)
    ensures pi(p) in Ren(pi, s).kern.task <==> p in s.kern.task
    ensures p in s.kern.task ==> Ren(pi, s).kern.task[pi(p)] == s.kern.task[p]
  {
    MapAt(pi, s.kern.task, p);
    hide RMap;
  }

  lemma TaskDropRen(pi: Map, s: State, p: Pid)
    requires Injective(pi)
    ensures Ren(pi, s.(kern := s.kern.(task := s.kern.task - {p})))
         == var r := Ren(pi, s); r.(kern := r.kern.(task := r.kern.task - {pi(p)}))
  {
    MapDrop(pi, s.kern.task, p);
    hide RMap, RSeq, RSet, RWaiting, RFrames;
  }

  lemma SetCurrentRen(pi: Map, s: State)
    requires Injective(pi)
    ensures Ren(pi, SetCurrent(s, None)) == SetCurrent(Ren(pi, s), None)
  {
  }

  lemma ConcurrentSyscallRen(pi: Map, s: State, p: Pid, op: SyscallOp)
    requires Injective(pi)
    ensures Ren(pi, ConcurrentSyscall(s, p, op)) == ConcurrentSyscall(Ren(pi, s), pi(p), op)
  {
    hide Ren, OnSyscallEntry, OnSyscallExit, ResumeThread;
    var t := match op
             case Entry(regs, mem) => OnSyscallEntry(s, p, regs, mem)
             case Exit => OnSyscallExit(s, p)
             case NoInfo => s;
    match op {
      case Entry(regs, mem) => EntryRen(pi, s, p, regs, mem);
      case Exit => OnExitRen(pi, s, p);
      case NoInfo =>
    }
    RenSame(pi, t);
    ResumeRen(pi, t, p);
  }

  lemma ScheduledEntryRen(pi: Map, s: State, p: Pid, regs: Regs, mem: Memory)
    requires Injective(pi)
    ensures Ren(pi, ScheduledEntry(s, p, regs, mem)) == ScheduledEntry(Ren(pi, s), pi(p), regs, mem)
  {
    var t := OnSyscallEntry(s, p, regs, mem);
    hide Ren, OnSyscallEntry, ResumeCurrent, Parks, SetCurrent, PlanFutex;
    EntryRen(pi, s, p, regs, mem);
    PlanRen(pi, s, p, regs, mem);
    RenSame(pi, t);
    ContinueRen(pi, t, p);
    SetCurrentRen(pi, t);
  }

  lemma HandleSyscallRen(pi: Map, s: State, p: Pid, op: SyscallOp)
    requires Injective(pi)
    ensures Ren(pi, HandleSyscall(s, p, op)) == HandleSyscall(Ren(pi, s), pi(p), op)
  {
    hide Ren, IsScheduled, OnSyscallExit, ResumeCurrent, YieldCurrent, ConcurrentSyscall, ScheduledEntry, VtidOf;
    VtidRen(pi, s, p);
    ConcurrentSyscallRen(pi, s, p, op);
    match op {
      case Entry(regs, mem) => ScheduledEntryRen(pi, s, p, regs, mem);
      case Exit =>
        OnExitRen(pi, s, p);
        YieldRen(pi, OnSyscallExit(s, p), p);
      case NoInfo => ContinueRen(pi, s, p);
    }
  }

  lemma FrameRen(pi: Map, s: State, f: Frame)
    requires Injective(pi)
    ensures Ren(pi, s.(focus := s.focus.(frames := s.focus.frames + [f])))
         == var r := Ren(pi, s); r.(focus := r.focus.(frames := r.focus.frames + [Frame(pi(f.parent), pi(f.child))]))
  {
    FramesPush(pi, s.focus.frames, f);
    hide RMap, RSeq, RSet, RWaiting, RFrames;
  }

  lemma HandleCloneRen(pi: Map, s: State, p: Pid, c: Pid)
    requires Injective(pi)
    ensures Ren(pi, HandleClone(s, p, c)) == HandleClone(Ren(pi, s), pi(p), pi(c))
  {
    MapAt(pi, s.calls.clonePending, p);
    MapDrop(pi, s.calls.clonePending, p);
    var info := if p in s.calls.clonePending then s.calls.clonePending[p] else CloneInfo(0, 0);
    var e := s.(calls := s.calls.(clonePending := s.calls.clonePending - {p}));
    RegisterRen(pi, e, c, info);
    var t := Register(e, c, info);
    SetAt(pi, t.q.pendingStart, c);
    FrameRen(pi, t, Frame(p, c));
    ContinueRen(pi, t, p);
    hide RMap, RSeq, RSet, RWaiting, RFrames, Register, Continue;
  }

  lemma HandleSignalRen(pi: Map, s: State, p: Pid, sig: Signal)
    requires Injective(pi)
    ensures Ren(pi, HandleSignalStop(s, p, sig)) == HandleSignalStop(Ren(pi, s), pi(p), sig)
  {
    VtidRen(pi, s, p);
    CurrentRen(pi, s, p);
    SetAt(pi, s.q.pendingStart, p);
    SetDrop(pi, s.q.pendingStart, p);
    SetPut(pi, s.q.stoppedPending, p);
    MapPut(pi, s.calls.sigPending, p, sig);
    ResumeRen(pi, s, p);
    PtraceRen(pi, s, p, Some(sig));
    ReleaseRen(pi, s.(q := s.q.(pendingStart := s.q.pendingStart - {p})), p);
    hide RMap, RSeq, RSet, RWaiting, RFrames, ResumeThread, PtraceSyscall, Release, IsScheduled;
  }

  lemma HandleDeathRen(pi: Map, s: State, p: Pid)
    requires Injective(pi)
    ensures Ren(pi, HandleDeath(s, p)) == HandleDeath(Ren(pi, s), pi(p))
  {
    CurrentRen(pi, s, p);
    var wasCurrent := s.focus.current == Some(p);
    ExitRen(pi, s, p, wasCurrent);
    var t := OnThreadExit(s, p, wasCurrent);
    SetCurrentRen(pi, t);
    ScheduleNextRen(pi, SetCurrent(t, None));
    assert Ren(pi, t).focus.groupExiting == t.focus.groupExiting;
    hide Ren, OnThreadExit, ScheduleNext, SetCurrent;
  }

  lemma HandleRen(pi: Map, s: State, st: Status)
    requires Injective(pi)
    ensures Ren(pi, Handle(s, st)) == Handle(Ren(pi, s), RenStatus(pi, st))
  {
    hide RMap, RSeq, RSet, RWaiting, RFrames, HandleSyscall, HandleClone, HandleSignalStop, HandleDeath, ResumeThread, Continue;
    match st {
      case SyscallStop(p, op) => HandleSyscallRen(pi, s, p, op);
      case CloneEvent(p, c) => HandleCloneRen(pi, s, p, c);
      case ExitEvent(p) => ResumeRen(pi, s, p);
      case OtherEvent(p) => ContinueRen(pi, s, p);
      case SignalStop(p, sig) => HandleSignalRen(pi, s, p, sig);
      case Exited(p, _) => HandleDeathRen(pi, s, p);
      case Killed(p, _) => HandleDeathRen(pi, s, p);
      case Idle =>
    }
  }

  lemma StartDropRen(pi: Map, s: State, c: Pid)
    requires Injective(pi)
    ensures Ren(pi, s.(q := s.q.(pendingStart := s.q.pendingStart - {c})))
         == var r := Ren(pi, s); r.(q := r.q.(pendingStart := r.q.pendingStart - {pi(c)}))
  {
    SetDrop(pi, s.q.pendingStart, c);
    hide RMap, RSeq, RSet, RWaiting, RFrames;
  }

  lemma PopFrameRen(pi: Map, s: State)
    requires Injective(pi) && s.focus.frames != []
    ensures Ren(pi, s).focus.frames != []
    ensures Ren(pi, s).focus.frames[|Ren(pi, s).focus.frames| - 1] == RFrame(pi, s.focus.frames[|s.focus.frames| - 1])
    ensures Ren(pi, s.(focus := s.focus.(frames := s.focus.frames[..|s.focus.frames| - 1])))
         == var r := Ren(pi, s); r.(focus := r.focus.(frames := r.focus.frames[..|r.focus.frames| - 1]))
  {
    FramesPop(pi, s.focus.frames);
    hide RMap, RSeq, RSet, RWaiting, RFrames;
  }

  lemma FinishRen(pi: Map, s: State)
    requires Injective(pi) && s.focus.frames != []
    ensures Ren(pi, s).focus.frames != []
    ensures Ren(pi, FinishAwait(s)) == FinishAwait(Ren(pi, s))
  {
    var f := s.focus.frames[|s.focus.frames| - 1];
    var e := s.(q := s.q.(pendingStart := s.q.pendingStart - {f.child}));
    PopFrameRen(pi, s);
    StartDropRen(pi, s, f.child);
    ReleaseRen(pi, e, f.child);
    var t := Release(e, f.child);
    ReleaseFrames(e, f.child);
    hide Ren, Release, Continue;
    RenSame(pi, t);
    PopFrameRen(pi, t);
    ContinueRen(pi, t.(focus := t.focus.(frames := t.focus.frames[..|t.focus.frames| - 1])), f.parent);
  }

  lemma ReleaseFrames(s: State, c: Pid)
    ensures Release(s, c).focus == s.focus
  {
  }

  lemma AwaitedRen(pi: Map, s: State, st: Status)
    requires Injective(pi)
    ensures Awaited(Ren(pi, s), RenStatus(pi, st)) <==> Awaited(s, st)
  {
    if s.focus.frames != [] {
      FramesPop(pi, s.focus.frames);
    }
  }

  lemma InnerRen(pi: Map, s: State, st: Status)
    requires Injective(pi)
    ensures Ren(pi, Inner(s, st)) == Inner(Ren(pi, s), RenStatus(pi, st))
  {
    DeliverRen(pi, s, st);
    AwaitedRen(pi, s, st);
    if Awaited(s, st) {
      DeliverFrames(s, st);
      FinishRen(pi, Deliver(s, st));
    } else {
      HandleRen(pi, Deliver(s, st), st);
    }
    hide Ren, Deliver, Handle, FinishAwait, Awaited, RenStatus;
  }

  lemma DeliverFrames(s: State, st: Status)
    ensures Deliver(s, st).focus == s.focus
  {
  }

  lemma TailRen(pi: Map, s: State)
    requires Injective(pi)
    ensures Ren(pi, Tail(s)) == Tail(Ren(pi, s))
  {
    ScheduleNextRen(pi, s);
    assert Ren(pi, s).focus.frames == [] <==> s.focus.frames == [];
    hide ScheduleNext, RMap, RSeq, RSet, RWaiting;
  }

  lemma StepRen(pi: Map, s: State, st: Status)
    requires Injective(pi)
    ensures Ren(pi, Step(s, st)) == Step(Ren(pi, s), RenStatus(pi, st))
  {
    InnerRen(pi, s, st);
    TailRen(pi, Inner(s, st));
    assert Ren(pi, s).outcome == s.outcome;
    hide Ren, Inner, Tail, RenStatus;
  }

  ghost function RenStatuses(pi: Map, sts: seq<Status>): (r: seq<Status>)
    ensures |r| == |sts|
  {
    seq(|sts|, i requires 0 <= i < |sts| => RenStatus(pi, sts[i]))
  }

  /** For every injective renaming of pids, every state and every status stream: running the renamed
      machine on the renamed stream gives the renamed final state — with the very same trace, log,
      generator, clock and outcome. */
  lemma {:induction false} RunRen(pi: Map, s: State, sts: seq<Status>)
    requires Injective(pi)
    ensures Ren(pi, Run(s, sts)) == Run(Ren(pi, s), RenStatuses(pi, sts))
    ensures Run(Ren(pi, s), RenStatuses(pi, sts)).log == Run(s, sts).log
    ensures Run(Ren(pi, s), RenStatuses(pi, sts)).outcome == Run(s, sts).outcome
  {
    if sts != [] {
      var pre := sts[..|sts| - 1];
      assert RenStatuses(pi, sts)[..|sts| - 1] == RenStatuses(pi, pre);
      assert RenStatuses(pi, sts)[|sts| - 1] == RenStatus(pi, sts[|sts| - 1]);
      hide Step, RenStatus;
      RunRen(pi, s, pre);
      StepRen(pi, Run(s, pre), sts[|sts| - 1]);
    }
    hide Step;
  }
}
