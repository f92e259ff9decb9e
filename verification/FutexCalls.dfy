/** What a futex call does, in every reachable state and in the numbers of the x86-64 ABI, told without the supervisor's
    own definitions (src/runtime/supervisor.rs:529-557, 615-678). */
module FutexCalls {
  import opened Base
  import opened Machine
  import opened Invariants
  import opened Calls
  import Futexes

  /** A thread of the init with company: another thread shares its address space. */
  ghost predicate Shares(s: State, p: Pid) {
    && p in s.reg.threads && s.reg.threads[p].scheduled
    && exists q :: q != p && q in s.reg.threads && s.reg.threads[q].scheduled
  }

  /** The call is left to the kernel. */
  ghost predicate Passes(s: State, t: State, p: Pid, cmd: nat) {
    && GoesOn(s, t, p, Futex(cmd, FutexPass, VtidOf(s, p))) && SameGroup(s, t) && t.dev == s.dev
    && t.calls.pending == s.calls.pending && Does(s, t, p, [])
  }

  /** The threads parked on a word, the oldest first. */
  function Line(s: State, word: Addr): seq<Pid> { if word in s.q.waiting then s.q.waiting[word] else [] }

  /** The caller is parked at the end of the word's line, with a value of 0 owed; whoever is first in the runnable queue
      has its turn. Inside a wait for an attach stop nobody has; with nobody in the queue the run goes on only if a stop
      is still to come. */
  ghost predicate Sleeps(s: State, t: State, p: Pid, word: Addr, cmd: nat) {
    && t.reg == s.reg && t.dev == s.dev && t.calls.clonePending == s.calls.clonePending
    && t.q.blocked == s.q.blocked + {p} && t.q.waiting == s.q.waiting[word := Line(s, word) + [p]]
    && t.q.pendingStart == s.q.pendingStart && t.q.stoppedPending == s.q.stoppedPending
    && t.calls.pending == s.calls.pending[p := Inject(202, 0)] && IsTask(t, p, Held)
    && s.log.trace + [Record(s.log.lastNumber + 1, Futex(cmd, FutexParked, VtidOf(s, p)))] <= t.log.trace
    && s.log.acts + [Skip(VtidOf(s, p), 202, 0), Park(VtidOf(s, p), word)] <= t.log.acts
    && if s.focus.frames != [] || s.q.runnable == [] then
         && t.focus == s.focus.(current := None) && t.q.runnable == s.q.runnable
         && t.outcome == if s.focus.frames != [] || s.q.pendingStart != {}
                            || exists q :: q in s.reg.threads && !s.reg.threads[q].scheduled then InProgress else Failed(Deadlock)
       else
         t.focus.current == Some(s.q.runnable[0]) && t.q.runnable == s.q.runnable[1..]
  }

  /** The caller is told how many were woken: the oldest of the word, up to `cap` of them, in order. */
  ghost predicate Wakes(s: State, t: State, p: Pid, word: Addr, cap: nat, cmd: nat) {
    var line := Line(s, word);
    var n := if cap < |line| then cap else |line|;
    && Continues(s, t, p, Futex(cmd, FutexWoke, VtidOf(s, p))) && SameGroup(s, t) && t.dev == s.dev && Owes(s, t, p, 202, n)
    && t.q.runnable == s.q.runnable + line[..n]
    && t.q.blocked == s.q.blocked - (set q | q in line[..n])
    && t.q.waiting == (if n == 0 then s.q.waiting else if n == |line| then s.q.waiting - {word} else s.q.waiting[word := line[n..]])
    && t.q.pendingStart == s.q.pendingStart && t.q.stoppedPending == s.q.stoppedPending
    && Does(s, t, p, seq(n, i requires 0 <= i < n => Unpark(VtidOf(s, line[i]), word)) + [Skip(VtidOf(s, p), 202, n)])
  }

  /** A count as the kernel takes it, signed: a negative one wakes nobody. */
  function Count(x: u64): nat { if x < 0x8000_0000_0000_0000 then x else 0 }

  // ----- who shares

  lemma SharesIs(s: State, d: State, p: Pid)
    requires d.reg == s.reg
    ensures Shares(s, p) <==> IsScheduled(d, p) && |ScheduledPids(d)| > 1
  {
    if IsScheduled(d, p) {
      var all := ScheduledPids(d);
      assert p in all;
      if q :| q != p && q in s.reg.threads && s.reg.threads[q].scheduled {
        assert {p, q} <= all && |{p, q}| == 2;
        SubsetSize({p, q}, all);
      } else {
        assert all == {p};
      }
    }
  }

  // ----- passing

  lemma PassesOn(s: State, p: Pid, regs: Regs, mem: Memory)
    requires Enters(s, p) && regs.origRax == 202 && PlanFutex(SetTask(s, p, Held), p, regs, mem).PassThrough?
    ensures Passes(s, Step(s, SyscallStop(p, Entry(regs, mem))), p, regs.rsi % 128)
  {
    CallerFacts(s, p);
    var d := SetTask(s, p, Held);
    var u := Emit(d, Futex(regs.rsi % 128, FutexPass, VtidOf(s, p)));
    hide PlanFutex;
    assert u == OnSyscallEntry(d, p, regs, mem) && !Parks(d, p, regs, mem);
    assert s.log.acts + [] == s.log.acts;
    hide OnSyscallEntry, Inv, Step, Parks;
    Onward(s, p, Entry(regs, mem), u);
  }

  // ----- waiting

  /** FUTEX_WAIT and FUTEX_WAIT_BITSET: 0 and 9 in the low seven bits, whatever flags stand above them. The caller is
      parked if and only if it is a thread with company and the word read is the low 32 bits of the third argument. */
  lemma FutexWait(s: State, p: Pid, regs: Regs, mem: Memory)
    requires Enters(s, p) && regs.origRax == 202 && regs.rsi % 128 in {0, 9}
    ensures var t := Step(s, SyscallStop(p, Entry(regs, mem)));
            if Shares(s, p) && mem.word == Some(regs.rdx % 4_294_967_296) then Sleeps(s, t, p, regs.rdi, regs.rsi % 128)
            else Passes(s, t, p, regs.rsi % 128)
  {
    var d := SetTask(s, p, Held);
    SharesIs(s, d, p);
    if Shares(s, p) && mem.word == Some(regs.rdx % 4_294_967_296) {
      assert PlanFutex(d, p, regs, mem) == ParkOn(regs.rdi);
      ParksThere(s, p, regs, mem);
    } else {
      assert PlanFutex(d, p, regs, mem) == PassThrough;
      PassesOn(s, p, regs, mem);
    }
  }

  lemma ParkedIs(s: State, p: Pid, regs: Regs, mem: Memory) returns (u: State)
    requires Enters(s, p) && regs.origRax == 202 && PlanFutex(SetTask(s, p, Held), p, regs, mem) == ParkOn(regs.rdi)
    requires IsScheduled(s, p)
    ensures Step(s, SyscallStop(p, Entry(regs, mem))) == Tail(u)
    ensures Leaves(s, u, p, regs.rdi, regs.rsi % 128)
  {
    CallerFacts(s, p);
    var st := SyscallStop(p, Entry(regs, mem));
    var d := SetTask(s, p, Held);
    StepIs(s, st);
    InnerCases(s, st);
    HandleSyscallCases(d, p, Entry(regs, mem));
    assert IsScheduled(d, p) && !Awaited(s, st);
    hide Inner, HandleSyscall, Step, Inv, PlanFutex, Awaited, Tail;
    var v := ParkThread(d, p, regs.rsi % 128, regs.rdi);
    assert v == OnSyscallEntry(d, p, regs, mem) && Parks(d, p, regs, mem);
    u := SetCurrent(v, None);
  }

  lemma ParksThere(s: State, p: Pid, regs: Regs, mem: Memory)
    requires Enters(s, p) && regs.origRax == 202 && PlanFutex(SetTask(s, p, Held), p, regs, mem) == ParkOn(regs.rdi)
    requires IsScheduled(s, p)
    ensures Sleeps(s, Step(s, SyscallStop(p, Entry(regs, mem))), p, regs.rdi, regs.rsi % 128)
  {
    hide *;
    var u := ParkedIs(s, p, regs, mem);
    CallerStops(s, p, regs, mem);
    CallerFacts(s, p);
    if s.focus.frames != [] || s.q.runnable == [] {
      SleepsIdle(s, u, p, regs.rdi, regs.rsi % 128);
    } else {
      RunnableFacts(s, p);
      SleepsServed(s, u, p, regs.rdi, regs.rsi % 128);
    }
  }

  /** The caller parked, before the scheduler is called. */
  ghost predicate Leaves(s: State, u: State, p: Pid, word: Addr, cmd: nat) {
    && u.outcome.InProgress? && u.focus == s.focus.(current := None) && u.reg == s.reg && u.dev == s.dev
    && u.q == s.q.(blocked := s.q.blocked + {p}, waiting := s.q.waiting[word := Line(s, word) + [p]])
    && u.calls == s.calls.(pending := s.calls.pending[p := Inject(202, 0)]) && u.kern.task == s.kern.task[p := Held]
    && u.log.trace == s.log.trace + [Record(s.log.lastNumber + 1, Futex(cmd, FutexParked, VtidOf(s, p)))]
    && u.log.acts == s.log.acts + [Skip(VtidOf(s, p), 202, 0), Park(VtidOf(s, p), word)]
  }

  lemma SleepsIdle(s: State, u: State, p: Pid, word: Addr, cmd: nat)
    requires Leaves(s, u, p, word, cmd) && (s.focus.frames != [] || s.q.runnable == [])
    ensures Sleeps(s, Tail(u), p, word, cmd)
  {
    assert AnyConcurrent(u) <==> exists q :: q in s.reg.threads && !s.reg.threads[q].scheduled;
    hide Line, VtidOf;
  }

  lemma SleepsServed(s: State, u: State, p: Pid, word: Addr, cmd: nat)
    requires Leaves(s, u, p, word, cmd) && s.focus.frames == [] && s.q.runnable != []
    requires s.q.runnable[0] in s.reg.threads && s.q.runnable[0] !in s.q.blocked && s.q.runnable[0] != p
    ensures Sleeps(s, Tail(u), p, word, cmd)
  {
    var head := s.q.runnable[0];
    hide Line, VtidOf, Pick;
    assert Tail(u) == Pick(PopRunnable(u), head);
    hide ScheduleNext, Tail;
    PickIs(u, head);
    PickLogs(u, head);
    PickSpares(u, head, p);
  }

  lemma RunnableFacts(s: State, p: Pid)
    requires Inv(s) && s.focus.current == Some(p) && s.q.runnable != []
    ensures s.q.runnable[0] in s.reg.threads && s.q.runnable[0] !in s.q.blocked && s.q.runnable[0] != p
  {
    assert s.q.runnable[0] in s.q.runnable;
    assert IsScheduled(s, s.q.runnable[0]);
  }

  lemma PickLogs(u: State, head: Pid)
    requires u.q.runnable != [] && head in u.reg.threads
    ensures u.log.acts <= Pick(PopRunnable(u), head).log.acts && u.log.trace <= Pick(PopRunnable(u), head).log.trace
  {
    var t := Pick(PopRunnable(u), head);
    var to := u.reg.threads[head].vtid;
    PickIs(u, head);
    assert t.log.acts == u.log.acts + [Turn(to)] || t.log.acts == u.log.acts + [Turn(to)] + [Resume(Some(to), SignalFor(u, head))];
    hide Pick;
  }

  lemma PickSpares(u: State, head: Pid, p: Pid)
    requires u.q.runnable != [] && head in u.reg.threads && head != p
    ensures IsTask(u, p, Held) ==> IsTask(Pick(PopRunnable(u), head), p, Held)
  {
  }

  // ----- waking

  lemma AnsweredIs(d: State, p: Pid, cmd: nat, n: nat)
    ensures var u := AnswerWake(d, p, cmd, n);
            && u == d.(calls := d.calls.(pending := d.calls.pending[p := Inject(202, n)]), log := u.log)
            && u.log.acts == d.log.acts + [Skip(VtidOf(d, p), 202, n)] && u.log.lastNumber == d.log.lastNumber + 1
            && u.log.trace == d.log.trace + [Record(d.log.lastNumber + 1, Futex(cmd, FutexWoke, VtidOf(d, p)))]
  {
  }

  lemma WakesThere(s: State, p: Pid, regs: Regs, mem: Memory, u: State, cap: nat)
    requires Enters(s, p) && regs.origRax == 202 && IsScheduled(s, p)
    requires var d := SetTask(s, p, Held);
             && !PlanFutex(d, p, regs, mem).ParkOn?
             && u == AnswerWake(WakeUpTo(d, d.reg.threads, regs.rdi, cap), p, regs.rsi % 128, Futexes.CountUpTo(d, regs.rdi, cap))
             && u == OnSyscallEntry(d, p, regs, mem)
    ensures Wakes(s, Step(s, SyscallStop(p, Entry(regs, mem))), p, regs.rdi, cap, regs.rsi % 128)
  {
    hide *;
    var d := SetTask(s, p, Held);
    CallerStops(s, p, regs, mem);
    CallerFacts(s, p);
    TakesOldest(s, d, regs.rdi, cap);
    var w := WakeUpTo(d, d.reg.threads, regs.rdi, cap);
    AnsweredIs(w, p, regs.rsi % 128, Futexes.CountUpTo(d, regs.rdi, cap));
    SameName(s, w, p);
    EntryIntercepted(d, p, regs, mem);
    Onward(s, p, Entry(regs, mem), u);
    WakesWhole(s, u, Step(s, SyscallStop(p, Entry(regs, mem))), p, regs.rdi, cap, regs.rsi % 128);
  }

  lemma SameName(s: State, w: State, p: Pid)
    requires w.reg == s.reg
    ensures VtidOf(w, p) == VtidOf(s, p)
  {
  }

  lemma EntryIntercepted(d: State, p: Pid, regs: Regs, mem: Memory)
    ensures Intercepted(d, p, Entry(regs, mem)) == OnSyscallEntry(d, p, regs, mem)
  {
    hide OnSyscallEntry;
  }

  lemma CallerStops(s: State, p: Pid, regs: Regs, mem: Memory)
    requires Enters(s, p) && IsScheduled(s, p)
    ensures var d := SetTask(s, p, Held);
            && d == s.(kern := s.kern.(task := s.kern.task[p := Held]))
            && (!PlanFutex(d, p, regs, mem).ParkOn? ==> !Parks(d, p, regs, mem))
    ensures Inv(s) && s.outcome.InProgress? && IsTask(s, p, Resumed) && p in s.reg.threads && s.reg.threads[p].scheduled
  {
    hide PlanFutex, Inv;
  }

  lemma WakesWhole(s: State, u: State, t: State, p: Pid, word: Addr, cap: nat, cmd: nat)
    requires p in s.reg.threads && IsTask(s, p, Resumed) && t.outcome.InProgress? && t.reg == s.reg && t.focus == s.focus && t.dev == s.dev
    requires t.q == u.q && t.kern == s.kern && t.log.trace == u.log.trace && t.log.lastNumber == u.log.lastNumber
    requires t.calls == u.calls.(sigPending := s.calls.sigPending - {p}) && t.log.acts == u.log.acts + [Resume(VtidOf(s, p), SignalFor(s, p))]
    requires u.calls.clonePending == s.calls.clonePending
    requires var line := Line(s, word); var n := if cap < |line| then cap else |line|;
             && u.q.runnable == s.q.runnable + line[..n]
             && u.q.blocked == s.q.blocked - (set q | q in line[..n])
             && u.q.waiting == (if n == 0 then s.q.waiting else if n == |line| then s.q.waiting - {word} else s.q.waiting[word := line[n..]])
             && u.q.pendingStart == s.q.pendingStart && u.q.stoppedPending == s.q.stoppedPending
             && u.log.acts == s.log.acts + seq(n, i requires 0 <= i < n => Unpark(VtidOf(s, line[i]), word)) + [Skip(VtidOf(s, p), 202, n)]
             && u.calls.pending == s.calls.pending[p := Inject(202, n)]
    requires u.log.trace == s.log.trace + [Record(s.log.lastNumber + 1, Futex(cmd, FutexWoke, VtidOf(s, p)))]
    requires u.log.lastNumber == s.log.lastNumber + 1
    ensures Wakes(s, t, p, word, cap, cmd)
  {
    var line := Line(s, word);
    var n := if cap < |line| then cap else |line|;
    hide Line;
    var woken := seq(n, i requires 0 <= i < n => Unpark(VtidOf(s, line[i]), word));
    assert u.log.acts == s.log.acts + (woken + [Skip(VtidOf(s, p), 202, n)]);
  }

  lemma TakesOldest(s: State, d: State, word: Addr, cap: nat)
    requires Inv(s) && d.q == s.q && d.reg == s.reg && d.log == s.log
    ensures var line := Line(s, word); var n := if cap < |line| then cap else |line|;
            var w := WakeUpTo(d, d.reg.threads, word, cap);
            && Futexes.CountUpTo(d, word, cap) == n
            && w == d.(q := w.q, log := d.log.(acts := w.log.acts))
            && w.q.runnable == s.q.runnable + line[..n]
            && w.q.blocked == s.q.blocked - (set q | q in line[..n])
            && w.q.waiting == (if n == 0 then s.q.waiting else if n == |line| then s.q.waiting - {word} else s.q.waiting[word := line[n..]])
            && w.q.pendingStart == s.q.pendingStart && w.q.stoppedPending == s.q.stoppedPending
            && w.log.acts == s.log.acts + seq(n, i requires 0 <= i < n => Unpark(VtidOf(s, line[i]), word))
  {
    var line := Line(s, word);
    hide PartitionOf, IdentityOf, KernelOf, FramesOf, RunsAmong;
    if cap == 0 || word !in s.q.waiting {
      assert line[..0] == [] && (set q | q in line[..0]) == {};
      assert s.q.runnable + [] == s.q.runnable && s.log.acts + [] == s.log.acts && s.q.blocked - {} == s.q.blocked;
    } else {
      WakeLoopPrefix(line, s.q.blocked, cap);
      var n := if cap < |line| then cap else |line|;
      assert SplitUpTo(d, word, cap) == Split(line[..n], line[n..]);
      assert Elems(line[..n]) == set q | q in line[..n];
      assert Unparks(d.reg.threads, line[..n], word) == seq(n, i requires 0 <= i < n => Unpark(VtidOf(s, line[i]), word));
      assert line[n..] == [] <==> n == |line|;
      assert n > 0;
      hide WakeLoop;
    }
  }

  /** FUTEX_WAKE and FUTEX_WAKE_BITSET: 1 and 10. A thread with company wakes the oldest threads of the word in the first
      argument, as many as the third says. */
  lemma FutexWake(s: State, p: Pid, regs: Regs, mem: Memory)
    requires Enters(s, p) && regs.origRax == 202 && regs.rsi % 128 in {1, 10}
    ensures var t := Step(s, SyscallStop(p, Entry(regs, mem)));
            if Shares(s, p) then Wakes(s, t, p, regs.rdi, Count(regs.rdx), regs.rsi % 128) else Passes(s, t, p, regs.rsi % 128)
  {
    var d := SetTask(s, p, Held);
    SharesIs(s, d, p);
    if Shares(s, p) {
      assert PlanFutex(d, p, regs, mem) == WakeOn(regs.rdi, regs.rdx);
      assert Count(regs.rdx) == Cap(regs.rdx);
      hide PlanFutex, WakeUpTo, SplitUpTo, AnswerWake, Enters, Count, Cap;
      WakesThere(s, p, regs, mem, OnSyscallEntry(d, p, regs, mem), Count(regs.rdx));
    } else {
      assert PlanFutex(d, p, regs, mem) == PassThrough;
      PassesOn(s, p, regs, mem);
    }
  }

  /** FUTEX_REQUEUE and FUTEX_CMP_REQUEUE: 3 and 4. A thread with company wakes the oldest threads of the word in the first
      argument, as many as the third and the fourth together say — but for 4 only if the word read is the low 32 bits
      of the sixth argument. */
  lemma FutexRequeue(s: State, p: Pid, regs: Regs, mem: Memory)
    requires Enters(s, p) && regs.origRax == 202 && regs.rsi % 128 in {3, 4}
    ensures var t := Step(s, SyscallStop(p, Entry(regs, mem)));
            if Shares(s, p) && (regs.rsi % 128 == 4 ==> mem.word == Some(regs.r9 % 4_294_967_296)) then
              Wakes(s, t, p, regs.rdi, Count(regs.rdx) + Count(regs.r10), regs.rsi % 128)
            else Passes(s, t, p, regs.rsi % 128)
  {
    var d := SetTask(s, p, Held);
    SharesIs(s, d, p);
    if Shares(s, p) && (regs.rsi % 128 == 4 ==> mem.word == Some(regs.r9 % 4_294_967_296)) {
      assert PlanFutex(d, p, regs, mem) == RequeueOn(regs.rdi, regs.rdx, regs.r10);
      hide *;
      RequeueAnswers(d, p, regs, mem);
      CallerShares(s, p);
      WakesThere(s, p, regs, mem, OnSyscallEntry(d, p, regs, mem), Count(regs.rdx) + Count(regs.r10));
    } else {
      assert PlanFutex(d, p, regs, mem) == PassThrough;
      PassesOn(s, p, regs, mem);
    }
  }

  lemma RequeueAnswers(d: State, p: Pid, regs: Regs, mem: Memory)
    requires regs.origRax == 202 && PlanFutex(d, p, regs, mem) == RequeueOn(regs.rdi, regs.rdx, regs.r10)
    ensures var cap := Count(regs.rdx) + Count(regs.r10);
            OnSyscallEntry(d, p, regs, mem)
            == AnswerWake(WakeUpTo(d, d.reg.threads, regs.rdi, cap), p, regs.rsi % 128, Futexes.CountUpTo(d, regs.rdi, cap))
  {
    assert Count(regs.rdx) == Cap(regs.rdx) && Count(regs.r10) == Cap(regs.r10);
    Futexes.RequeueIsOneWake(d, p, regs.rsi % 128, regs.rdi, regs.rdx, regs.r10);
    hide PlanFutex, WakeUpTo, AnswerWake, Count, Cap, CarryOut, Futexes.CountUpTo;
  }

  lemma CallerShares(s: State, p: Pid)
    requires Shares(s, p)
    ensures IsScheduled(s, p)
  {
  }

  /** Every other command is left to the kernel. */
  lemma FutexOther(s: State, p: Pid, regs: Regs, mem: Memory)
    requires Enters(s, p) && regs.origRax == 202 && regs.rsi % 128 !in {0, 1, 3, 4, 9, 10}
    ensures Passes(s, Step(s, SyscallStop(p, Entry(regs, mem))), p, regs.rsi % 128)
  {
    assert PlanFutex(SetTask(s, p, Held), p, regs, mem) == PassThrough;
    PassesOn(s, p, regs, mem);
  }
}
