/** The log of what was done to the guest, replayed by an independent book-keeper: one FIFO queue per
    futex word, one outstanding injected result per thread, and three counters
    (src/runtime/supervisor.rs:506-557, 583-591, 636-687). */
module Ledger {
  import opened Base
  import opened Machine
  import opened Invariants
  import Clock
  import Prng
  import Recorder

  datatype Books = Books(
    owed: map<Vtid, Inject>,          // results promised at a skip, not yet returned
    queues: map<Addr, seq<Vtid>>,     // threads asleep on each word, oldest first; no queue is empty
    parks: nat, wakes: nat, lost: nat)

  const Opening := Books(map[], map[], 0, 0, 0)

  ghost predicate Asleep(books: Books, v: Vtid) { exists a :: a in books.queues && v in books.queues[a] }

  function SetVtids(queues: map<Addr, seq<Vtid>>, a: Addr, q: seq<Vtid>): map<Addr, seq<Vtid>> {
    if q == [] then queues - {a} else queues[a := q]
  }

  function DropVtid(queues: map<Addr, seq<Vtid>>, v: Vtid): map<Addr, seq<Vtid>> {
    map a | a in queues && Without(queues[a], v) != [] :: Without(queues[a], v)
  }

  /** Whether `act` may come next: a sleeper gets no turn and returns from no call, only the oldest sleeper
      of a word wakes, a call is skipped only when no result is owed and returns exactly what was promised. */
  ghost function Enter(books: Books, act: Act): Option<Books> {
    match act
    case Turn(v) => if Asleep(books, v) then None else Some(books)
    case Skip(Some(v), syscall, retval) =>
      if v in books.owed then None else Some(books.(owed := books.owed[v := Inject(syscall, retval)]))
    case Return(Some(v), syscall, retval) =>
      if v in books.owed && books.owed[v] == Inject(syscall, retval) && !Asleep(books, v)
      then Some(books.(owed := books.owed - {v})) else None
    case Park(Some(v), a) =>
      if Asleep(books, v) || v !in books.owed || books.owed[v] != Inject(SYS_FUTEX, 0) then None
      else Some(books.(queues := books.queues[a := (if a in books.queues then books.queues[a] else []) + [v]],
                       parks := books.parks + 1))
    case Unpark(Some(v), a) =>
      if a in books.queues && books.queues[a] != [] && books.queues[a][0] == v
      then Some(books.(queues := SetVtids(books.queues, a, books.queues[a][1..]), wakes := books.wakes + 1)) else None
    case Died(v) =>
      Some(books.(owed := books.owed - {v}, queues := DropVtid(books.queues, v),
                  lost := books.lost + if Asleep(books, v) then 1 else 0))
    case Resume(_, _) => Some(books)
    case Write(_, _, _) => Some(books)
    case _ => None
  }

  ghost function Audit(acts: seq<Act>): Option<Books> {
    if acts == [] then Some(Opening)
    else
      match Audit(acts[..|acts| - 1])
      case None => None
      case Some(books) => Enter(books, acts[|acts| - 1])
  }

  ghost predicate SameQueue(threads: map<Pid, Thread>, q: seq<Pid>, vtids: seq<Vtid>) {
    |q| == |vtids| && forall i :: 0 <= i < |q| ==> VtidIn(threads, q[i]) == Some(vtids[i])
  }

  /** Owed results are `pending`, thread by thread. */
  ghost predicate AgreeOwed(owed: map<Vtid, Inject>, threads: map<Pid, Thread>, pending: map<Pid, Inject>) {
    && (forall p :: p in threads ==>
          (p in pending <==> threads[p].vtid in owed) && (p in pending ==> owed[threads[p].vtid] == pending[p]))
    && (forall v :: v in owed ==> exists p :: p in threads && threads[p].vtid == v)
  }

  /** The books' queues are `waiting`, thread by thread. */
  ghost predicate AgreeQueues(queues: map<Addr, seq<Vtid>>, threads: map<Pid, Thread>, waiting: map<Addr, seq<Pid>>) {
    && queues.Keys == waiting.Keys
    && (forall a :: a in waiting ==> SameQueue(threads, waiting[a], queues[a]))
  }

  ghost predicate Agree(books: Books, threads: map<Pid, Thread>, pending: map<Pid, Inject>, waiting: map<Addr, seq<Pid>>) {
    AgreeOwed(books.owed, threads, pending) && AgreeQueues(books.queues, threads, waiting)
  }

  ghost predicate Balanced(books: Books, blocked: set<Pid>) {
    books.parks == books.wakes + books.lost + |blocked|
  }

  ghost predicate AuditedAs(acts: seq<Act>, threads: map<Pid, Thread>, pending: map<Pid, Inject>,
                            waiting: map<Addr, seq<Pid>>, blocked: set<Pid>) {
    var books := Audit(acts);
    books.Some? && Agree(books.value, threads, pending, waiting) && Balanced(books.value, blocked)
  }

  ghost predicate Audited(s: State) {
    AuditedAs(s.log.acts, s.reg.threads, s.calls.pending, s.q.waiting, s.q.blocked)
  }

  // ----- entering acts

  lemma AuditNext(acts: seq<Act>, act: Act)
    requires Audit(acts).Some?
    ensures Audit(acts + [act]) == Enter(Audit(acts).value, act)
  {
    assert (acts + [act])[..|acts + [act]| - 1] == acts;
  }

  /** A thread is asleep in the books exactly when it is blocked. */
  lemma AsleepIsBlocked(books: Books, s: State, p: Pid)
    requires Parked(s) && Identity(s) && Agree(books, s.reg.threads, s.calls.pending, s.q.waiting) && p in s.reg.threads
    ensures Asleep(books, s.reg.threads[p].vtid) <==> p in s.q.blocked
  {
    var v := s.reg.threads[p].vtid;
    if p in s.q.blocked {
      var a :| a in s.q.waiting && p in s.q.waiting[a];
      var i :| 0 <= i < |s.q.waiting[a]| && s.q.waiting[a][i] == p;
      assert SameQueue(s.reg.threads, s.q.waiting[a], books.queues[a]);
      assert books.queues[a][i] == v;
    }
    if Asleep(books, v) {
      var a :| a in books.queues && v in books.queues[a];
      var i :| 0 <= i < |books.queues[a]| && books.queues[a][i] == v;
      assert SameQueue(s.reg.threads, s.q.waiting[a], books.queues[a]);
      assert VtidIn(s.reg.threads, s.q.waiting[a][i]) == Some(v);
      assert s.q.waiting[a][i] in s.q.waiting[a];
    }
  }

  /** Resumes and memory writes leave the books alone. */
  predicate Unbooked(act: Act) { act.Resume? || act.Write? }

  /** `t` differs from `s` by at most one unbooked act and things outside the books. */
  ghost predicate OffTheBooks(s: State, t: State) {
    && t.reg.threads == s.reg.threads && t.calls.pending == s.calls.pending
    && t.q.waiting == s.q.waiting && t.q.blocked == s.q.blocked
    && (t.log.acts == s.log.acts || exists act :: Unbooked(act) && t.log.acts == s.log.acts + [act])
  }

  lemma OffTheBooksKeeps(s: State, t: State)
    requires Audited(s) && OffTheBooks(s, t)
    ensures Audited(t)
  {
    hide Agree;
    if t.log.acts != s.log.acts {
      var act :| Unbooked(act) && t.log.acts == s.log.acts + [act];
      AuditNext(s.log.acts, act);
    }
  }

  lemma PtraceOffBooks(s: State, p: Pid, sig: Option<Signal>)
    ensures OffTheBooks(s, PtraceSyscall(s, p, sig))
  {
    assert Unbooked(Resume(VtidOf(s, p), sig));
  }

  lemma ResumeAudited(s: State, p: Pid)
    requires Audited(s)
    ensures Audited(ResumeThread(s, p))
  {
    var e := s.(calls := s.calls.(sigPending := s.calls.sigPending - {p}));
    PtraceOffBooks(e, p, SignalFor(s, p));
    OffTheBooksKeeps(e, ResumeThread(s, p));
    hide AuditedAs;
  }

  lemma TurnAudited(s: State, tid: Pid, to: Vtid)
    requires Parked(s) && Identity(s) && Audited(s)
    requires tid in s.reg.threads && tid !in s.q.blocked && to == s.reg.threads[tid].vtid
    ensures Audited(Did(s, Turn(to)))
  {
    var books := Audit(s.log.acts).value;
    AuditNext(s.log.acts, Turn(to));
    AsleepIsBlocked(books, s, tid);
    hide Agree, ParkedOf, IdentityOf;
  }

  lemma PickAudited(s: State, tid: Pid)
    requires Parked(s) && Identity(s) && Audited(s) && tid in s.reg.threads && tid !in s.q.blocked
    ensures Audited(Pick(s, tid))
  {
    var to := s.reg.threads[tid].vtid;
    var s1 := if s.focus.lastVtid != Some(to) then Emit(s, Schedule(s.focus.lastVtid, to)) else s;
    TurnAudited(s, tid, to);
    var u := Did(s1.(focus := s1.focus.(lastVtid := Some(to), current := Some(tid))), Turn(to));
    hide AuditedAs, Tables, ResumeThread, ParkedOf, IdentityOf;
    ResumeAudited(u, tid);
  }

  lemma ScheduleNextAudited(s: State)
    requires Tables(s) && Audited(s)
    ensures Audited(ScheduleNext(s))
  {
    hide Pick, AuditedAs, ParkedOf, IdentityOf;
    if s.q.runnable != [] {
      assert s.q.runnable[0] in s.q.runnable;
      ScheduleNextHead(s);
      PickAudited(PopRunnable(s), s.q.runnable[0]);
    }
  }

  // ----- calls

  lemma SkipAudited(s: State, p: Pid, syscall: nat, retval: nat)
    requires Identity(s) && Audited(s) && p in s.reg.threads && p !in s.calls.pending
    ensures Audited(SkipSyscall(s, p, syscall, retval))
  {
    AuditNext(s.log.acts, Skip(VtidOf(s, p), syscall, retval));
  }

  lemma ReturnAudited(s: State, p: Pid)
    requires Parked(s) && Identity(s) && Audited(s) && p in s.reg.threads && p !in s.q.blocked
    ensures Audited(OnSyscallExit(s, p))
  {
    if p in s.calls.pending {
      var inject := s.calls.pending[p];
      AsleepIsBlocked(Audit(s.log.acts).value, s, p);
      AuditNext(s.log.acts, Return(VtidOf(s, p), inject.syscall, inject.retval));
    }
  }

  lemma ParkAudited(s: State, p: Pid, addr: Addr)
    requires Parked(s) && Identity(s) && Audited(s) && p in s.reg.threads && p !in s.q.blocked
    requires p in s.calls.pending && s.calls.pending[p] == Inject(SYS_FUTEX, 0)
    ensures Audited(Block(s, p, addr))
  {
    var books := Audit(s.log.acts).value;
    AsleepIsBlocked(books, s, p);
    AuditNext(s.log.acts, Park(VtidOf(s, p), addr));
    hide ParkedOf, IdentityOf;
    if addr in s.q.waiting {
      assert SameQueue(s.reg.threads, s.q.waiting[addr], books.queues[addr]);
    }
  }

  // ----- wakes

  lemma {:induction false} UnparkMany(acts: seq<Act>, threads: map<Pid, Thread>, queue: seq<Pid>, addr: Addr, n: nat)
    requires Audit(acts).Some? && n <= |queue| && queue != []
    requires var books := Audit(acts).value; addr in books.queues && SameQueue(threads, queue, books.queues[addr])
    ensures var books := Audit(acts).value;
            Audit(acts + Unparks(threads, queue[..n], addr))
            == Some(books.(queues := SetVtids(books.queues, addr, books.queues[addr][n..]), wakes := books.wakes + n))
  {
    var books := Audit(acts).value;
    if n == 0 {
      assert acts + Unparks(threads, queue[..0], addr) == acts;
      assert books.queues[addr := books.queues[addr][0..]] == books.queues;
    } else {
      var before := acts + Unparks(threads, queue[..n - 1], addr);
      var act := Unpark(VtidIn(threads, queue[n - 1]), addr);
      UnparksPush(acts, threads, queue, addr, n);
      var rest := books.queues[addr][n - 1..];
      assert rest[0] == books.queues[addr][n - 1] && rest[1..] == books.queues[addr][n..];
      assert act == Unpark(Some(rest[0]), addr);
      hide Audit, Unparks, SameQueue, Enter, SetVtids;
      UnparkMany(acts, threads, queue, addr, n - 1);
      AuditNext(before, act);
      UnparkOne(books.(queues := SetVtids(books.queues, addr, rest), wakes := books.wakes + n - 1), books.queues, addr, rest);
    }
  }

  lemma UnparksPush(acts: seq<Act>, threads: map<Pid, Thread>, queue: seq<Pid>, addr: Addr, n: nat)
    requires 0 < n <= |queue|
    ensures acts + Unparks(threads, queue[..n], addr)
         == acts + Unparks(threads, queue[..n - 1], addr) + [Unpark(VtidIn(threads, queue[n - 1]), addr)]
  {
    hide VtidIn;
  }

  lemma UnparkOne(books: Books, queues: map<Addr, seq<Vtid>>, addr: Addr, rest: seq<Vtid>)
    requires rest != [] && books.queues == SetVtids(queues, addr, rest)
    ensures Enter(books, Unpark(Some(rest[0]), addr))
         == Some(books.(queues := SetVtids(queues, addr, rest[1..]), wakes := books.wakes + 1))
  {
    assert SetVtids(SetVtids(queues, addr, rest), addr, rest[1..]) == SetVtids(queues, addr, rest[1..]);
  }

  lemma ElemsSize(q: seq<Pid>)
    requires NoDup(q)
    ensures |Elems(q)| == |q|
  {
    if q != [] {
      ElemsSize(q[1..]);
      assert Elems(q) == {q[0]} + Elems(q[1..]);
      assert q[0] !in q[1..];
    } else {
      assert Elems(q) == {};
    }
  }

  lemma AgreeAfterTaking(queues: map<Addr, seq<Vtid>>, threads: map<Pid, Thread>, waiting: map<Addr, seq<Pid>>,
                         addr: Addr, n: nat)
    requires AgreeQueues(queues, threads, waiting) && addr in waiting && n <= |waiting[addr]|
    ensures SameQueue(threads, waiting[addr], queues[addr])
    ensures AgreeQueues(SetVtids(queues, addr, queues[addr][n..]), threads, SetQueue(waiting, addr, waiting[addr][n..]))
  {
    assert SameQueue(threads, waiting[addr], queues[addr]);
    assert SameQueue(threads, waiting[addr][n..], queues[addr][n..]);
  }

  lemma TakenSize(waiting: map<Addr, seq<Pid>>, blocked: set<Pid>, addr: Addr, n: nat)
    requires QueuesMatch(waiting, blocked) && addr in waiting && n <= |waiting[addr]|
    ensures |blocked - Elems(waiting[addr][..n])| == |blocked| - n
  {
    var queue := waiting[addr];
    ElemsIn(queue, n);
    ElemsSize(queue[..n]);
    assert Elems(queue[..n]) <= blocked;
  }

  lemma TakeAudited(acts: seq<Act>, threads: map<Pid, Thread>, pending: map<Pid, Inject>,
                    waiting: map<Addr, seq<Pid>>, blocked: set<Pid>, addr: Addr, n: nat)
    requires AuditedAs(acts, threads, pending, waiting, blocked)
    requires QueuesMatch(waiting, blocked) && addr in waiting && n <= |waiting[addr]|
    ensures AuditedAs(acts + Unparks(threads, waiting[addr][..n], addr), threads, pending,
                      SetQueue(waiting, addr, waiting[addr][n..]), blocked - Elems(waiting[addr][..n]))
  {
    hide *;
    AuditedParts(acts, threads, pending, waiting, blocked);
    var books := Audit(acts).value;
    var queue := waiting[addr];
    AgreeAfterTaking(books.queues, threads, waiting, addr, n);
    QueueKnown(books.queues, threads, waiting, addr);
    QueueNotEmpty(waiting, blocked, addr);
    UnparkMany(acts, threads, queue, addr, n);
    TakenSize(waiting, blocked, addr, n);
    var after := books.(queues := SetVtids(books.queues, addr, books.queues[addr][n..]), wakes := books.wakes + n);
    AuditedWhole(after, acts + Unparks(threads, queue[..n], addr), threads, pending,
                 SetQueue(waiting, addr, queue[n..]), blocked - Elems(queue[..n]));
  }

  lemma QueueNotEmpty(waiting: map<Addr, seq<Pid>>, blocked: set<Pid>, addr: Addr)
    requires QueuesMatch(waiting, blocked) && addr in waiting
    ensures waiting[addr] != []
  {
  }

  lemma AuditedParts(acts: seq<Act>, threads: map<Pid, Thread>, pending: map<Pid, Inject>,
                     waiting: map<Addr, seq<Pid>>, blocked: set<Pid>)
    requires AuditedAs(acts, threads, pending, waiting, blocked)
    ensures Audit(acts).Some?
    ensures var books := Audit(acts).value;
            && AgreeOwed(books.owed, threads, pending) && AgreeQueues(books.queues, threads, waiting)
            && books.parks == books.wakes + books.lost + |blocked|
  {
    hide AgreeOwed, AgreeQueues, Audit;
  }

  lemma AuditedWhole(books: Books, acts: seq<Act>, threads: map<Pid, Thread>, pending: map<Pid, Inject>,
                     waiting: map<Addr, seq<Pid>>, blocked: set<Pid>)
    requires Audit(acts) == Some(books) && books.parks == books.wakes + books.lost + |blocked|
    requires AgreeOwed(books.owed, threads, pending) && AgreeQueues(books.queues, threads, waiting)
    ensures AuditedAs(acts, threads, pending, waiting, blocked)
  {
    hide AgreeOwed, AgreeQueues, Audit;
  }

  lemma WakeAudited(s: State, addr: Addr, val: u64)
    requires Parked(s) && Audited(s)
    ensures Audited(Wake(s, s.reg.threads, addr, val))
  {
    WakeTakesPrefix(s, s.reg.threads, addr, val);
    var queue := QueueAt(s, addr);
    var n := Min(Cap(val), |queue|);
    hide Wake, WakeCount, AuditedAs;
    if n == 0 {
      NoUnparks(s.log.acts, s.reg.threads, queue, addr);
      assert s.q.blocked - Elems(queue[..0]) == s.q.blocked;
    } else {
      TakeAudited(s.log.acts, s.reg.threads, s.calls.pending, s.q.waiting, s.q.blocked, addr, n);
    }
  }

  lemma QueueKnown(queues: map<Addr, seq<Vtid>>, threads: map<Pid, Thread>, waiting: map<Addr, seq<Pid>>, addr: Addr)
    requires AgreeQueues(queues, threads, waiting) && addr in waiting
    ensures addr in queues
  {
  }

  lemma NoUnparks(acts: seq<Act>, threads: map<Pid, Thread>, queue: seq<Pid>, addr: Addr)
    ensures acts + Unparks(threads, queue[..0], addr) == acts
  {
  }

  // ----- deaths

  lemma {:induction false} WithoutSame(threads: map<Pid, Thread>, q: seq<Pid>, vtids: seq<Vtid>, p: Pid)
    requires SameQueue(threads, q, vtids) && p in threads
    requires forall r :: r in threads && threads[r].vtid == threads[p].vtid ==> r == p
    ensures SameQueue(threads - {p}, Without(q, p), Without(vtids, threads[p].vtid))
  {
    if q != [] {
      assert VtidIn(threads, q[0]) == Some(vtids[0]);
      forall i | 0 <= i < |q[1..]| ensures VtidIn(threads, q[1..][i]) == Some(vtids[1..][i]) {
        assert q[1..][i] == q[i + 1];
      }
      WithoutSame(threads, q[1..], vtids[1..], p);
    }
  }

  lemma DropAgreesQueues(queues: map<Addr, seq<Vtid>>, s: State, p: Pid)
    requires Identity(s) && p in s.reg.threads && AgreeQueues(queues, s.reg.threads, s.q.waiting)
    ensures AgreeQueues(DropVtid(queues, s.reg.threads[p].vtid), s.reg.threads - {p}, Purge(s.q.waiting, p))
  {
    var v := s.reg.threads[p].vtid;
    forall a | a in s.q.waiting
      ensures SameQueue(s.reg.threads - {p}, Without(s.q.waiting[a], p), Without(queues[a], v))
    {
      assert SameQueue(s.reg.threads, s.q.waiting[a], queues[a]);
      WithoutSame(s.reg.threads, s.q.waiting[a], queues[a], p);
    }
  }

  lemma DropAgreesOwed(owed: map<Vtid, Inject>, s: State, p: Pid)
    requires Identity(s) && p in s.reg.threads && AgreeOwed(owed, s.reg.threads, s.calls.pending)
    ensures AgreeOwed(owed - {s.reg.threads[p].vtid}, s.reg.threads - {p}, s.calls.pending - {p})
  {
    var v := s.reg.threads[p].vtid;
    forall w | w in owed - {v} ensures exists r :: r in s.reg.threads - {p} && (s.reg.threads - {p})[r].vtid == w {
      var r :| r in s.reg.threads && s.reg.threads[r].vtid == w;
      assert r in s.reg.threads - {p};
    }
  }

  lemma DiedAudited(s: State, p: Pid)
    requires Parked(s) && Identity(s) && Audited(s) && p in s.reg.threads
    ensures AuditedAs(s.log.acts + [Died(s.reg.threads[p].vtid)], s.reg.threads - {p}, s.calls.pending - {p},
                      Purge(s.q.waiting, p), s.q.blocked - {p})
  {
    var books := Audit(s.log.acts).value;
    AsleepIsBlocked(books, s, p);
    DropAgreesOwed(books.owed, s, p);
    DropAgreesQueues(books.queues, s, p);
    AuditNext(s.log.acts, Died(s.reg.threads[p].vtid));
    hide AgreeOwed, AgreeQueues, Audit, Asleep, IdentityOf, ParkedOf, Purge, DropVtid;
  }

  lemma ExitActs(s: State, p: Pid, record: bool)
    ensures OnThreadExit(s, p, record).log.acts
         == AfterJoinWake(s, p).log.acts + if p in s.reg.threads then [Died(s.reg.threads[p].vtid)] else []
  {
    hide WakeSplit, Unparks, SetQueue;
    if p in s.reg.threads {
      WakeIgnoresRegistry(s, p, s.reg.threads[p].childTid);
    } else {
      assert s.log.acts + [] == s.log.acts;
    }
  }

  lemma StrangerPurge(s: State, p: Pid)
    requires Tables(s) && p !in s.reg.threads
    ensures Purge(s.q.waiting, p) == s.q.waiting && s.q.blocked - {p} == s.q.blocked
    ensures s.reg.threads - {p} == s.reg.threads && s.calls.pending - {p} == s.calls.pending
  {
    forall a | a in s.q.waiting ensures Without(s.q.waiting[a], p) == s.q.waiting[a] {
      WithoutAbsent(s.q.waiting[a], p);
    }
  }

  lemma ExitAudited(s: State, p: Pid, record: bool)
    requires Tables(s) && Audited(s)
    ensures Audited(OnThreadExit(s, p, record))
  {
    ExitEffect(s, p, record);
    ExitActs(s, p, record);
    AfterJoinWakeKeeps(s, p);
    if p in s.reg.threads {
      WakeAudited(s, s.reg.threads[p].childTid, 1);
      DiedAudited(AfterJoinWake(s, p), p);
    } else {
      StrangerPurge(s, p);
      assert s.log.acts + [] == s.log.acts;
    }
    hide OnThreadExit, Purge, Wake, AuditedAs;
  }

  // ----- the arms of dispatch

  lemma FutexAudited(s: State, p: Pid, regs: Regs, mem: Memory)
    requires Parked(s) && Identity(s) && Audited(s) && p in s.reg.threads && p !in s.calls.pending && p !in s.q.blocked
    ensures Audited(InterceptFutex(s, p, regs, mem))
  {
    var plan := PlanFutex(s, p, regs, mem);
    hide PlanFutex, AuditedAs, Wake, WakeCount, ParkedOf, IdentityOf, SkipSyscall, Block;
    match plan {
      case PassThrough =>
      case ParkOn(addr) =>
        SkipAudited(s, p, SYS_FUTEX, 0);
        SkipTables(s, p, SYS_FUTEX, 0);
        ParkAudited(SkipSyscall(s, p, SYS_FUTEX, 0), p, addr);
      case WakeOn(addr, val) =>
        WakeAudited(s, addr, val);
        WakeTables(s, addr, val);
        SkipAudited(Wake(s, s.reg.threads, addr, val), p, SYS_FUTEX, WakeCount(s, addr, val));
      case RequeueOn(addr, val, val2) =>
        var s1 := Wake(s, s.reg.threads, addr, val);
        WakeAudited(s, addr, val);
        WakeTables(s, addr, val);
        WakeAudited(s1, addr, val2);
        WakeTables(s1, addr, val2);
        SkipAudited(Wake(s1, s1.reg.threads, addr, val2), p, SYS_FUTEX, WakeCount(s, addr, val) + WakeCount(s1, addr, val2));
    }
  }

  lemma WakeTables(s: State, addr: Addr, val: u64)
    requires Parked(s) && Identity(s)
    ensures var t := Wake(s, s.reg.threads, addr, val);
            Parked(t) && Identity(t) && t.reg == s.reg && t.calls == s.calls
  {
    WakeTakesPrefix(s, s.reg.threads, addr, val);
    WakeKeepsParked(s, s.reg.threads, addr, val);
    hide Wake, ParkedOf, IdentityOf;
  }

  lemma SkipTables(s: State, p: Pid, syscall: nat, retval: nat)
    requires Parked(s) && Identity(s) && p in s.reg.threads && p !in s.q.blocked
    ensures var t := SkipSyscall(s, p, syscall, retval);
            && Parked(t) && Identity(t) && t.reg == s.reg && t.q == s.q
            && p in t.calls.pending && t.calls.pending[p] == Inject(syscall, retval)
  {
  }

  lemma EntryAudited(s: State, p: Pid, regs: Regs, mem: Memory)
    requires Parked(s) && Identity(s) && Audited(s) && p in s.reg.threads && p !in s.calls.pending && p !in s.q.blocked
    ensures Audited(OnSyscallEntry(s, p, regs, mem))
  {
    hide AuditedAs, ParkedOf, IdentityOf, InterceptFutex, InterceptGetRandom, InterceptClockGettime, InterceptGetTimeOfDay;
    var nr := regs.origRax;
    if nr == SYS_FUTEX {
      FutexAudited(s, p, regs, mem);
    } else if nr == SYS_GETRANDOM {
      GetRandomAudited(s, p, regs, mem);
    } else if nr == SYS_CLOCK_GETTIME || nr == SYS_CLOCK_GETTIME64 || nr == SYS_GETTIMEOFDAY {
      ClockAudited(s, p, regs, mem);
    }
  }

  lemma WriteAudited(s: State, p: Pid, addr: Addr, data: Data, writable: bool)
    requires Audited(s)
    ensures Audited(WriteMem(s, p, addr, data, writable))
  {
    assert Unbooked(Write(VtidOf(s, p), addr, data));
    OffTheBooksKeeps(s, WriteMem(s, p, addr, data, writable));
    hide AuditedAs;
  }

  lemma GetRandomAudited(s: State, p: Pid, regs: Regs, mem: Memory)
    requires Identity(s) && Audited(s) && p in s.reg.threads && p !in s.calls.pending
    ensures Audited(InterceptGetRandom(s, p, regs, mem))
  {
    hide AuditedAs, IdentityOf, Recorder.Filled, Recorder.Hex, Prng.WordAfter, SkipSyscall;
    var buflen := if regs.rsi < GETRANDOM_MAX then regs.rsi else GETRANDOM_MAX;
    var s1 := s.(dev := s.dev.(rng := Prng.WordAfter(s.dev.rng, Recorder.DrawsFor(buflen))));
    var data := Random(Recorder.Filled(s.dev.rng, buflen));
    WriteAudited(s1, p, regs.rdi, data, mem.writable);
    var s2 := if buflen > 0 then WriteMem(s1, p, regs.rdi, data, mem.writable) else s1;
    SkipAudited(s2, p, SYS_GETRANDOM, buflen);
  }

  lemma ClockAudited(s: State, p: Pid, regs: Regs, mem: Memory)
    requires Identity(s) && Audited(s) && p in s.reg.threads && p !in s.calls.pending
    ensures Audited(InterceptClockGettime(s, p, regs, mem))
    ensures Audited(InterceptGetTimeOfDay(s, p, regs, mem))
  {
    hide AuditedAs, IdentityOf, Clock.Read, Clock.NextTick, SkipSyscall;
    var clk := AsI32(regs.rdi);
    var r, w := Clock.Read(s.dev.tick, clk), Clock.Read(s.dev.tick, Clock.CLOCK_REALTIME);
    var s1 := s.(dev := s.dev.(tick := Clock.NextTick(s.dev.tick, clk)));
    WriteAudited(s1, p, regs.rsi, Time(r.sec, r.nsec), mem.writable);
    SkipAudited(WriteMem(s1, p, regs.rsi, Time(r.sec, r.nsec), mem.writable), p, SYS_CLOCK_GETTIME, 0);
    WriteAudited(s, p, regs.rdi, Time(w.sec, w.nsec / 1_000), mem.writable);
    SkipAudited(WriteMem(s, p, regs.rdi, Time(w.sec, w.nsec / 1_000), mem.writable), p, SYS_GETTIMEOFDAY, 0);
  }

  lemma ResumeIfAudited(s: State, p: Pid)
    requires Audited(s)
    ensures Audited(Continue(s, p)) && Audited(ResumeCurrent(s, p)) && Audited(ResumeThread(s, p))
  {
    ResumeAudited(s, p);
    hide ResumeThread, AuditedAs;
  }

  lemma SyscallAudited(d: State, p: Pid, op: SyscallOp)
    requires Stopped(d, p) && Audited(d) && d.outcome.InProgress? && (op.Entry? ==> p !in d.calls.pending)
    ensures Audited(HandleSyscall(d, p, op))
  {
    hide OnSyscallEntry, OnSyscallExit, YieldCurrent, Parks, AuditedAs, ResumeThread, PartitionOf, KernelOf, FramesOf;
    match op {
      case Entry(regs, mem) =>
        EntryAudited(d, p, regs, mem);
        hide Stopped;
        ResumeIfAudited(OnSyscallEntry(d, p, regs, mem), p);
      case Exit =>
        ReturnAudited(d, p);
        ExitStopEffect(d, p);
        var t := OnSyscallExit(d, p);
        if IsScheduled(d, p) {
          YieldAudited(d, t, p);
        }
        hide Stopped;
        ResumeIfAudited(t, p);
      case NoInfo =>
        hide Stopped;
        ResumeIfAudited(d, p);
    }
  }

  lemma YieldAudited(d: State, t: State, p: Pid)
    requires Stopped(d, p) && IsScheduled(d, p) && CallsOnly(d, t, p) && Audited(t)
    ensures Audited(YieldCurrent(t, p))
  {
    CallsKeep(d, t, p);
    hide CallsOnly, AuditedAs, ScheduleNext, KernelOf, FramesOf, RunsAmong;
    assert t.focus.current == d.focus.current;
    var u := PushRunnable(SetCurrent(t, None), p);
    assert Tables(u) by {
      NoDupAppend(t.q.runnable, [p]);
    }
    ScheduleNextAudited(u);
  }

  lemma EnrolAudited(s: State, c: Pid, thread: Thread, q: Queues)
    requires Parked(s) && Identity(s) && Audited(s) && c !in s.reg.threads && thread.vtid == s.reg.vtidNext
    requires q.waiting == s.q.waiting && q.blocked == s.q.blocked
    requires forall p :: p in s.q.blocked ==> p in s.reg.threads
    ensures Audited(s.(reg := s.reg.(vtidNext := s.reg.vtidNext + 1, threads := s.reg.threads[c := thread]), q := q))
  {
    var books := Audit(s.log.acts).value;
    var threads := s.reg.threads[c := thread];
    assert AgreeOwed(books.owed, threads, s.calls.pending) by {
      forall v | v in books.owed ensures exists p :: p in threads && threads[p].vtid == v {
        var p :| p in s.reg.threads && s.reg.threads[p].vtid == v;
        assert p in threads && threads[p].vtid == v;
      }
    }
    forall a | a in s.q.waiting ensures SameQueue(threads, s.q.waiting[a], books.queues[a]) {
      assert SameQueue(s.reg.threads, s.q.waiting[a], books.queues[a]);
      forall i | 0 <= i < |s.q.waiting[a]| ensures VtidIn(threads, s.q.waiting[a][i]) == Some(books.queues[a][i]) {
        assert s.q.waiting[a][i] in s.q.waiting[a];
      }
    }
  }

  lemma RegisterAudited(s: State, c: Pid, info: CloneInfo)
    requires Tables(s) && Audited(s)
    ensures Audited(Register(s, c, info))
  {
    if c !in s.reg.threads {
      var thread := Thread(s.reg.vtidNext, info.childTid, info.flags, HasCloneThread(info.flags));
      var e := s.(reg := s.reg.(vtidNext := s.reg.vtidNext + 1, threads := s.reg.threads[c := thread]));
      EnrolAudited(s, c, thread, s.q);
      hide AuditedAs, PartitionOf, ParkedOf, IdentityOf, ResumeThread;
      ReleaseAudited(e.(q := e.q.(stoppedPending := e.q.stoppedPending - {c})), c);
      hide Release;
    }
  }

  lemma ReleaseAudited(s: State, c: Pid)
    requires Audited(s)
    ensures Audited(Release(s, c))
  {
    ResumeAudited(s, c);
    hide ResumeThread, AuditedAs;
  }

  lemma CloneAudited(s: State, p: Pid, c: Pid)
    requires Tables(s) && Audited(s)
    ensures Audited(HandleClone(s, p, c))
  {
    hide AuditedAs, PartitionOf, ParkedOf, IdentityOf, Register, Continue;
    var info := if p in s.calls.clonePending then s.calls.clonePending[p] else CloneInfo(0, 0);
    var e := s.(calls := s.calls.(clonePending := s.calls.clonePending - {p}));
    RegisterAudited(e, c, info);
    ResumeIfAudited(Register(e, c, info), p);
  }

  lemma SignalAudited(s: State, p: Pid, sig: Signal)
    requires Audited(s)
    ensures Audited(HandleSignalStop(s, p, sig))
  {
    hide AuditedAs, PtraceSyscall, ResumeThread, Release;
    PtraceOffBooks(s, p, Some(sig));
    OffTheBooksKeeps(s, PtraceSyscall(s, p, Some(sig)));
    ResumeAudited(s, p);
    ReleaseAudited(s.(q := s.q.(pendingStart := s.q.pendingStart - {p})), p);
    hide OffTheBooks;
  }

  lemma DeathAudited(s: State, p: Pid)
    requires Tables(s) && Audited(s) && p != s.reg.init
    ensures Audited(HandleDeath(s, p))
  {
    var wasCurrent := s.focus.current == Some(p);
    ExitKeepsTables(s, p, wasCurrent);
    ExitEffect(s, p, wasCurrent);
    ExitAudited(s, p, wasCurrent);
    hide OnThreadExit, AuditedAs, ScheduleNext, AfterJoinWake, PartitionOf, ParkedOf, IdentityOf;
    var t := OnThreadExit(s, p, wasCurrent);
    if wasCurrent && !t.focus.groupExiting {
      IdleAfterDeath(t, p);
      ScheduleNextAudited(SetCurrent(t, None));
    }
  }

  lemma FinishAudited(s: State)
    requires Audited(s) && s.focus.frames != []
    ensures Audited(FinishAwait(s))
  {
    hide AuditedAs, Release, Continue;
    var f := s.focus.frames[|s.focus.frames| - 1];
    var e := s.(q := s.q.(pendingStart := s.q.pendingStart - {f.child}));
    ReleaseAudited(e, f.child);
    var t := Release(e, f.child);
    if t.outcome.InProgress? {
      assert t.focus.frames == s.focus.frames by { ReleaseEffectFrames(e, f.child); }
      ResumeIfAudited(PopFrame(t), f.parent);
    }
  }

  lemma ReleaseEffectFrames(s: State, c: Pid)
    ensures Release(s, c).focus == s.focus
  {
  }

  lemma InnerAudited(s: State, st: Status)
    requires MidInv(s) && Audited(s) && s.outcome.InProgress? && Legal(s, st)
    ensures Audited(Inner(s, st))
  {
    hide AuditedAs;
    var d := Deliver(s, st);
    assert Audited(d) && Tables(d) by { hide PartitionOf, ParkedOf, IdentityOf; }
    if Awaited(s, st) {
      hide MidInv, Legal, FinishAwait;
      FinishAudited(d);
    } else if st.SyscallStop? {
      StopKeeps(s, st.pid);
      SyscallAudited(d, st.pid, st.op);
      hide HandleSyscall, Stopped, MidInv, Legal;
    } else {
      hide MidInv, Legal, HandleSyscall, FinishAwait;
      OtherArmsAudited(d, st);
    }
  }

  lemma OtherArmsAudited(d: State, st: Status)
    requires Tables(d) && Audited(d) && !st.SyscallStop?
    ensures Audited(Handle(d, st))
  {
    hide AuditedAs, Tables, HandleClone, HandleSignalStop, HandleDeath, ResumeThread, Continue;
    match st {
      case CloneEvent(p, c) => CloneAudited(d, p, c);
      case ExitEvent(p) => ResumeIfAudited(d, p);
      case OtherEvent(p) => ResumeIfAudited(d, p);
      case SignalStop(p, sig) => SignalAudited(d, p, sig);
      case Exited(p, _) => if p != d.reg.init { DeathAudited(d, p); }
      case Killed(p, _) => if p != d.reg.init { DeathAudited(d, p); }
      case Idle =>
      case SyscallStop(_, _) =>
    }
  }

  lemma StepAudited(s: State, st: Status)
    requires Sound(s) && Audited(s) && (s.outcome.InProgress? ==> Legal(s, st))
    ensures Audited(Step(s, st))
  {
    hide Inner, Legal, AuditedAs, ScheduleNext;
    if s.outcome.InProgress? {
      InnerAudited(s, st);
      var t := Inner(s, st);
      if t.outcome.InProgress? {
        InnerKeeps(s, st);
        hide PartitionOf, ParkedOf, IdentityOf, KernelOf;
        ScheduleNextAudited(t);
      }
    }
  }

  lemma StartAudited(init: Pid, seed: u64)
    ensures Audited(Start(init, seed))
  {
    var b := Boot(init, seed);
    assert Tables(b);
    assert Audited(b);
    hide AuditedAs, ScheduleNext, Tables;
    ScheduleNextAudited(b);
  }

  /** Over every run the log replays without error and the books agree with the tables: each word's queue
      is first-in first-out across the whole run, a parked thread leaves it only by a wake on its own word
      or its own death and gets no turn before that, every skipped call returns exactly once with the value
      fixed at its entry, and threads parked = threads woken + threads that died parked + threads still
      parked. */
  lemma {:induction false} RunAudited(init: Pid, seed: u64, sts: seq<Status>)
    requires LegalRun(Start(init, seed), sts)
    ensures Audited(Run(Start(init, seed), sts))
  {
    hide Step, Inv, Start, Legal, AuditedAs;
    var s := Start(init, seed);
    if sts == [] {
      StartAudited(init, seed);
    } else {
      var pre := sts[..|sts| - 1];
      assert forall i :: 0 <= i < |pre| ==> pre[..i] == sts[..i];
      RunAudited(init, seed, pre);
      RunSound(init, seed, pre);
      assert Legal(Run(s, sts[..|sts| - 1]), sts[|sts| - 1]);
      StepAudited(Run(s, pre), sts[|sts| - 1]);
    }
  }

  // ----- injections, counted

  function Skips(acts: seq<Act>): nat {
    if acts == [] then 0 else Skips(acts[..|acts| - 1]) + if acts[|acts| - 1].Skip? then 1 else 0
  }

  function Returns(acts: seq<Act>): nat {
    if acts == [] then 0 else Returns(acts[..|acts| - 1]) + if acts[|acts| - 1].Return? then 1 else 0
  }

  /** Deaths of threads that were still owed a result. */
  ghost function Dropped(acts: seq<Act>): nat {
    if acts == [] then 0
    else
      var pre, last := acts[..|acts| - 1], acts[|acts| - 1];
      Dropped(pre) + if last.Died? && Audit(pre).Some? && last.dead in Audit(pre).value.owed then 1 else 0
  }

  /** How the owed results change. */
  lemma OwedAfter(books: Books, act: Act)
    requires Enter(books, act).Some?
    ensures var owed := Enter(books, act).value.owed;
            match act
            case Skip(v, syscall, retval) => v.Some? && v.value !in books.owed && owed == books.owed[v.value := Inject(syscall, retval)]
            case Return(v, _, _) => v.Some? && v.value in books.owed && owed == books.owed - {v.value}
            case Died(v) => owed == books.owed - {v}
            case _ => owed == books.owed
  {
    hide Asleep, SetVtids, DropVtid;
  }

  lemma OwedStep(books: Books, act: Act)
    requires Enter(books, act).Some?
    ensures var owed := Enter(books, act).value.owed;
            |owed| == |books.owed| + (if act.Skip? then 1 else 0) - (if act.Return? then 1 else 0)
                      - (if act.Died? && act.dead in books.owed then 1 else 0)
  {
    OwedAfter(books, act);
    hide *;
    match act {
      case Skip(v, syscall, retval) => MapMore(books.owed, v.value, Inject(syscall, retval));
      case Return(v, _, _) => MapLess(books.owed, v.value);
      case Died(v) => if v in books.owed { MapLess(books.owed, v); } else { assert books.owed - {v} == books.owed; }
      case _ =>
    }
  }

  lemma MapMore<V>(m: map<Vtid, V>, v: Vtid, value: V)
    requires v !in m
    ensures |m[v := value]| == |m| + 1
  {
    assert m[v := value].Keys == m.Keys + {v};
    assert |m[v := value]| == |m[v := value].Keys| && |m| == |m.Keys|;
  }

  lemma MapLess<V>(m: map<Vtid, V>, v: Vtid)
    requires v in m
    ensures |m - {v}| == |m| - 1
  {
    assert (m - {v}).Keys == m.Keys - {v};
    assert |m - {v}| == |(m - {v}).Keys| && |m| == |m.Keys|;
  }

  lemma {:induction false} OwedCounts(acts: seq<Act>)
    requires Audit(acts).Some?
    ensures Skips(acts) == Returns(acts) + Dropped(acts) + |Audit(acts).value.owed|
  {
    hide Enter;
    if acts != [] {
      OwedCounts(acts[..|acts| - 1]);
      OwedStep(Audit(acts[..|acts| - 1]).value, acts[|acts| - 1]);
    }
  }

  /** As many results are owed as are pending. */
  lemma {:induction false} ImageSize(threads: map<Pid, Thread>, pids: set<Pid>, vtids: set<Vtid>)
    requires forall p :: p in pids ==> p in threads && threads[p].vtid in vtids
    requires forall v :: v in vtids ==> exists p :: p in pids && p in threads && threads[p].vtid == v
    requires forall p, q :: p in pids && q in pids && threads[p].vtid == threads[q].vtid ==> p == q
    ensures |pids| == |vtids|
  {
    if exists p :: p in pids {
      var p :| p in pids;
      var v := threads[p].vtid;
      forall w | w in vtids - {v} ensures exists q :: q in pids - {p} && q in threads && threads[q].vtid == w {
        var q :| q in pids && q in threads && threads[q].vtid == w;
        assert q in pids - {p};
      }
      ImageSize(threads, pids - {p}, vtids - {v});
      assert |pids - {p}| == |pids| - 1 && |vtids - {v}| == |vtids| - 1;
    } else {
      assert pids == {};
      assert forall v :: v !in vtids;
      assert vtids == {};
    }
  }

  lemma OwedIsPending(s: State, owed: map<Vtid, Inject>)
    requires Identity(s) && AgreeOwed(owed, s.reg.threads, s.calls.pending)
    ensures |owed| == |s.calls.pending|
  {
    ImageSize(s.reg.threads, s.calls.pending.Keys, owed.Keys);
    assert |owed| == |owed.Keys| && |s.calls.pending| == |s.calls.pending.Keys|;
  }

  /** Over every run, finished ones included: syscalls skipped = results injected + results pending + results
      dropped by a death. */
  lemma InjectionsBalance(init: Pid, seed: u64, sts: seq<Status>)
    requires LegalRun(Start(init, seed), sts)
    ensures var t := Run(Start(init, seed), sts);
            Skips(t.log.acts) == Returns(t.log.acts) + Dropped(t.log.acts) + |t.calls.pending|
  {
    hide *;
    var t := Run(Start(init, seed), sts);
    RunAudited(init, seed, sts);
    RunSound(init, seed, sts);
    AuditMeans(t);
    OwedCounts(t.log.acts);
    OwedIsPending(t, Audit(t.log.acts).value.owed);
  }

  lemma AuditMeans(t: State)
    requires Audited(t) && Sound(t)
    ensures Identity(t) && Audit(t.log.acts).Some? && AgreeOwed(Audit(t.log.acts).value.owed, t.reg.threads, t.calls.pending)
  {
    hide Audit, AgreeOwed, AgreeQueues, PartitionOf, ParkedOf, IdentityOf, KernelOf, FramesOf, RunsAmong;
  }
}
