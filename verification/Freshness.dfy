/** Choosing the pid of a new task: a fresh one always exists, and a renaming can be redirected to any choice
    the host makes without disturbing the state renamed so far. */
module Freshness {
  import opened Base
  import opened Machine
  import opened Invariants
  import opened Renaming

  // ----- a fresh pid exists

  ghost function Mentioned(s: State): set<Pid> {
    {s.reg.init} + (match s.focus.current case Some(p) => {p} case None => {})
    + s.reg.threads.Keys + s.kern.task.Keys + Elems(s.q.runnable) + s.q.blocked + s.q.pendingStart + s.q.stoppedPending
    + s.calls.pending.Keys + s.calls.sigPending.Keys + s.calls.clonePending.Keys
    + (set a, p | a in s.q.waiting && p in s.q.waiting[a] :: p)
    + (set f | f in s.focus.frames :: f.parent) + (set f | f in s.focus.frames :: f.child)
  }

  lemma {:induction false} Unmentioned(pids: set<Pid>) returns (p: Pid)
    ensures forall q :: q in pids ==> q < p
  {
    if q :| q in pids {
      var r := Unmentioned(pids - {q});
      p := if q < r then r else q + 1;
      forall x | x in pids ensures x < p {
        assert x == q || x in pids - {q};
      }
    } else {
      p := 0;
    }
  }

  lemma FreshExists(s: State) returns (p: Pid)
    ensures Fresh(s, p)
  {
    p := Unmentioned(Mentioned(s));
    assert p !in Mentioned(s);
    forall a | a in s.q.waiting ensures p !in s.q.waiting[a] {
      assert forall q :: q in s.q.waiting[a] ==> q in Mentioned(s);
    }
    forall f | f in s.focus.frames ensures f.parent != p && f.child != p {
      assert f.parent in Mentioned(s) && f.child in Mentioned(s);
    }
  }

  lemma FreshExistsQuantified(s: State)
    ensures exists p :: Fresh(s, p)
  {
    var p := FreshExists(s);
  }

  /** Some fresh pid, always the same for the same state. */
  ghost function FreshPid(s: State): (p: Pid)
    ensures Fresh(s, p)
  {
    FreshExistsQuantified(s);
    var p :| Fresh(s, p);
    p
  }

  // ----- freshness and renaming

  /** Renaming keeps taken pids taken. */
  lemma TakenRen(pi: Map, s: State, p: Pid)
    requires Injective(pi) && !Fresh(s, p)
    ensures !Fresh(Ren(pi, s), pi(p))
  {
    var r := Ren(pi, s);
    if a :| a in s.q.waiting && p in s.q.waiting[a] {
      SeqHas(pi, s.q.waiting[a], p);
      assert pi(p) in r.q.waiting[a];
    } else if f :| f in s.focus.frames && (f.parent == p || f.child == p) {
      var i :| 0 <= i < |s.focus.frames| && s.focus.frames[i] == f;
      assert r.focus.frames[i] in r.focus.frames;
    } else if p in s.q.runnable {
      SeqHas(pi, s.q.runnable, p);
    }
  }

  lemma SeqHas(pi: Map, q: seq<Pid>, p: Pid)
    requires p in q
    ensures pi(p) in RSeq(pi, q)
  {
    var i :| 0 <= i < |q| && q[i] == p;
    assert RSeq(pi, q)[i] == pi(p);
  }

  /** Two renamings that agree on the taken pids rename the state alike. */
  lemma AgreeingRen(pi: Map, rho: Map, s: State)
    requires Injective(pi) && Injective(rho) && forall p :: Fresh(s, p) || pi(p) == rho(p)
    ensures Ren(pi, s) == Ren(rho, s)
  {
    AgreeMap(pi, rho, s.reg.threads, s);
    AgreeMap(pi, rho, s.kern.task, s);
    AgreeMap(pi, rho, s.calls.pending, s);
    AgreeMap(pi, rho, s.calls.sigPending, s);
    AgreeMap(pi, rho, s.calls.clonePending, s);
    AgreeQueues(pi, rho, s);
    AgreeFocus(pi, rho, s);
    assert pi(s.reg.init) == rho(s.reg.init);
    hide RMap, RQueues, RFocus, Fresh, Injective;
  }

  lemma AgreeMap<V>(pi: Map, rho: Map, m: map<Pid, V>, s: State)
    requires Injective(pi) && Injective(rho) && forall p :: p in m ==> pi(p) == rho(p)
    ensures RMap(pi, m) == RMap(rho, m)
  {
    forall p | p in m ensures RMap(rho, m)[pi(p)] == m[p] && RMap(pi, m)[rho(p)] == m[p] {
      MapAt(pi, m, p);
      MapAt(rho, m, p);
    }
  }

  lemma AgreeSeq(pi: Map, rho: Map, q: seq<Pid>)
    requires forall i :: 0 <= i < |q| ==> pi(q[i]) == rho(q[i])
    ensures RSeq(pi, q) == RSeq(rho, q)
  {
  }

  lemma AgreeSet(pi: Map, rho: Map, s: set<Pid>)
    requires forall p :: p in s ==> pi(p) == rho(p)
    ensures RSet(pi, s) == RSet(rho, s)
  {
  }

  lemma AgreeQueues(pi: Map, rho: Map, s: State)
    requires forall p :: Fresh(s, p) || pi(p) == rho(p)
    ensures RQueues(pi, s.q) == RQueues(rho, s.q)
  {
    forall i | 0 <= i < |s.q.runnable| ensures pi(s.q.runnable[i]) == rho(s.q.runnable[i]) {
      assert !Fresh(s, s.q.runnable[i]);
    }
    AgreeSeq(pi, rho, s.q.runnable);
    AgreeSet(pi, rho, s.q.pendingStart);
    AgreeSet(pi, rho, s.q.stoppedPending);
    AgreeSet(pi, rho, s.q.blocked);
    forall a | a in s.q.waiting ensures RSeq(pi, s.q.waiting[a]) == RSeq(rho, s.q.waiting[a]) {
      forall i | 0 <= i < |s.q.waiting[a]| ensures pi(s.q.waiting[a][i]) == rho(s.q.waiting[a][i]) {
        assert s.q.waiting[a][i] in s.q.waiting[a];
        assert !Fresh(s, s.q.waiting[a][i]);
      }
      AgreeSeq(pi, rho, s.q.waiting[a]);
    }
    assert RWaiting(pi, s.q.waiting) == RWaiting(rho, s.q.waiting);
    hide RSeq, RSet, RWaiting, Fresh;
  }

  lemma AgreeFocus(pi: Map, rho: Map, s: State)
    requires forall p :: Fresh(s, p) || pi(p) == rho(p)
    ensures RFocus(pi, s.focus) == RFocus(rho, s.focus)
  {
    forall i | 0 <= i < |s.focus.frames| ensures RFrame(pi, s.focus.frames[i]) == RFrame(rho, s.focus.frames[i]) {
      var f := s.focus.frames[i];
      assert f in s.focus.frames;
      assert !Fresh(s, f.parent) && !Fresh(s, f.child);
    }
    assert RFrames(pi, s.focus.frames) == RFrames(rho, s.focus.frames);
    if s.focus.current.Some? {
      assert !Fresh(s, s.focus.current.value);
    }
  }

  // ----- redirecting a renaming

  function Swap(a: Pid, b: Pid, p: Pid): Pid { if p == a then b else if p == b then a else p }

  /** `pi`, but sending `w` to `x`. */
  ghost function Redirect(pi: Map, w: Pid, x: Pid): Map { (p: Pid) => Swap(pi(w), x, pi(p)) }

  lemma RedirectInjective(pi: Map, w: Pid, x: Pid)
    requires Injective(pi)
    ensures Injective(Redirect(pi, w, x)) && Redirect(pi, w, x)(w) == x
  {
    var rho := Redirect(pi, w, x);
    forall a, b | rho(a) == rho(b) ensures a == b {
      assert rho(a) == Swap(pi(w), x, pi(a)) && rho(b) == Swap(pi(w), x, pi(b));
      SwapInjective(pi(w), x, pi(a), pi(b));
      hide Redirect, Swap;
      assert pi(a) == pi(b);
    }
    assert rho(w) == Swap(pi(w), x, pi(w));
  }

  lemma SwapInjective(a: Pid, b: Pid, p: Pid, q: Pid)
    requires Swap(a, b, p) == Swap(a, b, q)
    ensures p == q
  {
  }

  lemma RedirectWorks(pi: Map, s: State, w: Pid, x: Pid)
    requires Injective(pi) && Fresh(s, w) && Fresh(Ren(pi, s), x)
    ensures var rho := Redirect(pi, w, x);
            Injective(rho) && rho(w) == x && Ren(rho, s) == Ren(pi, s) && forall p :: Fresh(s, p) || rho(p) == pi(p)
  {
    var rho := Redirect(pi, w, x);
    RedirectInjective(pi, w, x);
    forall p | !Fresh(s, p) ensures pi(p) == rho(p) {
      TakenRen(pi, s, p);
      assert p != w;
      hide Fresh, Ren;
    }
    hide Fresh, Injective, Redirect, Ren;
    AgreeingRen(pi, rho, s);
  }
}
