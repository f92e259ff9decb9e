/** The clock readings of every run, in numbers (src/runtime/supervisor.rs:29-39, 716-774). */
module Readings {
  import opened Base
  import opened Machine
  import Clock
  import Prng
  import Recorder
  import Replay

  /** How many of the records are readings of the clocks 1, 6 and 7: monotonic, monotonic-coarse and boottime. */
  function Monotonic(trace: seq<Record>): nat {
    if trace == [] then 0
    else
      var last := trace[|trace| - 1].event;
      Monotonic(trace[..|trace| - 1]) + if last.ClockGettime? && last.clock in {1, 6, 7} then 1 else 0
  }

  /** What a reading must be when `k` monotonic ones came before it: k milliseconds as seconds and a proper nanosecond
      part, exactly as long as that many nanoseconds fit 64 bits; every other clock stands at 1704067200 seconds. */
  predicate Right(k: nat, e: Event) {
    match e
    case ClockGettime(clk, sec, nsec) =>
      if clk in {1, 6, 7} then
        nsec < 1_000_000_000 && (sec * 1_000_000_000 + nsec == k * 1_000_000 <==> k * 1_000_000 < 0x1_0000_0000_0000_0000)
      else sec == 1_704_067_200 && nsec == 0
    case GetTimeOfDay(sec, usec) => sec == 1_704_067_200 && usec == 0
    case _ => true
  }

  lemma ReadByNumber(k: nat, clk: int)
    ensures var r := Clock.Read(k % U64, clk);
            Right(k, ClockGettime(clk, r.sec, r.nsec))
            && Clock.NextTick(k % U64, clk) == (if clk in {1, 6, 7} then k + 1 else k) % U64
  {
    assert Clock.Ticks(clk) <==> clk in {1, 6, 7};
    if clk in {1, 6, 7} {
      var r := Clock.Read(k % U64, clk);
      assert r.sec * 1_000_000_000 + r.nsec == (k % U64) * 1_000_000 % U64;
      if k * 1_000_000 < U64 {
        assert k < U64;
      }
    }
  }

  /** One event a player accepts. */
  lemma PlayStep(k: nat, player: Replay.Player, e: Event)
    requires player.tick == k % U64 && Replay.Play(player, e).Some?
    ensures Right(k, e)
    ensures Replay.Play(player, e).value.tick == (k + if e.ClockGettime? && e.clock in {1, 6, 7} then 1 else 0) % U64
  {
    hide Clock.Read, Clock.NextTick, Recorder.Filled, Recorder.Unhex, Recorder.DrawsFor, Prng.WordAfter;
    if e.ClockGettime? { ReadByNumber(k, e.clock); }
  }

  /** Events of no device leave a player as it is. */
  lemma DeviceStep(seed: u64, pre: seq<Record>, rec: Record)
    ensures var before, after := Replay.PlayAll(seed, Replay.DeviceEvents(pre)), Replay.PlayAll(seed, Replay.DeviceEvents(pre + [rec]));
            if Replay.IsDevice(rec.event) then after == if before.Some? then Replay.Play(before.value, rec.event) else None
            else after == before && (before.Some? ==> Replay.Play(before.value, rec.event) == before)
  {
    hide Clock.Read, Clock.NextTick, Recorder.Filled, Recorder.Unhex, Recorder.DrawsFor, Prng.WordAfter;
    assert (pre + [rec])[..|pre|] == pre;
    var events := Replay.DeviceEvents(pre);
    assert (events + [rec.event])[..|events|] == events;
  }

  /** A player that accepts a trace has found every reading right, and its clock stands at the number of monotonic ones. */
  lemma {:induction false} PlayedRight(seed: u64, trace: seq<Record>)
    requires Replay.PlayAll(seed, Replay.DeviceEvents(trace)).Some?
    ensures Replay.PlayAll(seed, Replay.DeviceEvents(trace)).value.tick == Monotonic(trace) % U64
    ensures trace != [] ==> Right(Monotonic(trace[..|trace| - 1]), trace[|trace| - 1].event)
  {
    if trace != [] {
      hide Replay.Play, Replay.PlayAll, Replay.DeviceEvents, Right;
      var pre, rec := trace[..|trace| - 1], trace[|trace| - 1];
      assert trace == pre + [rec];
      DeviceStep(seed, pre, rec);
      PlayedRight(seed, pre);
      PlayStep(Monotonic(pre), Replay.PlayAll(seed, Replay.DeviceEvents(pre)).value, rec.event);
    }
  }

  lemma {:induction false} PrefixPlays(seed: u64, trace: seq<Record>, i: nat)
    requires i <= |trace| && Replay.PlayAll(seed, Replay.DeviceEvents(trace)).Some?
    ensures Replay.PlayAll(seed, Replay.DeviceEvents(trace[..i])).Some?
  {
    if i < |trace| {
      hide Replay.Play, Replay.PlayAll, Replay.DeviceEvents;
      var pre, rec := trace[..|trace| - 1], trace[|trace| - 1];
      assert trace == pre + [rec];
      DeviceStep(seed, pre, rec);
      PrefixPlays(seed, pre, i);
      assert pre[..i] == trace[..i];
    } else {
      assert trace[..i] == trace;
    }
  }

  /** Over every run, whatever the statuses: the k-th reading of the clocks 1, 6 and 7, counted over all tasks from 0, is k
      milliseconds while that fits, the other clocks and gettimeofday stand still. */
  lemma ClocksOfRun(init: Pid, seed: u64, sts: seq<Status>, i: nat)
    requires i < |Run(Start(init, seed), sts).log.trace|
    ensures var trace := Run(Start(init, seed), sts).log.trace; Right(Monotonic(trace[..i]), trace[i].event)
  {
    hide *;
    var trace := Run(Start(init, seed), sts).log.trace;
    Replay.RunPlays(init, seed, sts);
    PrefixPlays(seed, trace, i + 1);
    PlayedRight(seed, trace[..i + 1]);
    assert trace[..i + 1][..i] == trace[..i];
  }

  /** Later monotonic readings of a run are later. */
  lemma ReadingsOfRunIncrease(init: Pid, seed: u64, sts: seq<Status>, i: nat, j: nat)
    requires i < j < |Run(Start(init, seed), sts).log.trace|
    requires var trace := Run(Start(init, seed), sts).log.trace;
             && trace[i].event.ClockGettime? && trace[i].event.clock in {1, 6, 7}
             && trace[j].event.ClockGettime? && trace[j].event.clock in {1, 6, 7}
             && Monotonic(trace[..j]) * 1_000_000 < 0x1_0000_0000_0000_0000
    ensures var trace := Run(Start(init, seed), sts).log.trace; var a, b := trace[i].event, trace[j].event;
            a.sec * 1_000_000_000 + a.nsec < b.sec * 1_000_000_000 + b.nsec
  {
    hide *;
    var trace := Run(Start(init, seed), sts).log.trace;
    ClocksOfRun(init, seed, sts, i);
    ClocksOfRun(init, seed, sts, j);
    CountsBetween(trace, i, j);
    LaterIsMore(Monotonic(trace[..i]), trace[i].event, Monotonic(trace[..j]), trace[j].event);
  }

  lemma CountsBetween(trace: seq<Record>, i: nat, j: nat)
    requires i < j < |trace| && trace[i].event.ClockGettime? && trace[i].event.clock in {1, 6, 7}
    ensures Monotonic(trace[..i]) < Monotonic(trace[..j])
  {
    assert trace[..i + 1][..i] == trace[..i];
    MonotonicGrows(trace[..j], i + 1);
    assert trace[..j][..i + 1] == trace[..i + 1];
  }

  lemma LaterIsMore(k: nat, a: Event, m: nat, b: Event)
    requires Right(k, a) && Right(m, b) && k < m && m * 1_000_000 < 0x1_0000_0000_0000_0000
    requires a.ClockGettime? && b.ClockGettime? && a.clock in {1, 6, 7} && b.clock in {1, 6, 7}
    ensures a.sec * 1_000_000_000 + a.nsec < b.sec * 1_000_000_000 + b.nsec
  {
  }

  lemma {:induction false} MonotonicGrows(trace: seq<Record>, i: nat)
    requires i <= |trace|
    ensures Monotonic(trace[..i]) <= Monotonic(trace)
  {
    if i < |trace| {
      MonotonicGrows(trace[..|trace| - 1], i);
      assert trace[..|trace| - 1][..i] == trace[..i];
    } else {
      assert trace[..i] == trace;
    }
  }
}
