/** The virtual clock (src/runtime/supervisor.rs:29-39, 759-774). Products of 64-bit words wrap. */
module Clock {
  import opened Base

  const VIRTUAL_EPOCH := 1_704_067_200
  const MONO_STEP_NS := 1_000_000
  const NS_PER_SEC := 1_000_000_000

  const CLOCK_REALTIME := 0
  const CLOCK_MONOTONIC := 1
  const CLOCK_MONOTONIC_COARSE := 6
  const CLOCK_BOOTTIME := 7

  datatype Reading = Reading(sec: nat, nsec: nat) {
    function Ns(): nat { sec * NS_PER_SEC + nsec }
  }

  predicate Ticks(clk: int) {
    clk == CLOCK_MONOTONIC || clk == CLOCK_MONOTONIC_COARSE || clk == CLOCK_BOOTTIME
  }

  /** What a read of clock `clk` returns when `tick` monotonic reads came before it. */
  function Read(tick: u64, clk: int): Reading {
    if Ticks(clk) then
      var ns := tick * MONO_STEP_NS % U64;
      Reading(ns / NS_PER_SEC, ns % NS_PER_SEC)
    else Reading(VIRTUAL_EPOCH, 0)
  }

  function NextTick(tick: u64, clk: int): u64 {
    if Ticks(clk) then (tick + 1) % U64 else tick
  }

  /** The counter after the reads in `clks`. */
  function TickAfter(clks: seq<int>): u64 {
    if clks == [] then 0 else NextTick(TickAfter(clks[..|clks| - 1]), clks[|clks| - 1])
  }

  /** How many reads in `clks` are of the clocks 1, 6 and 7: monotonic, monotonic-coarse and boottime. */
  function TickingReads(clks: seq<int>): nat {
    if clks == [] then 0
    else TickingReads(clks[..|clks| - 1]) + if clks[|clks| - 1] in {1, 6, 7} then 1 else 0
  }

  lemma {:induction false} TickCounts(clks: seq<int>)
    ensures TickAfter(clks) == TickingReads(clks) % U64
  {
    if clks != [] {
      TickCounts(clks[..|clks| - 1]);
    }
  }

  /** Over any mix of earlier reads, the k-th read (from 0) of the clocks 1, 6 and 7 denotes exactly k milliseconds,
      split into seconds and a proper nanosecond part, if and only if that many nanoseconds fit 64 bits; every other
      clock reads 1704067200 seconds and does not tick. */
  lemma {:induction false} KthReading(before: seq<int>, clk: int)
    ensures clk in {1, 6, 7} ==>
              var k, r := TickingReads(before), Read(TickAfter(before), clk);
              && r.nsec < 1_000_000_000
              && (r.sec * 1_000_000_000 + r.nsec == k * 1_000_000 <==> k * 1_000_000 < 0x1_0000_0000_0000_0000)
    ensures clk !in {1, 6, 7} ==>
              Read(TickAfter(before), clk) == Reading(1_704_067_200, 0)
              && TickAfter(before + [clk]) == TickAfter(before)
  {
    var k := TickingReads(before);
    TickCounts(before);
    assert (before + [clk])[..|before|] == before;
    if Ticks(clk) {
      var r := Read(TickAfter(before), clk);
      assert r.Ns() == (k % U64) * MONO_STEP_NS % U64;
      if k * MONO_STEP_NS < U64 {
        assert k < U64;
      }
    }
  }

  lemma {:induction false} TickingMonotone(a: seq<int>, b: seq<int>)
    ensures TickingReads(a) <= TickingReads(a + b)
  {
    if b == [] {
      assert a + b == a;
    } else {
      assert (a + b)[..|a + b| - 1] == a + b[..|b| - 1];
      TickingMonotone(a, b[..|b| - 1]);
    }
  }

  /** A later ticking read is strictly later, whichever ticking clock each of the two names. */
  lemma ReadingsIncrease(before: seq<int>, clk: int, between: seq<int>, clk': int)
    requires clk in {1, 6, 7} && clk' in {1, 6, 7}
    requires TickingReads(before + [clk] + between) * 1_000_000 < 0x1_0000_0000_0000_0000
    ensures Read(TickAfter(before), clk).Ns() < Read(TickAfter(before + [clk] + between), clk').Ns()
  {
    var later := before + [clk] + between;
    TickingMonotone(before + [clk], between);
    assert (before + [clk])[..|before|] == before;
    assert TickingReads(before + [clk]) == TickingReads(before) + 1;
    KthReading(before, clk);
    KthReading(later, clk');
  }
}
