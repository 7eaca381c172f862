/** The heatpot: a simulated heating element whose temperature follows the
    heat costs tallied by other peripherals (src/heatpot.c). */
module Heatpot {

  /** Sum of a table of costs, accumulated from slot 0 upward. */
  function Sum(s: seq<real>): (w: real)
  {
    if s == [] then 0.0 else Sum(s[..|s| - 1]) + s[|s| - 1]
  }

  /** A table that holds only zero costs weighs nothing. */
  lemma {:induction false} SumZero(s: seq<real>)
    requires forall i :: 0 <= i < |s| ==> s[i] == 0.0
    ensures Sum(s) == 0.0
  {
    if s != [] {
      SumZero(s[..|s| - 1]);
    }
  }

  /** Overwriting one slot changes the sum by exactly the difference between
      the new and the old cost; in particular, writing the cost a slot already
      holds leaves the weight alone. */
  lemma {:induction false} SumUpdate(s: seq<real>, i: nat, v: real)
    requires i < |s|
    ensures Sum(s[i := v]) == Sum(s) - s[i] + v
  {
    var n := |s| - 1;
    if i == n {
      assert s[i := v][..n] == s[..n];
    } else {
      assert s[i := v][..n] == s[..n][i := v];
      SumUpdate(s[..n], i, v);
    }
  }

  /** The perturbation drawn for one recompute: the random draw `r` (the
      source's random() % 32) recentred on 16 and scaled by 1/32. */
  function Noise(r: int): (n: real)
    requires 0 <= r < 32
    ensures -0.5 <= n < 0.5
    ensures n * 32.0 + 16.0 == r as real
  {
    (r - 16) as real / 32.0
  }

  /** The temperature after one recompute, given the one before, the ambient
      baseline, the summed weight of the tallies and the random draw. */
  function NextTemperature(current: real, ambiant: real, weight: real, r: int): (t: real)
    requires 0 <= r < 32
    // below the noisy baseline: pulled up by a tenth of the gap, never past it
    ensures current - ambiant + Noise(r) < 0.0 ==>
              t > current && t - (ambiant - Noise(r)) == 0.9 * (current - ambiant + Noise(r))
    // otherwise: one tenth of a degree up when something heats, down when nothing does
    ensures current - ambiant + Noise(r) >= 0.0 ==>
              (weight > 0.0 ==> t == current + 0.1) && (weight <= 0.0 ==> t == current - 0.1)
    ensures t > current <==> current - ambiant + Noise(r) < 0.0 || weight > 0.0
  {
    var delta := current - ambiant + Noise(r);
    if delta < 0.0 then current + -delta / 10.0
    else if weight > 0.0 then current + 0.1
    else current - 0.1
  }

  /** The weight enters a recompute only through its sign, so the product
      with the weight that the source computes and then overwrites cannot
      influence the result. */
  lemma WeightOnlyBySign(current: real, ambiant: real, w1: real, w2: real, r: int)
    requires 0 <= r < 32
    requires w1 > 0.0 <==> w2 > 0.0
    ensures NextTemperature(current, ambiant, w1, r) == NextTemperature(current, ambiant, w2, r)
  {
  }

  /** A resample period in cycles; the timer always re-arms in the future. */
  type Period = c: nat | c > 0 witness 1

  /** The time at which the recompute timer fires again. */
  function NextFire(when: nat, cycle: Period): nat
  {
    when + cycle
  }

  /** The first k + 1 fire times of a timer first armed at `start`, each one
      returned by the recompute that fired at the previous one. */
  function FireTimes(start: nat, cycle: Period, k: nat): (s: seq<nat>)
    ensures |s| == k + 1 && s[0] == start
  {
    if k == 0 then [start]
    else
      var earlier := FireTimes(start, cycle, k - 1);
      earlier + [NextFire(earlier[k - 1], cycle)]
  }

  /** The timer does not drift: the i-th firing is exactly i periods after
      the first. */
  lemma {:induction false} FireTimesNoDrift(start: nat, cycle: Period, k: nat)
    ensures forall i :: 0 <= i <= k ==> FireTimes(start, cycle, k)[i] == start + i * cycle
  {
    if k > 0 {
      FireTimesNoDrift(start, cycle, k - 1);
      var earlier := FireTimes(start, cycle, k - 1);
      assert earlier[k - 1] + cycle == start + k * cycle;
    }
  }

  /** Every re-arm is strictly later than the one before, so the timer keeps
      firing for as long as the simulation runs. */
  lemma FireTimesIncreasing(start: nat, cycle: Period, k: nat)
    ensures forall i :: 0 <= i < k ==> FireTimes(start, cycle, k)[i] < FireTimes(start, cycle, k)[i + 1]
  {
    FireTimesNoDrift(start, cycle, k);
    forall i | 0 <= i < k
      ensures FireTimes(start, cycle, k)[i] < FireTimes(start, cycle, k)[i + 1]
    {
      assert (i + 1) * cycle == i * cycle + cycle;
    }
  }

  /** One decoded tally message: the source slot and its new cost. */
  datatype TallyMsg = TallyMsg(sid: nat, cost: real)

  /** The table after a series of tally messages, applied in order. */
  function ApplyTallies(s: seq<real>, msgs: seq<TallyMsg>): (t: seq<real>)
    requires forall m :: m in msgs ==> m.sid < |s|
    ensures |t| == |s|
  {
    if msgs == [] then s
    else
      var last := msgs[|msgs| - 1];
      ApplyTallies(s, msgs[..|msgs| - 1])[last.sid := last.cost]
  }

  /** The cost of the last message for slot `sid`, or `initial` if none. */
  function LastCost(msgs: seq<TallyMsg>, sid: nat, initial: real): (c: real)
  {
    if msgs == [] then initial
    else if msgs[|msgs| - 1].sid == sid then msgs[|msgs| - 1].cost
    else LastCost(msgs[..|msgs| - 1], sid, initial)
  }

  /** Last write wins: after any series of tallies, each slot holds the cost
      of the latest message addressed to it, and untouched slots keep their
      cost. */
  lemma {:induction false} TallyLastWriteWins(s: seq<real>, msgs: seq<TallyMsg>, i: nat)
    requires forall m :: m in msgs ==> m.sid < |s|
    requires i < |s|
    ensures ApplyTallies(s, msgs)[i] == LastCost(msgs, i, s[i])
  {
    if msgs != [] {
      var front := msgs[..|msgs| - 1];
      assert forall m :: m in front ==> m in msgs;
      TallyLastWriteWins(s, front, i);
    }
  }

  /** Applying one more message overwrites one slot of the table so far. */
  lemma ApplyOneMore(s: seq<real>, msgs: seq<TallyMsg>, m: TallyMsg)
    requires forall x :: x in msgs ==> x.sid < |s|
    requires m.sid < |s|
    ensures ApplyTallies(s, msgs + [m]) == ApplyTallies(s, msgs)[m.sid := m.cost]
  {
    assert (msgs + [m])[..|msgs|] == msgs;
  }

  /** Two successive tallies to one slot leave only the second cost, and the
      weight then counts the second cost and not the first. */
  lemma TallyTwice(s: seq<real>, sid: nat, first: real, second: real)
    requires sid < |s|
    ensures ApplyTallies(s, [TallyMsg(sid, first), TallyMsg(sid, second)]) == s[sid := second]
    ensures Sum(ApplyTallies(s, [TallyMsg(sid, first), TallyMsg(sid, second)])) == Sum(s) - s[sid] + second
  {
    var a, b := TallyMsg(sid, first), TallyMsg(sid, second);
    ApplyOneMore(s, [], a);
    assert [] + [a] == [a];
    ApplyOneMore(s, [a], b);
    assert [a] + [b] == [a, b];
    OverwriteTwice(s, sid, first, second);
    SumUpdate(s, sid, second);
  }

  /** Writing a slot twice is writing it once with the second value. */
  lemma OverwriteTwice(s: seq<real>, i: nat, x: real, y: real)
    requires i < |s|
    ensures s[i := x][i := y] == s[i := y]
  {
  }

  /** Worked examples with a draw of 16 (no noise): at ambient with nothing
      heating, at ambient with one source heating, and ten degrees below
      ambient, where the weight `w` does not matter. */
  lemma Scenarios(w: real)
    ensures Noise(16) == 0.0
    ensures NextTemperature(20.0, 20.0, 0.0, 16) == 19.9
    ensures NextTemperature(20.0, 20.0, 5.0, 16) == 20.1
    ensures NextTemperature(10.0, 20.0, w, 16) == 11.0
  {
  }

  /** One heatpot record. The tally table is part of the record, so it is
      never replaced; only its slots and the current temperature change. */
  class Heatpot {
    const name: string
    const tally: array<real>
    var current: real
    const ambiant: real
    const cycle: Period

    /** Zeroes the record, stores the name, the resample period and the
        ambient temperature, and starts at ambient. `size` is the table's
        compile-time capacity and `cycle` the resample period already
        converted to cycles. */
    constructor Init(name: string, ambiant: real, cycle: Period, size: nat)
      ensures this.name == name && this.ambiant == ambiant && this.cycle == cycle
      ensures current == ambiant
      ensures fresh(tally) && tally.Length == size
      ensures forall i :: 0 <= i < tally.Length ==> tally[i] == 0.0
      ensures Sum(tally[..]) == 0.0
    {
      this.name := name;
      tally := new real[size](_ => 0.0);
      this.cycle := cycle;
      this.ambiant := ambiant;
      current := ambiant;
      new;
      SumZero(tally[..]);
    }

    /** Records the latest cost reported by source `sid`. */
    method Tally(sid: nat, cost: real)
      requires sid < tally.Length
      modifies tally
      ensures tally[..] == old(tally[..])[sid := cost]
      ensures Sum(tally[..]) == old(Sum(tally[..])) - old(tally[sid]) + cost
    {
      tally[sid] := cost;
      SumUpdate(old(tally[..]), sid, cost);
    }

    /** The tally input line's listener: applies one decoded message. */
    method TallyInHook(msg: TallyMsg)
      requires msg.sid < tally.Length
      modifies tally
      ensures tally[..] == ApplyTallies(old(tally[..]), [msg])
    {
      Tally(msg.sid, msg.cost);
      assert [msg][..0] == [];
    }

    /** The weight of the table: the sum of every slot's cost. */
    method Weight() returns (weight: real)
      ensures weight == Sum(tally[..])
    {
      weight := 0.0;
      for si := 0 to tally.Length
        invariant weight == Sum(tally[..si])
      {
        assert tally[..si + 1][..si] == tally[..si];
        weight := weight + tally[si];
      }
      assert tally[..tally.Length] == tally[..];
    }

    /** One firing of the recompute timer at time `when`, with `r` standing
        for the random draw. Returns the next fire time and the value raised
        on the temperature output line. */
    method EvaluateTimer(when: nat, r: int) returns (next: nat, tempOut: real)
      requires 0 <= r < 32
      modifies this`current
      ensures current == NextTemperature(old(current), ambiant, Sum(tally[..]), r)
      ensures next == NextFire(when, cycle) && next > when
      ensures tempOut == current * 256.0
    {
      var weight := Weight();
      var delta := current - ambiant;
      var noise := Noise(r);
      delta := delta + noise;
      var cost := ((delta / 2.0) + noise) * -weight;
      if delta < 0.0 {
        cost := -delta / 10.0;
      } else {
        cost := if weight > 0.0 then 0.1 else -0.1;
      }
      current := current + cost;
      tempOut := current * 256.0;
      next := when + cycle;
    }
  }
}
