/** The arithmetic of one spin: how many draws it makes, how a random value
    picks an index into the pool, and the decelerating delay schedule between
    draws. Random values are injected reals in [0, 1), standing for the values
    `Math.random()` returns. */
module Spin {

  /** Minimum number of draws per spin. */
  const BaseSpins := 20
  /** Number of distinct random offsets added to `BaseSpins`. */
  const SpinSpread := 10
  /** Base delay between draws, in milliseconds. */
  const Speed := 50

  predicate IsUnit(r: real)
  {
    0.0 <= r < 1.0
  }

  /** `20 + floor(r * 10)`. */
  function TotalSpinsFrom(r: real): (n: int)
    requires IsUnit(r)
    ensures BaseSpins <= n < BaseSpins + SpinSpread
  {
    BaseSpins + (r * SpinSpread as real).Floor
  }

  /** Every draw count in [20, 29] is produced by some random value. */
  lemma TotalSpinsReaches(n: int)
    requires BaseSpins <= n < BaseSpins + SpinSpread
    ensures IsUnit((n - BaseSpins) as real / SpinSpread as real)
    ensures TotalSpinsFrom((n - BaseSpins) as real / SpinSpread as real) == n
  {
    var r := (n - BaseSpins) as real / SpinSpread as real;
    assert r * SpinSpread as real == (n - BaseSpins) as real;
  }

  /** `floor(r * size)`: the index drawn from a pool of `size` elements. */
  function DrawIndex(r: real, size: nat): (i: nat)
    requires IsUnit(r) && size > 0
    ensures i < size
  {
    var x := r * size as real;
    assert 0.0 <= x < size as real by {
      assert r * size as real < 1.0 * size as real;
    }
    x.Floor
  }

  /** Every index of the pool can be drawn. */
  lemma DrawIndexReaches(i: nat, size: nat)
    requires i < size
    ensures IsUnit(i as real / size as real)
    ensures DrawIndex(i as real / size as real, size) == i
  {
    var r := i as real / size as real;
    assert r * size as real == i as real;
  }

  /** The delay scheduled after the draw that brought the counter to `counter`. */
  function Delay(counter: int, totalSpins: int): int
  {
    if counter > totalSpins - 5 then Speed * (counter - (totalSpins - 6)) else Speed
  }

  /** The delays of a whole spin: one after each draw but the last. */
  function DelaySchedule(totalSpins: int): (s: seq<int>)
    requires totalSpins >= 1
  {
    seq(totalSpins - 1, k => Delay(k + 1, totalSpins))
  }

  /** A spin of at least six draws waits the base delay until its last five
      waits, which are 1, 2, 3, 4 and 5 times the base delay. */
  lemma ScheduleShape(totalSpins: int)
    requires totalSpins >= 6
    ensures |DelaySchedule(totalSpins)| == totalSpins - 1
    ensures DelaySchedule(totalSpins)[totalSpins - 6..] == [Speed, 2 * Speed, 3 * Speed, 4 * Speed, 5 * Speed]
    ensures forall k :: 0 <= k < totalSpins - 6 ==> DelaySchedule(totalSpins)[k] == Speed
    ensures forall k :: 0 <= k < totalSpins - 1 ==> DelaySchedule(totalSpins)[k] >= Speed
  {
    var s := DelaySchedule(totalSpins);
    var n := totalSpins;
    assert s[n - 6] == Speed && s[n - 5] == 2 * Speed && s[n - 4] == 3 * Speed;
    assert s[n - 3] == 4 * Speed && s[n - 2] == 5 * Speed;
  }
}
