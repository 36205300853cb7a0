/**
 * XPManager.cs: experience points and levels. Gaining XP adds it, then levels
 * up as long as the XP reaches the threshold; each level-up spends the
 * threshold, adds a level, and scales the threshold by XpScaling, rounded to
 * an integer.
 */
module Experience {

  /** `Mathf.RoundToInt`: the nearest integer, with halves going to the even neighbour (`MathF.Round`). */
  function RoundToInt(x: real): (r: int)
    ensures x - 0.5 <= r as real <= x + 0.5
    ensures (r as real == x - 0.5 || r as real == x + 0.5) ==> r % 2 == 0
  {
    var f := x.Floor;
    var d := x - f as real;
    if d < 0.5 then f
    else if d > 0.5 then f + 1
    else if f % 2 == 0 then f
    else f + 1
  }

  /** The threshold after a level-up: `RoundToInt(XPToNextLevel * XpScaling)`. */
  function NextThreshold(threshold: int, scaling: real): (r: int)
    ensures threshold > 0 && scaling > 0.5 ==> r > 0
    ensures threshold > 0 && scaling >= 1.0 ==> r >= threshold
  {
    ScaledBounds(threshold, scaling);
    RoundToInt(threshold as real * scaling)
  }

  /** The scaled product clears one half when the scaling does, and does not shrink when the scaling is at least one. */
  lemma ScaledBounds(threshold: int, scaling: real)
    ensures threshold > 0 && scaling > 0.5 ==> threshold as real * scaling > 0.5
    ensures threshold > 0 && scaling >= 1.0 ==> threshold as real * scaling >= threshold as real
  {
    if threshold > 0 && scaling > 0.5 {
      assert threshold as real * scaling - scaling == (threshold - 1) as real * scaling;
    }
    if threshold > 0 && scaling >= 1.0 {
      assert threshold as real * scaling - threshold as real == threshold as real * (scaling - 1.0);
    }
  }

  lemma FractionBounds(x: int, t: int)
    requires t > 0
    ensures x as real / t as real < 1.0 <==> x < t
    ensures 0.0 <= x as real / t as real <==> 0 <= x
  {
    var r := x as real / t as real;
    assert r * t as real == x as real;
    assert (r - 1.0) * t as real == x as real - t as real;
    SignOfProduct(r - 1.0, t as real);
    SignOfProduct(r, t as real);
  }

  lemma SignOfProduct(a: real, b: real)
    requires b > 0.0
    ensures a < 0.0 <==> a * b < 0.0
  {
    if a < 0.0 {
      assert (-a) * b > 0.0;
    } else {
      assert a * b >= 0.0;
    }
  }

  datatype XPState = XPState(xp: int, level: int, threshold: int)

  /** The outcome of the level-up loop: the final state and the thresholds spent, in order. */
  datatype LevelUpRun = LevelUpRun(final: XPState, consumed: seq<int>)

  function Sum(s: seq<int>): int {
    if s == [] then 0 else s[0] + Sum(s[1..])
  }

  /** The loop of AddXp from a state: level up while the XP reaches the threshold. */
  function LevelUps(s: XPState, scaling: real): LevelUpRun
    requires s.threshold > 0 && scaling > 0.5
    decreases s.xp
  {
    if s.xp >= s.threshold then
      var rest := LevelUps(XPState(s.xp - s.threshold, s.level + 1, NextThreshold(s.threshold, scaling)), scaling);
      LevelUpRun(rest.final, [s.threshold] + rest.consumed)
    else
      LevelUpRun(s, [])
  }

  /**
   * The loop settles below a positive threshold; the XP it started with is
   * the XP it ends with plus every threshold it spent; the level rises by one
   * per threshold spent; it never drives non-negative XP negative; and it
   * spends nothing, leaving the state as it was, exactly when the XP starts
   * below the threshold.
   */
  lemma {:induction false} LevelUpsSettles(s: XPState, scaling: real)
    requires s.threshold > 0 && scaling > 0.5
    ensures var r := LevelUps(s, scaling);
      && 0 < r.final.threshold && r.final.xp < r.final.threshold
      && s.xp == r.final.xp + Sum(r.consumed)
      && r.final.level == s.level + |r.consumed|
      && (forall t <- r.consumed :: t > 0)
      && (s.xp >= 0 ==> r.final.xp >= 0)
      && (s.xp < s.threshold <==> r.consumed == [])
      && (s.xp < s.threshold ==> r.final == s)
    decreases s.xp
  {
    if s.xp >= s.threshold {
      var next := XPState(s.xp - s.threshold, s.level + 1, NextThreshold(s.threshold, scaling));
      LevelUpsSettles(next, scaling);
      var rest := LevelUps(next, scaling);
      assert ([s.threshold] + rest.consumed)[1..] == rest.consumed;
    }
  }

  /**
   * The thresholds spent form the chain the scaling gives: the first is the
   * starting threshold, each next one is the scaled previous one, and the
   * final threshold is the scaled last one.
   */
  lemma {:induction false} ThresholdChain(s: XPState, scaling: real)
    requires s.threshold > 0 && scaling > 0.5
    ensures var r := LevelUps(s, scaling);
      && (r.consumed == [] ==> r.final.threshold == s.threshold)
      && (r.consumed != [] ==>
            && r.consumed[0] == s.threshold
            && r.final.threshold == NextThreshold(r.consumed[|r.consumed| - 1], scaling))
      && (forall i :: 0 <= i < |r.consumed| - 1 ==> r.consumed[i + 1] == NextThreshold(r.consumed[i], scaling))
    decreases s.xp
  {
    if s.xp >= s.threshold {
      var next := XPState(s.xp - s.threshold, s.level + 1, NextThreshold(s.threshold, scaling));
      ThresholdChain(next, scaling);
      var rest := LevelUps(next, scaling);
      var r := LevelUps(s, scaling);
      assert r.consumed == [s.threshold] + rest.consumed;
      forall i | 0 <= i < |r.consumed| - 1
        ensures r.consumed[i + 1] == NextThreshold(r.consumed[i], scaling)
      {
        if i > 0 {
          assert r.consumed[i] == rest.consumed[i - 1];
        }
      }
    }
  }

  /** Signals emitted. */
  datatype XPEvent = XPGained(amount: int, newTotal: int) | LevelUp(newLevel: int)

  /** The LevelUp signals of `count` level-ups starting from level `from`. */
  function LevelUpEvents(from: int, count: nat): seq<XPEvent> {
    seq(count, i => LevelUp(from + i + 1))
  }

  class XPManager {
    var currentXP: int
    var currentLevel: int
    var xpToNextLevel: int
    var xpScaling: real
    /** Every signal emitted, in order. */
    var events: seq<XPEvent>

    function State(): XPState
      reads this
    {
      XPState(currentXP, currentLevel, xpToNextLevel)
    }

    /** The values the node is declared with. */
    constructor ()
      ensures State() == XPState(0, 1, 100) && xpScaling == 1.5 && events == []
    {
      currentXP := 0;
      currentLevel := 1;
      xpToNextLevel := 100;
      xpScaling := 1.5;
      events := [];
    }

    /**
     * Adds the XP and levels up until it is below the threshold. Needs a
     * positive threshold and a scaling above one half, which keep every
     * later threshold positive.
     */
    method AddXp(amount: int)
      requires xpToNextLevel > 0 && xpScaling > 0.5
      modifies this
      ensures xpScaling == old(xpScaling)
      ensures 0 <= currentXP < xpToNextLevel || currentXP < 0 < xpToNextLevel
      ensures var run := LevelUps(XPState(old(currentXP) + amount, old(currentLevel), old(xpToNextLevel)), xpScaling);
        && State() == run.final
        && events == old(events) + [XPGained(amount, old(currentXP) + amount)] + LevelUpEvents(old(currentLevel), |run.consumed|)
    {
      currentXP := currentXP + amount;
      events := events + [XPGained(amount, currentXP)];
      ghost var run := LevelUps(State(), xpScaling);
      ghost var rest := run;
      ghost var consumed: seq<int> := [];
      ghost var before := events;
      ghost var startLevel := currentLevel;
      while currentXP >= xpToNextLevel
        invariant xpToNextLevel > 0 && xpScaling == old(xpScaling)
        invariant rest == LevelUps(State(), xpScaling)
        invariant run.final == rest.final && run.consumed == consumed + rest.consumed
        invariant currentLevel == startLevel + |consumed|
        invariant events == before + LevelUpEvents(startLevel, |consumed|)
        decreases currentXP
      {
        ghost var spent := xpToNextLevel;
        ghost var next := LevelUps(XPState(currentXP - spent, currentLevel + 1, NextThreshold(spent, xpScaling)), xpScaling);
        assert rest == LevelUpRun(next.final, [spent] + next.consumed);
        ProcessLevelUp();
        assert LevelUpEvents(startLevel, |consumed| + 1) == LevelUpEvents(startLevel, |consumed|) + [LevelUp(currentLevel)];
        assert consumed + ([spent] + next.consumed) == (consumed + [spent]) + next.consumed;
        consumed := consumed + [spent];
        rest := next;
      }
    }

    /** One level-up: spend the threshold, gain a level, scale the threshold, signal the new level. */
    method ProcessLevelUp()
      modifies this
      ensures currentXP == old(currentXP) - old(xpToNextLevel)
      ensures currentLevel == old(currentLevel) + 1
      ensures xpToNextLevel == NextThreshold(old(xpToNextLevel), xpScaling) && xpScaling == old(xpScaling)
      ensures events == old(events) + [LevelUp(currentLevel)]
    {
      currentXP := currentXP - xpToNextLevel;
      currentLevel := currentLevel + 1;
      xpToNextLevel := NextThreshold(xpToNextLevel, xpScaling);
      events := events + [LevelUp(currentLevel)];
    }

    /** How far the XP is towards the next level, as a fraction of the threshold. */
    function GetXPProgress(): (r: real)
      reads this
      requires xpToNextLevel > 0
      ensures r < 1.0 <==> currentXP < xpToNextLevel
      ensures 0.0 <= r <==> 0 <= currentXP
    {
      FractionBounds(currentXP, xpToNextLevel);
      currentXP as real / xpToNextLevel as real
    }

    /** Back to the starting values, whatever the state was; the scaling is kept and nothing is signalled. */
    method Reset()
      modifies this
      ensures State() == XPState(0, 1, 100)
      ensures xpScaling == old(xpScaling) && events == old(events)
    {
      currentXP := 0;
      currentLevel := 1;
      xpToNextLevel := 100;
    }
  }
}
