/**
 * The milestone stepper (`src/components/ProgressStepper.js`): the overall
 * percentage and, for each of the fixed milestones 0, 25, 50, 75 and 100,
 * whether it is reached, whether it is the current step, what its circle
 * shows and whether the connector after it is filled.
 */
module ProgressStepper {
  import opened Js

  /**
   * The completed share of all quests as a whole percentage, rounded half up,
   * and 0 when there are no quests.
   * Nothing bounds the completed count by the total, so the result can
   * exceed 100.
   */
  function Percentage(completed: nat, total: nat): (p: nat)
    ensures total == 0 ==> p == 0
    ensures total > 0 ==> 2 * total * p <= 200 * completed + total < 2 * total * (p + 1)
  {
    if total == 0 then 0 else RoundedPercent(completed, total)
  }

  /** Cancelling a positive factor from a strict inequality. */
  lemma MulCancel(a: int, x: int, y: int)
    requires a > 0 && a * x < a * y
    ensures x < y
  {
    assert a * (y - x) == a * y - a * x > 0;
  }

  /**
   * The percentage is 0 with nothing done and 100 with everything done, stays
   * within 0..100 while the count does not exceed the total, and never falls
   * when one more quest is completed.
   */
  lemma PercentageBounds(completed: nat, total: nat)
    ensures completed <= total ==> Percentage(completed, total) <= 100
    ensures total > 0 && completed == total ==> Percentage(completed, total) == 100
    ensures total > 0 && completed == 0 ==> Percentage(completed, total) == 0
    ensures total > 0 ==> Percentage(completed, total) <= Percentage(completed + 1, total)
  {
    if total > 0 {
      var t := 2 * total;
      var p := Percentage(completed, total);
      var q := Percentage(completed + 1, total);
      assert t * p <= 200 * completed + total;
      assert 200 * completed + total < t * (q + 1);
      MulCancel(t, p, q + 1);
      if completed <= total {
        assert t * p < t * 101;
        MulCancel(t, p, 101);
      }
      if completed == total {
        assert t * 100 < t * (p + 1);
        MulCancel(t, 100, p + 1);
      }
      if completed == 0 {
        assert t * p < t * 1;
        MulCancel(t, p, 1);
      }
    }
  }

  const Milestones: seq<nat> := [0, 25, 50, 75, 100]

  /** A step is reached once the percentage is at least its milestone. */
  predicate IsReached(p: nat, i: nat)
    requires i < |Milestones|
  {
    p >= Milestones[i]
  }

  /** Reached, and either the last step or the next milestone is not reached. */
  predicate IsCurrent(p: nat, i: nat)
    requires i < |Milestones|
  {
    p >= Milestones[i] && (i == |Milestones| - 1 || p < Milestones[i + 1])
  }

  /** The connector after a step: filled when the step and the next milestone are both reached. */
  predicate ConnectorFilled(p: nat, i: nat)
    requires i < |Milestones| - 1
  {
    IsReached(p, i) && p >= Milestones[i + 1]
  }

  /** The reached steps form a prefix, and the first step is always reached. */
  lemma ReachedIsPrefix(p: nat)
    ensures IsReached(p, 0)
    ensures forall i, j :: 0 <= i <= j < |Milestones| && IsReached(p, j) ==> IsReached(p, i)
  {
  }

  /** Exactly one step is current, and it is the last reached one. */
  lemma ExactlyOneCurrent(p: nat)
    ensures exists i :: 0 <= i < |Milestones| && IsCurrent(p, i)
    ensures forall i, j :: 0 <= i < |Milestones| && 0 <= j < |Milestones| && IsCurrent(p, i) && IsCurrent(p, j) ==> i == j
    ensures forall i :: 0 <= i < |Milestones| ==>
      (IsCurrent(p, i) <==> IsReached(p, i) && (i == |Milestones| - 1 || !IsReached(p, i + 1)))
  {
    assert Milestones[0] == 0 && Milestones[1] == 25 && Milestones[2] == 50 && Milestones[3] == 75 && Milestones[4] == 100;
    var k := if p >= 100 then 4 else if p >= 75 then 3 else if p >= 50 then 2 else if p >= 25 then 1 else 0;
    assert IsCurrent(p, k);
    forall i | 0 <= i < |Milestones|
      ensures IsCurrent(p, i) <==> IsReached(p, i) && (i == |Milestones| - 1 || !IsReached(p, i + 1))
    {
      if i < |Milestones| - 1 {
        assert IsReached(p, i + 1) <==> p >= Milestones[i + 1];
      }
    }
  }

  /** A connector is filled exactly when the next milestone is reached. */
  lemma ConnectorRule(p: nat)
    ensures forall i :: 0 <= i < |Milestones| - 1 ==> (ConnectorFilled(p, i) <==> IsReached(p, i + 1))
  {
  }

  /** What one step shows. */
  datatype Step = Step(reached: bool, current: bool, circle: string, caption: string, connector: Option<bool>)

  /** `✓` on a reached step, otherwise the milestone number. */
  function CircleText(p: nat, i: nat): string
    requires i < |Milestones|
  {
    if IsReached(p, i) then "✓" else NatToString(Milestones[i])
  }

  function StepAt(p: nat, i: nat): Step
    requires i < |Milestones|
  {
    Step(IsReached(p, i), IsCurrent(p, i), CircleText(p, i), NatToString(Milestones[i]) + "%",
         if i < |Milestones| - 1 then Some(ConnectorFilled(p, i)) else None)
  }

  /** `createProgressStepper(totalCompleted, totalQuests)`: one step per milestone. */
  function Stepper(completed: nat, total: nat): (steps: seq<Step>)
    ensures |steps| == |Milestones|
    ensures forall i :: 0 <= i < |steps| ==> steps[i] == StepAt(Percentage(completed, total), i)
  {
    var p := Percentage(completed, total);
    seq(|Milestones|, i requires 0 <= i < |Milestones| => StepAt(p, i))
  }

  /**
   * The steps as shown: a circle holds a check mark exactly when it is
   * reached and otherwise reads back as its milestone; only the last step
   * lacks a connector; one step is current.
   */
  lemma StepperShape(completed: nat, total: nat)
    ensures var steps := Stepper(completed, total);
      && (forall i :: 0 <= i < |steps| ==> (steps[i].circle == "✓" <==> steps[i].reached))
      && (forall i :: 0 <= i < |steps| && !steps[i].reached ==>
            (forall k :: 0 <= k < |steps[i].circle| ==> '0' <= steps[i].circle[k] <= '9')
            && DigitsValue(steps[i].circle) == Milestones[i])
      && (forall i :: 0 <= i < |steps| ==> (steps[i].connector.None? <==> i == |steps| - 1))
      && (exists i :: 0 <= i < |steps| && steps[i].current)
  {
    var p := Percentage(completed, total);
    var steps := Stepper(completed, total);
    forall i | 0 <= i < |steps| ensures (steps[i].circle == "✓" <==> steps[i].reached) {
      if !steps[i].reached {
        var t := NatToString(Milestones[i]);
        assert '0' <= t[0] <= '9';
      }
    }
    forall i | 0 <= i < |steps| && !steps[i].reached ensures DigitsValue(steps[i].circle) == Milestones[i] {
      NatToStringRoundTrip(Milestones[i]);
    }
    ExactlyOneCurrent(p);
    var k :| 0 <= k < |Milestones| && IsCurrent(p, k);
    assert steps[k].current;
  }

  /** `${totalCompleted} of ${totalQuests} nodes completed` */
  function InfoText(completed: nat, total: nat): string {
    NatToString(completed) + " of " + NatToString(total) + " nodes completed"
  }

  lemma InfoTextParts(completed: nat, total: nat)
    ensures InfoText(completed, total) == NatToString(completed) + [' '] + ("of " + NatToString(total) + " nodes completed")
    ensures ("of " + NatToString(total) + " nodes completed")[3..] == NatToString(total) + [' '] + "nodes completed"
  {
  }

  /** The info line names both counts unambiguously. */
  lemma InfoTextInjective(c1: nat, t1: nat, c2: nat, t2: nat)
    requires InfoText(c1, t1) == InfoText(c2, t2)
    ensures c1 == c2 && t1 == t2
  {
    var x := "of " + NatToString(t1) + " nodes completed";
    var y := "of " + NatToString(t2) + " nodes completed";
    InfoTextParts(c1, t1);
    InfoTextParts(c2, t2);
    DigitsExclude(c1, ' ');
    DigitsExclude(c2, ' ');
    SplitAtSeparator(NatToString(c1), x, NatToString(c2), y, ' ');
    NatToStringInjective(c1, c2);
    DigitsExclude(t1, ' ');
    DigitsExclude(t2, ' ');
    SplitAtSeparator(NatToString(t1), "nodes completed", NatToString(t2), "nodes completed", ' ');
    NatToStringInjective(t1, t2);
  }
}
