/**
 * The summary header (`src/components/ProgressSummary.js`): a friendly line
 * naming how many acts of kindness were logged, followed by the overall
 * percentage of the tree.
 */
module ProgressSummary {
  import opened Js
  import ProgressStepper

  const Ready: string := "This is here when you\U{2019}re ready."
  const Logged: string := "You\U{2019}ve logged "

  /** `formatCopy(totalCompleted)` */
  function FormatCopy(completed: nat): string {
    if completed == 0 then Ready
    else if completed == 1 then Logged + "1 act of kindness."
    else Logged + NatToString(completed) + " acts of kindness."
  }

  /** The noun after the count: singular for one act, plural otherwise. */
  function Noun(completed: nat): string {
    if completed == 1 then "act of kindness." else "acts of kindness."
  }

  /**
   * Any positive count is logged by its own decimal text: the singular
   * copy's literal `1` is exactly how `1` prints.
   */
  lemma CopyNamesCount(completed: nat)
    requires completed >= 1
    ensures FormatCopy(completed) == Logged + (NatToString(completed) + [' '] + Noun(completed))
  {
    var n := NatToString(completed);
    if completed == 1 {
      assert n == "1";
      assert "1 act of kindness." == n + [' '] + Noun(completed);
      ConcatAssoc(Logged, n + [' '], Noun(completed));
    } else {
      assert " acts of kindness." == [' '] + Noun(completed);
      ConcatAssoc(Logged, n, [' '] + Noun(completed));
      ConcatAssoc(n, [' '], Noun(completed));
    }
  }

  /** Only the zero count gets the "when you're ready" copy. */
  lemma ReadyOnlyForZero(completed: nat)
    ensures FormatCopy(completed) == Ready <==> completed == 0
    ensures FormatCopy(completed)[0] == (if completed == 0 then 'T' else 'Y')
  {
    if completed >= 1 {
      CopyNamesCount(completed);
      assert FormatCopy(completed)[0] == Logged[0];
    }
  }

  /** Different counts get different copy. */
  lemma FormatCopyInjective(a: nat, b: nat)
    requires FormatCopy(a) == FormatCopy(b)
    ensures a == b
  {
    ReadyOnlyForZero(a);
    ReadyOnlyForZero(b);
    if a >= 1 && b >= 1 {
      CopyNamesCount(a);
      CopyNamesCount(b);
      var x := NatToString(a) + [' '] + Noun(a);
      var y := NatToString(b) + [' '] + Noun(b);
      assert x == FormatCopy(a)[|Logged|..];
      assert y == FormatCopy(b)[|Logged|..];
      DigitsExclude(a, ' ');
      DigitsExclude(b, ' ');
      SplitAtSeparator(NatToString(a), Noun(a), NatToString(b), Noun(b), ' ');
      NatToStringInjective(a, b);
    }
  }

  /** `${formatCopy(totalCompleted)} (${percentage}% of your tree so far.)` */
  function SummaryLine(completed: nat, total: nat): string {
    FormatCopy(completed) + " (" + NatToString(ProgressStepper.Percentage(completed, total)) + "% of your tree so far.)"
  }

  /** No copy holds an opening parenthesis. */
  lemma CopyHasNoParen(completed: nat)
    ensures '(' !in FormatCopy(completed) + " "
  {
    DigitsExclude(completed, '(');
    assert '(' !in Ready && '(' !in Logged && '(' !in Noun(completed);
    if completed >= 1 {
      CopyNamesCount(completed);
    }
  }

  lemma SummaryLineParts(completed: nat, total: nat)
    ensures SummaryLine(completed, total)
      == (FormatCopy(completed) + " ") + ['('] + (NatToString(ProgressStepper.Percentage(completed, total)) + ['%'] + " of your tree so far.)")
  {
    var c := FormatCopy(completed);
    var n := NatToString(ProgressStepper.Percentage(completed, total));
    var tail := " of your tree so far.)";
    assert " (" == " " + ['('];
    assert "% of your tree so far.)" == ['%'] + tail;
    ConcatAssoc(c, " ", ['(']);
    ConcatAssoc(c + " (", n, ['%'] + tail);
    ConcatAssoc(c + " " + ['('], n + ['%'], tail);
    ConcatAssoc(n, ['%'], tail);
  }

  /**
   * The summary line reads back: two lines agree only when they log the same
   * count and show the same percentage.
   */
  lemma SummaryLineReadsBack(c1: nat, t1: nat, c2: nat, t2: nat)
    requires SummaryLine(c1, t1) == SummaryLine(c2, t2)
    ensures c1 == c2
    ensures ProgressStepper.Percentage(c1, t1) == ProgressStepper.Percentage(c2, t2)
  {
    var p1 := ProgressStepper.Percentage(c1, t1);
    var p2 := ProgressStepper.Percentage(c2, t2);
    SummaryLineParts(c1, t1);
    SummaryLineParts(c2, t2);
    CopyHasNoParen(c1);
    CopyHasNoParen(c2);
    var tail := " of your tree so far.)";
    SplitAtSeparator(FormatCopy(c1) + " ", NatToString(p1) + ['%'] + tail, FormatCopy(c2) + " ", NatToString(p2) + ['%'] + tail, '(');
    assert FormatCopy(c1) == (FormatCopy(c1) + " ")[..|FormatCopy(c1) + " "| - 1];
    assert FormatCopy(c2) == (FormatCopy(c2) + " ")[..|FormatCopy(c2) + " "| - 1];
    FormatCopyInjective(c1, c2);
    DigitsExclude(p1, '%');
    DigitsExclude(p2, '%');
    SplitAtSeparator(NatToString(p1), tail, NatToString(p2), tail, '%');
    NatToStringInjective(p1, p2);
  }
}
