/** A reference definition of an ordered, first-failure-wins validation:
    the checks are tried in the given order and the first one that does not
    pass is reported; later checks are never consulted. Both validators of the
    model are proved to agree with it. */
module OrderedChecks {
  import opened Outcomes

  /** True when every check in `order` passes. */
  ghost predicate AllPass<F>(order: seq<F>, passes: F -> bool)
  {
    forall i :: 0 <= i < |order| ==> passes(order[i])
  }

  /** True when `order[i]` fails and every check before it passes. */
  ghost predicate FirstToFail<F>(order: seq<F>, passes: F -> bool, i: int)
  {
    && 0 <= i < |order|
    && !passes(order[i])
    && forall j :: 0 <= j < i ==> passes(order[j])
  }

  /** The first check of `order` that fails, or None when all pass. */
  function FirstFailing<F>(order: seq<F>, passes: F -> bool): (r: Option<F>)
    ensures r.None? <==> AllPass(order, passes)
    ensures r.Some? ==> exists i :: FirstToFail(order, passes, i) && order[i] == r.value
    decreases |order|
  {
    if |order| == 0 then None
    else if !passes(order[0]) then
      assert FirstToFail(order, passes, 0);
      Some(order[0])
    else
      var rest := FirstFailing(order[1..], passes);
      PassingHeadShiftsVerdict(order, passes, rest);
      rest
  }

  /** When the first check passes, the verdict on the remaining checks is the
      verdict on the whole sequence, with indices shifted by one. */
  lemma PassingHeadShiftsVerdict<F>(order: seq<F>, passes: F -> bool, rest: Option<F>)
    requires |order| > 0 && passes(order[0])
    requires rest.None? <==> AllPass(order[1..], passes)
    requires rest.Some? ==> exists i :: FirstToFail(order[1..], passes, i) && order[1..][i] == rest.value
    ensures rest.None? <==> AllPass(order, passes)
    ensures rest.Some? ==> exists i :: FirstToFail(order, passes, i) && order[i] == rest.value
  {
    if rest.Some? {
      var i :| FirstToFail(order[1..], passes, i) && order[1..][i] == rest.value;
      assert FirstToFail(order, passes, i + 1);
    } else {
      assert forall i :: 1 <= i < |order| ==> order[i] == order[1..][i - 1];
    }
  }

  /** The outcome depends only on whether each check passes: two ways of
      judging that agree on every check yield the same outcome. */
  lemma FirstFailingDependsOnVerdicts<F>(order: seq<F>, p: F -> bool, q: F -> bool)
    requires forall i :: 0 <= i < |order| ==> p(order[i]) == q(order[i])
    ensures FirstFailing(order, p) == FirstFailing(order, q)
    decreases |order|
  {
  }

  /** When some check of `prefix` fails, the checks appended after it do not
      matter. */
  lemma {:induction false} FirstFailingStopsInPrefix<F>(prefix: seq<F>, suffix: seq<F>, p: F -> bool)
    requires exists i :: 0 <= i < |prefix| && !p(prefix[i])
    ensures FirstFailing(prefix + suffix, p) == FirstFailing(prefix, p)
    decreases |prefix|
  {
    if p(prefix[0]) {
      assert (prefix + suffix)[1..] == prefix[1..] + suffix;
      var i :| 0 <= i < |prefix| && !p(prefix[i]);
      assert !p(prefix[1..][i - 1]);
      FirstFailingStopsInPrefix(prefix[1..], suffix, p);
    }
  }
}
