/** "First failing check wins": the shape of the registration screens'
    `if ... else if ...` validation chains. */
module Chain {
  import opened Wrappers

  /** The first check of `order` that fails, if any. */
  function FirstFailing<C>(order: seq<C>, fails: C -> bool): Option<C> {
    if order == [] then None
    else if fails(order[0]) then Some(order[0])
    else FirstFailing(order[1..], fails)
  }

  /** No check fails exactly when the result is None; otherwise the result is
      a failing check and every check before it in the order passes. */
  lemma {:induction false} FirstFailingSpec<C>(order: seq<C>, fails: C -> bool)
    ensures FirstFailing(order, fails).None? <==> forall i :: 0 <= i < |order| ==> !fails(order[i])
    ensures FirstFailing(order, fails).Some? ==>
      exists k :: 0 <= k < |order| && order[k] == FirstFailing(order, fails).value && fails(order[k])
        && forall j :: 0 <= j < k ==> !fails(order[j])
  {
    if order != [] && !fails(order[0]) {
      FirstFailingSpec(order[1..], fails);
      var r := FirstFailing(order[1..], fails);
      if r.Some? {
        var k :| 0 <= k < |order[1..]| && order[1..][k] == r.value && fails(order[1..][k])
          && forall j :: 0 <= j < k ==> !fails(order[1..][j]);
        assert order[k + 1] == r.value;
        assert forall j :: 0 <= j < k + 1 ==> !fails(order[j]) by {
          forall j | 0 <= j < k + 1 ensures !fails(order[j]) {
            if j > 0 { assert order[j] == order[1..][j - 1]; }
          }
        }
      }
      assert (forall i :: 0 <= i < |order| ==> !fails(order[i])) <==>
        (forall i :: 0 <= i < |order[1..]| ==> !fails(order[1..][i])) by {
        forall i | 0 < i < |order| ensures order[i] == order[1..][i - 1] { }
      }
    }
  }
}
