/** Agreement between a lock variable and the tasks whose program counters say they hold the lock. */
module Holding {
  import opened Wrappers

  ghost predicate OwnerAgrees<T>(xs: seq<T>, owner: Option<nat>, p: T -> bool) {
    && (owner.Some? ==> owner.value < |xs|)
    && forall t :: 0 <= t < |xs| ==> (p(xs[t]) <==> owner == Some(t))
  }

  ghost predicate MembersAgree<T>(xs: seq<T>, members: set<nat>, p: T -> bool) {
    && (forall t :: t in members ==> t < |xs|)
    && forall t :: 0 <= t < |xs| ==> (p(xs[t]) <==> t in members)
  }

  lemma OwnerUpdate<T>(xs: seq<T>, owner: Option<nat>, p: T -> bool, t: nat, x: T)
    requires OwnerAgrees(xs, owner, p) && t < |xs|
    requires p(x) ==> owner.None? || owner == Some(t)
    ensures OwnerAgrees(xs[t := x], if p(x) then Some(t) else if p(xs[t]) then None else owner, p)
  {
    assert p(xs[t]) <==> owner == Some(t);
  }

  lemma MembersUpdate<T>(xs: seq<T>, members: set<nat>, p: T -> bool, t: nat, x: T)
    requires MembersAgree(xs, members, p) && t < |xs|
    ensures MembersAgree(xs[t := x], if p(x) then members + {t} else members - {t}, p)
  {
  }

  lemma OwnerAppend<T>(xs: seq<T>, owner: Option<nat>, p: T -> bool, x: T)
    requires OwnerAgrees(xs, owner, p) && !p(x)
    ensures OwnerAgrees(xs + [x], owner, p)
  {
  }

  lemma MembersAppend<T>(xs: seq<T>, members: set<nat>, p: T -> bool, x: T)
    requires MembersAgree(xs, members, p) && !p(x)
    ensures MembersAgree(xs + [x], members, p)
  {
  }
}
