/** Querying a list of DNS servers under one deadline: each attempt gets an equal share of what is left.
    Time is in nanoseconds; no time passes between attempts. */
module Deadline {
  import opened Common

  /** How a server would behave: it answers or fails after `delay`. */
  datatype Server = Server(delay: nat, replies: bool)

  function Min(a: nat, b: nat): nat { if a <= b then a else b }

  /** attemptContext: the time granted when `remaining` servers, this one included, are left to try. */
  function Grant(left: nat, remaining: nat): (share: nat)
    requires remaining > 0
    ensures share <= left
  {
    if remaining <= 1 then left else left / remaining
  }

  /** The time left when it is the turn of server `i`, all before it having been tried in vain. */
  function LeftAt(servers: seq<Server>, total: nat, i: nat): (left: nat)
    requires i <= |servers|
  {
    if i == 0 then total else
    var before := LeftAt(servers, total, i - 1);
    before - Min(servers[i - 1].delay, Grant(before, |servers| - (i - 1)))
  }

  function ShareOf(servers: seq<Server>, total: nat, i: nat): nat
    requires i < |servers|
  {
    Grant(LeftAt(servers, total, i), |servers| - i)
  }

  /** An attempt ends with its answer or failure, or when its share is used up. */
  function UsedBy(servers: seq<Server>, total: nat, i: nat): nat
    requires i < |servers|
  {
    Min(servers[i].delay, ShareOf(servers, total, i))
  }

  predicate Answers(servers: seq<Server>, total: nat, i: nat)
    requires i < |servers|
  {
    servers[i].replies && servers[i].delay <= ShareOf(servers, total, i)
  }

  /** After attempt `i` the next server is tried: no answer, no cancellation, time left. */
  predicate GoesOn(servers: seq<Server>, total: nat, cancelled: seq<bool>, i: nat)
    requires i < |servers| == |cancelled|
  {
    !Answers(servers, total, i) && !cancelled[i] && LeftAt(servers, total, i + 1) > 0
  }

  /** What a query that tried `tried` servers comes to: every one but the last was passed over; the reply, if
      any, is the last one's; without a reply the list, the time or the check itself ended. */
  ghost predicate Queried(servers: seq<Server>, total: nat, cancelled: seq<bool>, reply: Option<nat>, tried: nat)
    requires |cancelled| == |servers|
  {
    && tried <= |servers| && (servers == [] <==> tried == 0)
    && (forall i | 0 <= i < tried - 1 :: GoesOn(servers, total, cancelled, i))
    && (reply.Some? ==> reply.value == tried - 1 && Answers(servers, total, tried - 1))
    && (reply == None && tried > 0 ==> !Answers(servers, total, tried - 1))
    && (reply == None && 0 < tried < |servers| ==> cancelled[tried - 1] || LeftAt(servers, total, tried) == 0)
  }

  /** `cancelled[i]` says whether the check is cancelled by the end of attempt `i`. The result is the server
      whose reply is returned, if any, and how many were tried. */
  method QueryServers(servers: seq<Server>, total: nat, cancelled: seq<bool>)
    returns (reply: Option<nat>, tried: nat, shares: seq<nat>)
    requires |cancelled| == |servers|
    ensures Queried(servers, total, cancelled, reply, tried)
    ensures |shares| == tried && forall i | 0 <= i < tried :: shares[i] == ShareOf(servers, total, i)
  {
    reply, tried, shares := None, 0, [];
    var left := total;
    for i := 0 to |servers|
      invariant tried == i == |shares| && left == LeftAt(servers, total, i)
      invariant forall j | 0 <= j < i :: shares[j] == ShareOf(servers, total, j)
      invariant forall j | 0 <= j < i :: GoesOn(servers, total, cancelled, j)
    {
      var share := Grant(left, |servers| - i);
      assert share == ShareOf(servers, total, i);
      shares, tried := shares + [share], i + 1;
      if servers[i].replies && servers[i].delay <= share { return Some(i), tried, shares; }
      left := left - Min(servers[i].delay, share);
      assert left == LeftAt(servers, total, i + 1);
      if left == 0 || cancelled[i] { return; }
    }
    assert tried > 0 ==> GoesOn(servers, total, cancelled, tried - 1);
  }

  // ---- fairness ----

  lemma ShareRises(left: nat, used: nat, k: nat)
    requires k >= 2 && used <= left / k
    ensures (left - used) / (k - 1) >= left / k
  {
    var q := left / k;
    assert q * k <= left;
    assert (k - 1) * q == k * q - q;
    assert left - used >= (k - 1) * q;
    DivAtLeast(left - used, k - 1, q);
  }

  lemma DivAtLeast(x: nat, d: nat, q: nat)
    requires d > 0 && x >= d * q
    ensures x / d >= q
  {
    if x / d < q {
      assert x < (x / d + 1) * d;
      MulOrder(x / d + 1, q, d);
    }
  }

  lemma MulOrder(a: nat, b: nat, d: nat)
    requires a <= b
    ensures a * d <= b * d
  {}

  /** The shares of successive servers never shrink. */
  lemma NextShareIsNoLess(servers: seq<Server>, total: nat, i: nat)
    requires i + 1 < |servers|
    ensures ShareOf(servers, total, i + 1) >= ShareOf(servers, total, i)
  {
    var k := |servers| - i;
    ShareRises(LeftAt(servers, total, i), UsedBy(servers, total, i), k);
    assert k - 1 == 1 ==> LeftAt(servers, total, i + 1) / (k - 1) == LeftAt(servers, total, i + 1);
  }

  /** Each server's share is at least the first one's, an n-th of the whole budget. */
  lemma {:induction false} FairShare(servers: seq<Server>, total: nat, i: nat)
    requires i < |servers|
    ensures ShareOf(servers, total, i) >= total / |servers|
  {
    if i > 0 {
      FairShare(servers, total, i - 1);
      NextShareIsNoLess(servers, total, i - 1);
    } else {
      assert |servers| == 1 ==> total / |servers| == total;
    }
  }

  lemma {:induction false} SharesRise(servers: seq<Server>, total: nat, i: nat, j: nat)
    requires i <= j < |servers|
    ensures ShareOf(servers, total, i) <= ShareOf(servers, total, j)
    decreases j
  {
    if i < j {
      SharesRise(servers, total, i, j - 1);
      NextShareIsNoLess(servers, total, j - 1);
    }
  }

  /** Shares rise over the whole list from at least an n-th of the budget, the last server gets all that is
      left, and what the attempts use never exceeds the budget. */
  lemma SharesAreFair(servers: seq<Server>, total: nat, i: nat, j: nat)
    requires i <= j < |servers|
    ensures total / |servers| <= ShareOf(servers, total, i) <= ShareOf(servers, total, j)
    ensures j == |servers| - 1 ==> ShareOf(servers, total, j) == LeftAt(servers, total, j)
    ensures LeftAt(servers, total, j + 1) + TotalUsed(servers, total, j + 1) == total
  {
    FairShare(servers, total, i);
    SharesRise(servers, total, i, j);
    Accounts(servers, total, j + 1);
  }

  function TotalUsed(servers: seq<Server>, total: nat, i: nat): nat
    requires i <= |servers|
  {
    if i == 0 then 0 else TotalUsed(servers, total, i - 1) + UsedBy(servers, total, i - 1)
  }

  lemma {:induction false} Accounts(servers: seq<Server>, total: nat, i: nat)
    requires i <= |servers|
    ensures LeftAt(servers, total, i) + TotalUsed(servers, total, i) == total
  {
    if i == 0 {
    } else {
      Accounts(servers, total, i - 1);
    }
  }

  lemma FirstAnswerWins(servers: seq<Server>, total: nat, cancelled: seq<bool>, reply: Option<nat>, tried: nat, m: nat)
    requires |cancelled| == |servers| && Queried(servers, total, cancelled, reply, tried)
    requires m < |servers| && Answers(servers, total, m)
    requires forall i | 0 <= i < |servers| :: !cancelled[i] && LeftAt(servers, total, i) > 0
    ensures reply.Some? && reply.value <= m
    ensures Answers(servers, total, reply.value) && forall i | 0 <= i < reply.value :: !Answers(servers, total, i)
  {
    forall i | 0 <= i < tried - 1 ensures !Answers(servers, total, i) { assert GoesOn(servers, total, cancelled, i); }
  }

  lemma AnswersInTime(servers: seq<Server>, total: nat, m: nat)
    requires m < |servers| && servers[m].replies && servers[m].delay <= total / |servers|
    ensures Answers(servers, total, m)
  {
    FairShare(servers, total, m);
  }

  lemma TimeIsLeft(servers: seq<Server>, total: nat, i: nat)
    requires i < |servers| && total / |servers| > 0
    ensures LeftAt(servers, total, i) > 0
  {
    FairShare(servers, total, i);
  }

  /** Silent servers cannot starve the others: if some server answers within an n-th of the budget and the
      check is not cancelled, the query returns the reply of the first server that answers in its share. */
  lemma SilentServersCannotStarve(servers: seq<Server>, total: nat, cancelled: seq<bool>,
                                  reply: Option<nat>, tried: nat, m: nat)
    requires |cancelled| == |servers| && Queried(servers, total, cancelled, reply, tried)
    requires m < |servers| && servers[m].replies && servers[m].delay <= total / |servers| && total / |servers| > 0
    requires forall i | 0 <= i < |cancelled| :: !cancelled[i]
    ensures reply.Some? && reply.value <= m
    ensures Answers(servers, total, reply.value) && forall i | 0 <= i < reply.value :: !Answers(servers, total, i)
  {
    AnswersInTime(servers, total, m);
    forall i | 0 <= i < |servers| ensures LeftAt(servers, total, i) > 0 { TimeIsLeft(servers, total, i); }
    FirstAnswerWins(servers, total, cancelled, reply, tried, m);
  }

  /** The share is the time left divided by the number of servers still to try, rounded down. */
  lemma ShareExactly(servers: seq<Server>, total: nat, i: nat)
    requires i < |servers|
    ensures ShareOf(servers, total, i) == LeftAt(servers, total, i) / (|servers| - i)
  {
    assert |servers| - i == 1 ==> LeftAt(servers, total, i) / 1 == LeftAt(servers, total, i);
  }
}
