/** The top-issue list: up to five headline problems, in a fixed order of
    priority, each present only when its condition holds. */
module Ranking {
  import opened Store
  import opened Seqs
  import opened Text
  import opened Signals
  import opened Checkouts

  /** One entry of `topIssues`; each constructor carries the numbers its
      message is built from. */
  datatype TopIssue =
    | CheckoutAbandonment(rateTenths: nat, potentialRevenue: int)
    | LoggedInCarts(count: nat)
    | MissingImages(count: nat)
    | MissingDescriptions(count: nat)
    | MissingPolicies(names: seq<string>)

  /** The position of each kind of entry in the fixed order. */
  function Priority(t: TopIssue): nat {
    match t
    case CheckoutAbandonment(_, _) => 0
    case LoggedInCarts(_) => 1
    case MissingImages(_) => 2
    case MissingDescriptions(_) => 3
    case MissingPolicies(_) => 4
  }

  /** What the ranker reads back from the scan result. */
  datatype RankInputs = RankInputs(
    abandonmentRate: Option<nat>,
    potentialRevenue: int,
    recentCarts: seq<CartSummary>,
    withoutImages: nat,
    withoutDescriptions: nat,
    trust: seq<Signal>)

  /** `"Missing " + names.join(" & ") + " policies"`. */
  function PoliciesMessage(names: seq<string>): string {
    "Missing " + Join(names, " & ") + " policies"
  }

  /** One name gives "Missing <name> policies", two give
      "Missing <first> & <second> policies". */
  lemma PoliciesMessageNames(names: seq<string>)
    requires 1 <= |names| <= 2
    ensures |names| == 1 ==> PoliciesMessage(names) == "Missing " + names[0] + " policies"
    ensures |names| == 2 ==> PoliciesMessage(names) == "Missing " + names[0] + " & " + names[1] + " policies"
  {
    if |names| == 2 {
      assert Join(names, " & ") == names[0] + " & " + Join(names[1..], " & ");
      assert Join(names[1..], " & ") == names[1];
    }
  }

  function ShortName(s: Signal): string {
    RemoveFirst(s.issue, " policy")
  }

  /** The missing high-severity trust records, `" policy"` removed from
      their names, at most two of them. */
  function MissingPolicyNames(trust: seq<Signal>): (names: seq<string>)
    ensures |names| == Min(2, MissingHigh(trust))
    ensures forall i :: 0 <= i < |names| ==>
      i < |Filter(trust, MissingHighIn())| && names[i] == ShortName(Filter(trust, MissingHighIn())[i])
  {
    var missing := Filter(trust, MissingHighIn());
    FilterLength(trust, MissingHighIn());
    seq(Min(2, |missing|), i requires 0 <= i < Min(2, |missing|) => ShortName(missing[i]))
  }

  /** Each name comes from a record that is missing and of high severity. */
  lemma MissingPolicyNamesAreMissing(trust: seq<Signal>, i: nat)
    requires i < |MissingPolicyNames(trust)|
    ensures exists j :: (0 <= j < |trust| && !trust[j].found && trust[j].severity == High
      && MissingPolicyNames(trust)[i] == ShortName(trust[j]))
  {
    var missing := Filter(trust, MissingHighIn());
    FilterLength(trust, MissingHighIn());
    var s := missing[i];
    FilterMembers(trust, MissingHighIn());
    assert s in trust && MissingHighIn()(s);
    var j :| 0 <= j < |trust| && trust[j] == s;
  }

  /** The condition under which the entry of priority `p` is pushed. */
  predicate Applies(inp: RankInputs, p: nat) {
    if p == 0 then RateValue(inp.abandonmentRate) > 300
    else if p == 1 then LoggedInCount(inp.recentCarts) > 0
    else if p == 2 then inp.withoutImages > 0
    else if p == 3 then inp.withoutDescriptions > 0
    else if p == 4 then MissingHigh(inp.trust) > 0
    else false
  }

  /** The entry carries the numbers of the scan result it reports. */
  predicate Faithful(inp: RankInputs, t: TopIssue) {
    match t
    case CheckoutAbandonment(r, pr) => r == RateValue(inp.abandonmentRate) && pr == inp.potentialRevenue
    case LoggedInCarts(n) => n == LoggedInCount(inp.recentCarts)
    case MissingImages(n) => n == inp.withoutImages
    case MissingDescriptions(n) => n == inp.withoutDescriptions
    case MissingPolicies(names) => names == MissingPolicyNames(inp.trust) && 1 <= |names| <= 2
  }

  /** After the pushes for priorities below `k`: entries in strictly
      increasing priority, each faithful, one exactly for each condition
      that holds. */
  predicate Ranked(inp: RankInputs, top: seq<TopIssue>, k: nat) {
    && |top| <= k
    && (forall i, j :: 0 <= i < j < |top| ==> Priority(top[i]) < Priority(top[j]))
    && (forall i :: 0 <= i < |top| ==> Priority(top[i]) < k && Faithful(inp, top[i]))
    && (forall p :: 0 <= p < k ==> (Applies(inp, p) <==> exists i :: 0 <= i < |top| && Priority(top[i]) == p))
  }

  /** One conditional `push` keeps the ranking. */
  lemma PushKeepsRanked(inp: RankInputs, top: seq<TopIssue>, k: nat, entry: TopIssue)
    requires Ranked(inp, top, k)
    requires Priority(entry) == k && (Applies(inp, k) ==> Faithful(inp, entry))
    ensures Ranked(inp, if Applies(inp, k) then top + [entry] else top, k + 1)
  {
    var next := if Applies(inp, k) then top + [entry] else top;
    forall p | 0 <= p < k + 1
      ensures Applies(inp, p) <==> exists i :: 0 <= i < |next| && Priority(next[i]) == p
    {
      if p < k {
        if Applies(inp, p) {
          var i :| 0 <= i < |top| && Priority(top[i]) == p;
          assert next[i] == top[i];
        }
        if exists i :: 0 <= i < |next| && Priority(next[i]) == p {
          var i :| 0 <= i < |next| && Priority(next[i]) == p;
          assert i < |top| && next[i] == top[i];
        }
      } else if Applies(inp, k) {
        assert Priority(next[|top|]) == k;
      }
    }
  }

  /** `if (condition) topIssues.push(entry)` for the entry of priority `k`. */
  method PushWhen(inp: RankInputs, top: seq<TopIssue>, k: nat, condition: bool, entry: TopIssue)
    returns (next: seq<TopIssue>)
    requires Ranked(inp, top, k)
    requires condition == Applies(inp, k)
    requires Priority(entry) == k && (condition ==> Faithful(inp, entry))
    ensures Ranked(inp, next, k + 1)
  {
    PushKeepsRanked(inp, top, k, entry);
    next := top;
    if condition {
      next := next + [entry];
    }
  }

  /** The five conditional `push`es, then `slice(0, 5)`, which never cuts
      anything as there are at most five pushes. */
  method RankTopIssues(inp: RankInputs) returns (top: seq<TopIssue>)
    ensures Ranked(inp, top, 5)
  {
    top := [];
    var rate := RateValue(inp.abandonmentRate);
    top := PushWhen(inp, top, 0, rate > 300, CheckoutAbandonment(rate, inp.potentialRevenue));
    var loggedIn := LoggedInCount(inp.recentCarts);
    top := PushWhen(inp, top, 1, loggedIn > 0, LoggedInCarts(loggedIn));
    top := PushWhen(inp, top, 2, inp.withoutImages > 0, MissingImages(inp.withoutImages));
    top := PushWhen(inp, top, 3, inp.withoutDescriptions > 0, MissingDescriptions(inp.withoutDescriptions));
    var missingPolicies := MissingPolicyNames(inp.trust);
    top := PushWhen(inp, top, 4, |missingPolicies| > 0, MissingPolicies(missingPolicies));
    assert top[..Min(5, |top|)] == top;
    top := top[..Min(5, |top|)];
  }

  /** What a finished ranking says: at most five entries, in the fixed
      order, each faithful to the scan result, and each kind present
      exactly when its condition holds. */
  lemma RankedMeaning(inp: RankInputs, top: seq<TopIssue>)
    requires Ranked(inp, top, 5)
    ensures |top| <= 5
    ensures forall i, j :: 0 <= i < j < |top| ==> Priority(top[i]) < Priority(top[j])
    ensures forall i :: 0 <= i < |top| ==> Faithful(inp, top[i])
    ensures (exists i :: 0 <= i < |top| && top[i].CheckoutAbandonment?) <==> RateValue(inp.abandonmentRate) > 300
    ensures (exists i :: 0 <= i < |top| && top[i].LoggedInCarts?) <==> LoggedInCount(inp.recentCarts) > 0
    ensures (exists i :: 0 <= i < |top| && top[i].MissingImages?) <==> inp.withoutImages > 0
    ensures (exists i :: 0 <= i < |top| && top[i].MissingDescriptions?) <==> inp.withoutDescriptions > 0
    ensures (exists i :: 0 <= i < |top| && top[i].MissingPolicies?) <==> MissingHigh(inp.trust) > 0
  {
    assert Applies(inp, 0) == (RateValue(inp.abandonmentRate) > 300);
    assert Applies(inp, 1) == (LoggedInCount(inp.recentCarts) > 0);
    assert Applies(inp, 2) == (inp.withoutImages > 0);
    assert Applies(inp, 3) == (inp.withoutDescriptions > 0);
    assert Applies(inp, 4) == (MissingHigh(inp.trust) > 0);
    assert forall i :: 0 <= i < |top| ==> (top[i].CheckoutAbandonment? <==> Priority(top[i]) == 0);
    assert forall i :: 0 <= i < |top| ==> (top[i].LoggedInCarts? <==> Priority(top[i]) == 1);
    assert forall i :: 0 <= i < |top| ==> (top[i].MissingImages? <==> Priority(top[i]) == 2);
    assert forall i :: 0 <= i < |top| ==> (top[i].MissingDescriptions? <==> Priority(top[i]) == 3);
    assert forall i :: 0 <= i < |top| ==> (top[i].MissingPolicies? <==> Priority(top[i]) == 4);
  }
}
