/** Pre-dispatch screening: `policy_evaluator.go`.

    The three functions of the source are methods with the source's loops. Each is proved
    against a specification without loops or order: `ContainsWordRun` for the sliding window,
    `Hit` for the pattern list and `Strictest` for the pass over all policies. */
module PolicyEvaluator {
  import opened Glob
  import opened Wrappers

  /** A rule type outside the two the API knows never decides anything. */
  datatype RuleType = DenyRule | ApprovalRule | OtherRule

  datatype Rule = Rule(name: string, kind: RuleType, commandPatterns: seq<string>, message: string)

  datatype Policy = Policy(name: string, active: bool, agentRef: string, rules: seq<Rule>)

  datatype Decision = Allow | NeedsApproval | Denied {
    function Rank(): nat { if Allow? then 0 else if NeedsApproval? then 1 else 2 }
  }

  datatype EvalResult = EvalResult(decision: Decision, ruleName: string, policyName: string, message: string)

  /** What is screened. `lower` is the per-character map behind the library's lower-casing. */
  datatype Request = Request(lower: char -> char, agentRef: string, message: string)

  function ToLower(lower: char -> char, s: string): (t: string)
    ensures |t| == |s| && forall k :: 0 <= k < |s| ==> t[k] == lower(s[k])
  {
    seq(|s|, k requires 0 <= k < |s| => lower(s[k]))
  }

  // ---- containsPattern ----

  ghost predicate RunAt(ps: seq<string>, ws: seq<string>, i: int) {
    0 <= i <= |ws| - |ps| && WordsMatch(ps, ws[i..i + |ps|])
  }

  /** The pattern is words with single spaces between them, and some run of consecutive words of
      the message matches them one by one. */
  ghost predicate ContainsWordRun(message: string, pattern: string) {
    var ps := Fields(pattern);
    ps != [] && pattern == Join(ps) && exists i :: RunAt(ps, Fields(message), i)
  }

  method ContainsPattern(message: string, pattern: string) returns (found: bool)
    ensures found <==> ContainsWordRun(message, pattern)
  {
    var words := Fields(message);
    var patWords := Fields(pattern);
    if |patWords| == 0 || |words| < |patWords| {
      return false;
    }
    for i := 0 to |words| - |patWords| + 1
      invariant pattern == Join(patWords) ==> forall k :: 0 <= k < i ==> !RunAt(patWords, words, k)
    {
      var window := words[i..i + |patWords|];
      WindowMatchIsWordMatch(pattern, window);
      if Match(pattern, Join(window)) {
        assert RunAt(patWords, words, i);
        return true;
      }
    }
    return false;
  }

  /** How the message is spaced never matters to the window test: any gap between two parts may be
      replaced by any other white space, and at the ends of the message also by none. */
  lemma {:induction false} RespacingKeepsAnswer(a: string, gap: string, other: string, b: string, pattern: string)
    requires AllSpace(gap) && AllSpace(other)
    requires (gap != "" && other != "") || a == "" || b == ""
    ensures ContainsWordRun(a + gap + b, pattern) <==> ContainsWordRun(a + other + b, pattern)
  {
    FieldsAcrossGap(a, gap, b);
    FieldsAcrossGap(a, other, b);
  }

  /** Text added before or after, set off by white space, never loses a match. */
  lemma {:induction false} SurroundingTextKeepsMatch(
      before: string, c: char, message: string, d: char, after: string, pattern: string)
    requires IsSpace(c) && IsSpace(d)
    requires ContainsWordRun(message, pattern)
    ensures ContainsWordRun(before + [c] + message + [d] + after, pattern)
  {
    FieldsAcrossSpace(before + [c] + message, d, after);
    FieldsAcrossSpace(before, c, message);
    var i :| RunAt(Fields(pattern), Fields(message), i);
    RunSurvivesPadding(Fields(pattern), Fields(before), Fields(message), Fields(after), i);
  }

  lemma {:induction false} RunSurvivesPadding(
      ps: seq<string>, before: seq<string>, ws: seq<string>, after: seq<string>, i: int)
    requires RunAt(ps, ws, i)
    ensures RunAt(ps, before + ws + after, |before| + i)
  {
    assert (before + ws + after)[|before| + i..|before| + i + |ps|] == ws[i..i + |ps|];
  }

  // ---- matchesPatterns ----

  /** One pattern against one message, both in lower case. */
  ghost predicate TextHit(message: string, pattern: string) {
    Spelled(pattern, message) || ContainsWordRun(message, pattern)
  }

  ghost predicate Hit(lower: char -> char, message: string, patterns: seq<string>) {
    exists pattern :: pattern in patterns && TextHit(ToLower(lower, message), ToLower(lower, pattern))
  }

  method MatchesPatterns(lower: char -> char, message: string, patterns: seq<string>) returns (matched: bool)
    ensures matched <==> Hit(lower, message, patterns)
  {
    var low := ToLower(lower, message);
    for k := 0 to |patterns|
      invariant forall j :: 0 <= j < k ==> !TextHit(low, ToLower(lower, patterns[j]))
    {
      var pattern := ToLower(lower, patterns[k]);
      MatchIsSpelling(pattern, low);
      if Match(pattern, low) {
        assert patterns[k] in patterns;
        return true;
      }
      var contained := ContainsPattern(low, pattern);
      if contained {
        assert patterns[k] in patterns;
        return true;
      }
    }
    return false;
  }

  // ---- EvaluatePolicies ----

  predicate Applies(req: Request, policy: Policy) {
    policy.active && (policy.agentRef == "" || policy.agentRef == req.agentRef)
  }

  ghost predicate Fires(req: Request, policy: Policy, rule: Rule) {
    rule in policy.rules && Applies(req, policy) && Hit(req.lower, req.message, rule.commandPatterns)
  }

  ghost predicate SomeFires(req: Request, policies: seq<Policy>, kind: RuleType) {
    exists policy, rule :: policy in policies && Fires(req, policy, rule) && rule.kind == kind
  }

  /** The specification: no order, no first, no early return. */
  ghost function Strictest(req: Request, policies: seq<Policy>): Decision {
    if SomeFires(req, policies, DenyRule) then Denied
    else if SomeFires(req, policies, ApprovalRule) then NeedsApproval
    else Allow
  }

  /** In the terms of the policies: a rule of this kind, in an active policy for this agent or for all
      agents, matches the message. */
  ghost predicate SomeRuleMatches(
      lower: char -> char, agentRef: string, message: string, policies: seq<Policy>, kind: RuleType)
  {
    exists policy, rule ::
      && policy in policies && policy.active && (policy.agentRef == "" || policy.agentRef == agentRef)
      && rule in policy.rules && rule.kind == kind && Hit(lower, message, rule.commandPatterns)
  }

  lemma {:induction false} FiringIsMatching(req: Request, policies: seq<Policy>, kind: RuleType)
    ensures SomeFires(req, policies, kind) <==> SomeRuleMatches(req.lower, req.agentRef, req.message, policies, kind)
  {
    if policy, rule :| policy in policies && Fires(req, policy, rule) && rule.kind == kind {
      assert policy in policies && rule in policy.rules;
    }
    if policy, rule :|
      && policy in policies && policy.active && (policy.agentRef == "" || policy.agentRef == req.agentRef)
      && rule in policy.rules && rule.kind == kind && Hit(req.lower, req.message, rule.commandPatterns)
    {
      assert Fires(req, policy, rule);
    }
  }

  ghost predicate Judges(req: Request, policies: seq<Policy>, decision: Decision) {
    var denied := SomeRuleMatches(req.lower, req.agentRef, req.message, policies, DenyRule);
    && (decision.Denied? <==> denied)
    && (decision.NeedsApproval? <==>
          !denied && SomeRuleMatches(req.lower, req.agentRef, req.message, policies, ApprovalRule))
  }

  lemma {:induction false} StrictestJudges(req: Request, policies: seq<Policy>)
    ensures Judges(req, policies, Strictest(req, policies))
  {
    FiringIsMatching(req, policies, DenyRule);
    FiringIsMatching(req, policies, ApprovalRule);
  }

  ghost predicate FiresAt(req: Request, policies: seq<Policy>, kind: RuleType, i: int, j: int) {
    && 0 <= i < |policies| && 0 <= j < |policies[i].rules|
    && Fires(req, policies[i], policies[i].rules[j]) && policies[i].rules[j].kind == kind
  }

  /** No rule of this kind fires before position (i, j) in reading order. */
  ghost predicate NoneBefore(req: Request, policies: seq<Policy>, kind: RuleType, i: int, j: int) {
    forall i', j' :: (i' < i || (i' == i && j' < j)) ==> !FiresAt(req, policies, kind, i', j')
  }

  ghost predicate FirstAt(req: Request, policies: seq<Policy>, kind: RuleType, i: int, j: int) {
    FiresAt(req, policies, kind, i, j) && NoneBefore(req, policies, kind, i, j)
  }

  function Report(decision: Decision, policy: Policy, rule: Rule): EvalResult {
    EvalResult(decision, rule.name, policy.name, rule.message)
  }

  /** What is known when all rules before position (i, j) have been looked at: no deny rule fired,
      and `approval` reports the first approval rule that did, at (ai, aj). */
  ghost predicate Scanned(
      req: Request, policies: seq<Policy>, i: int, j: int, approval: Option<EvalResult>, ai: int, aj: int)
  {
    && NoneBefore(req, policies, DenyRule, i, j)
    && if approval.None? then NoneBefore(req, policies, ApprovalRule, i, j)
       else FirstAt(req, policies, ApprovalRule, ai, aj)
            && approval.value == Report(NeedsApproval, policies[ai], policies[ai].rules[aj])
  }

  lemma {:induction false} PolicySkipped(
      req: Request, policies: seq<Policy>, i: nat, approval: Option<EvalResult>, ai: int, aj: int)
    requires i < |policies| && Scanned(req, policies, i, 0, approval, ai, aj) && !Applies(req, policies[i])
    ensures Scanned(req, policies, i + 1, 0, approval, ai, aj)
  {
  }

  lemma {:induction false} PolicyDone(
      req: Request, policies: seq<Policy>, i: nat, approval: Option<EvalResult>, ai: int, aj: int)
    requires i < |policies| && Scanned(req, policies, i, |policies[i].rules|, approval, ai, aj)
    ensures Scanned(req, policies, i + 1, 0, approval, ai, aj)
  {
  }

  /** A rule that is no deny rule, or does not fire; the report changes only at the first approval
      rule that fires. */
  lemma {:induction false} RulePassed(
      req: Request, policies: seq<Policy>, i: nat, j: nat, approval: Option<EvalResult>, ai: int, aj: int)
    requires i < |policies| && j < |policies[i].rules| && Scanned(req, policies, i, j, approval, ai, aj)
    requires !FiresAt(req, policies, DenyRule, i, j)
    ensures if FiresAt(req, policies, ApprovalRule, i, j) && approval.None?
            then Scanned(req, policies, i, j + 1, Some(Report(NeedsApproval, policies[i], policies[i].rules[j])), i, j)
            else Scanned(req, policies, i, j + 1, approval, ai, aj)
  {
  }

  /** `listing` is what the API answered: `None` when the list call failed.
      The decision is the strictest one, and the report names the first rule of the winning type. */
  method EvaluatePolicies(listing: Option<seq<Policy>>, req: Request) returns (result: Option<EvalResult>)
    ensures result.None? <==> listing.None?
    ensures listing.Some? ==> Judges(req, listing.value, result.value.decision)
    ensures listing.Some? ==> result.value.decision == Strictest(req, listing.value)
    ensures listing.Some? && result.value.decision.Denied? ==>
              exists i, j :: FirstAt(req, listing.value, DenyRule, i, j)
                          && result.value.ruleName == listing.value[i].rules[j].name
                          && result.value.policyName == listing.value[i].name
                          && result.value.message == listing.value[i].rules[j].message
    ensures listing.Some? && result.value.decision.NeedsApproval? ==>
              exists i, j :: FirstAt(req, listing.value, ApprovalRule, i, j)
                          && result.value.ruleName == listing.value[i].rules[j].name
                          && result.value.policyName == listing.value[i].name
                          && result.value.message == listing.value[i].rules[j].message
    ensures listing.Some? && result.value.decision.Allow? ==> result.value == EvalResult(Allow, "", "", "")
  {
    if listing.None? {
      return None;
    }
    var policies := listing.value;
    StrictestJudges(req, policies);
    var approvalResult: Option<EvalResult> := None;
    ghost var ai, aj := 0, 0;
    for i := 0 to |policies|
      invariant Scanned(req, policies, i, 0, approvalResult, ai, aj)
    {
      var policy := policies[i];
      if !policy.active {
        PolicySkipped(req, policies, i, approvalResult, ai, aj);
        continue;
      }
      if policy.agentRef != "" && policy.agentRef != req.agentRef {
        PolicySkipped(req, policies, i, approvalResult, ai, aj);
        continue;
      }
      for j := 0 to |policy.rules|
        invariant Scanned(req, policies, i, j, approvalResult, ai, aj)
      {
        var rule := policy.rules[j];
        var matched := MatchesPatterns(req.lower, req.message, rule.commandPatterns);
        assert Fires(req, policy, rule) <==> matched;
        if matched && rule.kind.DenyRule? {
          assert FirstAt(req, policies, DenyRule, i, j);
          FiringIsSomeFiring(req, policies, DenyRule, i, j);
          return Some(Report(Denied, policy, rule));
        }
        RulePassed(req, policies, i, j, approvalResult, ai, aj);
        if !matched {
          continue;
        }
        if rule.kind.ApprovalRule? && approvalResult.None? {
          approvalResult := Some(Report(NeedsApproval, policy, rule));
          ai, aj := i, j;
        }
      }
      PolicyDone(req, policies, i, approvalResult, ai, aj);
    }
    NoneFiring(req, policies, DenyRule);
    if approvalResult.Some? {
      FiringIsSomeFiring(req, policies, ApprovalRule, ai, aj);
      return approvalResult;
    }
    NoneFiring(req, policies, ApprovalRule);
    return Some(EvalResult(Allow, "", "", ""));
  }

  lemma {:induction false} FiringIsSomeFiring(req: Request, policies: seq<Policy>, kind: RuleType, i: int, j: int)
    requires FiresAt(req, policies, kind, i, j)
    ensures SomeFires(req, policies, kind)
  {
    assert policies[i] in policies;
  }

  lemma {:induction false} NoneFiring(req: Request, policies: seq<Policy>, kind: RuleType)
    requires NoneBefore(req, policies, kind, |policies|, 0)
    ensures !SomeFires(req, policies, kind)
  {
    if policy, rule :| policy in policies && Fires(req, policy, rule) && rule.kind == kind {
      var i :| 0 <= i < |policies| && policies[i] == policy;
      var j :| 0 <= j < |policy.rules| && policy.rules[j] == rule;
      assert FiresAt(req, policies, kind, i, j);
    }
  }

  // ---- What the decision does not depend on ----

  function Stricter(a: Decision, b: Decision): Decision { if a.Rank() >= b.Rank() then a else b }

  /** Evaluating two lists of policies one after the other gives the stricter of the two verdicts. */
  lemma {:induction false} DecisionOfConcatenation(req: Request, a: seq<Policy>, b: seq<Policy>)
    ensures Strictest(req, a + b) == Stricter(Strictest(req, a), Strictest(req, b))
  {
    forall kind ensures SomeFires(req, a + b, kind) <==> SomeFires(req, a, kind) || SomeFires(req, b, kind) {
      if policy, rule :| policy in a + b && Fires(req, policy, rule) && rule.kind == kind {
        assert policy in a || policy in b;
      }
      if policy, rule :| policy in a && Fires(req, policy, rule) && rule.kind == kind {
        assert policy in a + b;
      }
      if policy, rule :| policy in b && Fires(req, policy, rule) && rule.kind == kind {
        assert policy in a + b;
      }
    }
  }

  /** A policy inserted anywhere never weakens the decision. */
  lemma {:induction false} AddedPolicyNeverWeakens(req: Request, policies: seq<Policy>, at: nat, extra: Policy)
    requires at <= |policies|
    ensures Strictest(req, policies[..at] + [extra] + policies[at..]).Rank() >= Strictest(req, policies).Rank()
  {
    assert policies == policies[..at] + policies[at..];
    DecisionOfConcatenation(req, policies[..at], policies[at..]);
    DecisionOfConcatenation(req, policies[..at] + [extra], policies[at..]);
    DecisionOfConcatenation(req, policies[..at], [extra]);
  }

  /** Two policies that differ only in the order of their rules. */
  ghost predicate SameUpToRuleOrder(p: Policy, q: Policy) {
    p.(rules := []) == q.(rules := []) && multiset(p.rules) == multiset(q.rules)
  }

  /** `order` renames positions: it permutes the policies, whose rules may be permuted too. */
  ghost predicate Reordered(ps: seq<Policy>, qs: seq<Policy>, order: seq<nat>) {
    && |ps| == |qs| == |order|
    && (forall k :: 0 <= k < |order| ==> order[k] < |ps| && SameUpToRuleOrder(ps[order[k]], qs[k]))
    && forall i :: 0 <= i < |ps| ==> i in order
  }

  lemma {:induction false} OrderNeverMatters(req: Request, ps: seq<Policy>, qs: seq<Policy>, order: seq<nat>)
    requires Reordered(ps, qs, order)
    ensures Strictest(req, ps) == Strictest(req, qs)
  {
    forall kind ensures SomeFires(req, ps, kind) <==> SomeFires(req, qs, kind) {
      if policy, rule :| policy in ps && Fires(req, policy, rule) && rule.kind == kind {
        var i :| 0 <= i < |ps| && ps[i] == policy;
        assert i in order;
        var k :| 0 <= k < |order| && order[k] == i;
        SameRulesFire(req, policy, qs[k], rule);
        assert qs[k] in qs;
      }
      if policy, rule :| policy in qs && Fires(req, policy, rule) && rule.kind == kind {
        var k :| 0 <= k < |qs| && qs[k] == policy;
        SameRulesFire(req, ps[order[k]], policy, rule);
        assert ps[order[k]] in ps;
      }
    }
  }

  lemma {:induction false} SameRulesFire(req: Request, p: Policy, q: Policy, rule: Rule)
    requires SameUpToRuleOrder(p, q)
    ensures Fires(req, p, rule) <==> Fires(req, q, rule)
  {
    assert rule in p.rules <==> rule in multiset(p.rules);
    assert rule in q.rules <==> rule in multiset(q.rules);
    assert p.(rules := []).active == q.(rules := []).active;
    assert p.(rules := []).agentRef == q.(rules := []).agentRef;
  }

  /** The first rule of a kind is unique, so the report of `EvaluatePolicies` is determined. */
  lemma {:induction false} FirstIsUnique(
      req: Request, policies: seq<Policy>, kind: RuleType, i: int, j: int, i': int, j': int)
    requires FirstAt(req, policies, kind, i, j) && FirstAt(req, policies, kind, i', j')
    ensures i == i' && j == j'
  {
  }
}
