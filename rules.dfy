/** The routing rule store: an ordered list of (pattern -> channel) rules, unique by
    pattern, tried oldest-first with the first match winning. */
module Rules {
  import opened Util
  import opened Types
  import opened Backend

  ghost predicate PatternsUnique(rules: seq<RoutingRule>)
  {
    forall i, j :: 0 <= i < j < |rules| ==> rules[i].matchPattern != rules[j].matchPattern
  }

  /** erase(remove_if(matchPattern == p)): drops every rule with pattern p and keeps
      the others in their order. */
  function WithoutPattern(rules: seq<RoutingRule>, p: string): (r: seq<RoutingRule>)
    ensures forall x :: x in r <==> x in rules && x.matchPattern != p
    ensures |r| <= |rules|
  {
    if rules == [] then []
    else (if rules[0].matchPattern == p then [] else [rules[0]]) + WithoutPattern(rules[1..], p)
  }

  /** The rule list after addRoutingRule(p, c). */
  function WithRule(rules: seq<RoutingRule>, p: string, c: string): seq<RoutingRule>
  {
    WithoutPattern(rules, p) + [RoutingRule(p, c)]
  }

  lemma {:induction false} WithoutAbsentPattern(rules: seq<RoutingRule>, p: string)
    requires forall x :: x in rules ==> x.matchPattern != p
    ensures WithoutPattern(rules, p) == rules
  {
    if rules != [] {
      WithoutAbsentPattern(rules[1..], p);
    }
  }

  lemma {:induction false} WithoutPatternAppend(a: seq<RoutingRule>, b: seq<RoutingRule>, p: string)
    ensures WithoutPattern(a + b, p) == WithoutPattern(a, p) + WithoutPattern(b, p)
  {
    if a != [] {
      assert (a + b)[1..] == a[1..] + b;
      WithoutPatternAppend(a[1..], b, p);
    } else {
      assert a + b == b;
    }
  }

  lemma TailUnique(rules: seq<RoutingRule>)
    requires PatternsUnique(rules) && rules != []
    ensures PatternsUnique(rules[1..])
  {
    forall a, b | 0 <= a < b < |rules| - 1
      ensures rules[1..][a].matchPattern != rules[1..][b].matchPattern
    {
      assert rules[1..][a] == rules[a + 1] && rules[1..][b] == rules[b + 1];
    }
  }

  /** With unique patterns, no later rule shares the first rule's pattern. */
  lemma HeadAbsentFromTail(rules: seq<RoutingRule>)
    requires PatternsUnique(rules) && rules != []
    ensures forall x :: x in rules[1..] ==> x.matchPattern != rules[0].matchPattern
  {
    forall x | x in rules[1..]
      ensures x.matchPattern != rules[0].matchPattern
    {
      var j :| 0 <= j < |rules[1..]| && rules[1..][j] == x;
      assert rules[j + 1] == x;
    }
  }

  /** With unique patterns, removing a present pattern deletes exactly its one rule. */
  lemma WithoutPatternAt(rules: seq<RoutingRule>, i: nat)
    requires PatternsUnique(rules)
    requires i < |rules|
    ensures WithoutPattern(rules, rules[i].matchPattern) == rules[..i] + rules[i + 1..]
  {
    forall k | 0 <= k < |rules| && k != i
      ensures rules[k].matchPattern != rules[i].matchPattern
    {
      if k < i {
        assert rules[k].matchPattern != rules[i].matchPattern;
      } else {
        assert rules[i].matchPattern != rules[k].matchPattern;
      }
    }
    SplitAt(rules, i);
  }

  /** Splitting around the only rule with its pattern. */
  lemma SplitAt(rules: seq<RoutingRule>, i: nat)
    requires i < |rules|
    requires forall k :: 0 <= k < |rules| && k != i ==> rules[k].matchPattern != rules[i].matchPattern
    ensures WithoutPattern(rules, rules[i].matchPattern) == rules[..i] + rules[i + 1..]
  {
    SidesAvoid(rules, i, rules[..i], rules[i + 1..]);
    DropOnly(rules[..i], rules[i], rules[i + 1..]);
    Recompose(rules, i);
  }

  lemma SidesAvoid(rules: seq<RoutingRule>, i: nat, pre: seq<RoutingRule>, post: seq<RoutingRule>)
    requires i < |rules| && pre == rules[..i] && post == rules[i + 1..]
    requires forall k :: 0 <= k < |rules| && k != i ==> rules[k].matchPattern != rules[i].matchPattern
    ensures forall k :: 0 <= k < |pre| ==> pre[k].matchPattern != rules[i].matchPattern
    ensures forall k :: 0 <= k < |post| ==> post[k].matchPattern != rules[i].matchPattern
  {
    forall k | 0 <= k < |post|
      ensures post[k].matchPattern != rules[i].matchPattern
    {
      assert post[k] == rules[i + 1 + k];
    }
  }

  lemma Recompose<T>(s: seq<T>, i: nat)
    requires i < |s|
    ensures s[..i] + ([s[i]] + s[i + 1..]) == s
  {
  }

  /** Removing the pattern of a rule that no other rule shares drops only that rule. */
  lemma DropOnly(pre: seq<RoutingRule>, rule: RoutingRule, post: seq<RoutingRule>)
    requires forall k :: 0 <= k < |pre| ==> pre[k].matchPattern != rule.matchPattern
    requires forall k :: 0 <= k < |post| ==> post[k].matchPattern != rule.matchPattern
    ensures WithoutPattern(pre + ([rule] + post), rule.matchPattern) == pre + post
  {
    var p := rule.matchPattern;
    assert [rule][1..] == [];
    assert WithoutPattern([rule], p) == [];
    WithoutAbsentPattern(post, p);
    WithoutPatternAppend([rule], post, p);
    assert WithoutPattern([rule] + post, p) == post;
    WithoutAbsentPattern(pre, p);
    WithoutPatternAppend(pre, [rule] + post, p);
  }

  lemma ConsUnique(x: RoutingRule, t: seq<RoutingRule>)
    requires PatternsUnique(t)
    requires forall y :: y in t ==> y.matchPattern != x.matchPattern
    ensures PatternsUnique([x] + t)
  {
    var r := [x] + t;
    forall i, j | 0 <= i < j < |r|
      ensures r[i].matchPattern != r[j].matchPattern
    {
      assert r[j] == t[j - 1];
      if i > 0 {
        assert r[i] == t[i - 1];
      }
    }
  }

  lemma {:induction false} WithoutPatternKeepsUnique(rules: seq<RoutingRule>, p: string)
    requires PatternsUnique(rules)
    ensures PatternsUnique(WithoutPattern(rules, p))
  {
    if rules != [] {
      var tail := WithoutPattern(rules[1..], p);
      TailUnique(rules);
      WithoutPatternKeepsUnique(rules[1..], p);
      if rules[0].matchPattern != p {
        HeadAbsentFromTail(rules);
        ConsUnique(rules[0], tail);
      }
    }
  }

  /** addRoutingRule keeps patterns unique and puts the new rule last. */
  lemma WithRuleKeepsUnique(rules: seq<RoutingRule>, p: string, c: string)
    requires PatternsUnique(rules)
    ensures PatternsUnique(WithRule(rules, p, c))
    ensures WithRule(rules, p, c)[|WithRule(rules, p, c)| - 1] == RoutingRule(p, c)
    ensures forall x :: x in WithRule(rules, p, c) && x.matchPattern == p ==> x.targetChannel == c
  {
    var w := WithoutPattern(rules, p);
    WithoutPatternKeepsUnique(rules, p);
    var r := w + [RoutingRule(p, c)];
    forall i, j | 0 <= i < j < |r|
      ensures r[i].matchPattern != r[j].matchPattern
    {
      if j == |r| - 1 {
        assert r[i] in w;
      } else {
        assert r[i] == w[i] && r[j] == w[j];
      }
    }
  }

  /** Adding the same pattern twice leaves one rule, with the later target, at the end. */
  lemma AddSamePatternTwice(rules: seq<RoutingRule>, p: string, c1: string, c2: string)
    ensures WithRule(WithRule(rules, p, c1), p, c2) == WithRule(rules, p, c2)
  {
    var w := WithoutPattern(rules, p);
    WithoutPatternAppend(w, [RoutingRule(p, c1)], p);
    WithoutAbsentPattern(w, p);
    assert WithoutPattern([RoutingRule(p, c1)], p) == [];
  }

  /** Re-adding a present pattern removes its old rule from its place, keeps every other
      rule in order, and appends the new rule. */
  lemma ReAddMovesToEnd(rules: seq<RoutingRule>, i: nat, c: string)
    requires PatternsUnique(rules)
    requires i < |rules|
    ensures WithRule(rules, rules[i].matchPattern, c)
         == rules[..i] + rules[i + 1..] + [RoutingRule(rules[i].matchPattern, c)]
  {
    WithoutPatternAt(rules, i);
  }

  /** removeRoutingRule of an absent pattern changes nothing. */
  lemma RemoveAbsentIsNoop(rules: seq<RoutingRule>, p: string)
    requires forall i :: 0 <= i < |rules| ==> rules[i].matchPattern != p
    ensures WithoutPattern(rules, p) == rules
  {
    WithoutAbsentPattern(rules, p);
  }

  /** Case-insensitive regular-expression match of a rule against the application or
      the process name; the regular-expression engine is the parameter `matches`. */
  predicate RuleMatches(rule: RoutingRule, appName: string, processName: string,
                        matches: (string, string) -> bool)
  {
    matches(rule.matchPattern, appName) || matches(rule.matchPattern, processName)
  }

  /** The index of the first rule, in list order, that matches. */
  function FirstMatch(rules: seq<RoutingRule>, appName: string, processName: string,
                      matches: (string, string) -> bool): (r: Option<nat>)
    ensures r.Some? ==> r.value < |rules| && RuleMatches(rules[r.value], appName, processName, matches)
    ensures r.Some? ==> forall j :: 0 <= j < r.value ==> !RuleMatches(rules[j], appName, processName, matches)
    ensures r.None? ==> forall j :: 0 <= j < |rules| ==> !RuleMatches(rules[j], appName, processName, matches)
  {
    if rules == [] then None
    else if RuleMatches(rules[0], appName, processName, matches) then Some(0)
    else match FirstMatch(rules[1..], appName, processName, matches)
      case None => None
      case Some(i) => Some(i + 1)
  }

  /** Appending a rule never changes which earlier rule a stream matches first. */
  lemma {:induction false} FirstMatchAppend(rules: seq<RoutingRule>, rule: RoutingRule, a: string, b: string,
                                            matches: (string, string) -> bool)
    requires FirstMatch(rules, a, b, matches).Some?
    ensures FirstMatch(rules + [rule], a, b, matches) == FirstMatch(rules, a, b, matches)
  {
    var k := FirstMatch(rules, a, b, matches).value;
    assert forall j :: 0 <= j <= k ==> (rules + [rule])[j] == rules[j];
  }

  /** A rule appended after rules none of which matches is the first match exactly
      when it matches. */
  lemma FirstMatchAppendNone(rules: seq<RoutingRule>, rule: RoutingRule, a: string, b: string,
                             matches: (string, string) -> bool)
    requires FirstMatch(rules, a, b, matches).None?
    ensures FirstMatch(rules + [rule], a, b, matches)
         == if RuleMatches(rule, a, b, matches) then Some(|rules|) else None
  {
    var r := rules + [rule];
    assert forall j :: 0 <= j < |rules| ==> r[j] == rules[j];
    assert r[|rules|] == rule;
    if RuleMatches(rule, a, b, matches) {
      FirstMatchIsFirst(r, |rules|, a, b, matches);
    } else {
      assert forall j :: 0 <= j < |r| ==> !RuleMatches(r[j], a, b, matches);
    }
  }

  /** The channel the first matching rule names, if any rule matches. */
  function RuleTarget(rules: seq<RoutingRule>, appName: string, processName: string,
                      matches: (string, string) -> bool): (r: Option<string>)
    ensures r.None? <==> forall j :: 0 <= j < |rules| ==> !RuleMatches(rules[j], appName, processName, matches)
    ensures r.Some? ==> exists j :: 0 <= j < |rules| && RuleMatches(rules[j], appName, processName, matches)
                                    && rules[j].targetChannel == r.value
  {
    match FirstMatch(rules, appName, processName, matches)
    case None => None
    case Some(i) => Some(rules[i].targetChannel)
  }

  /** The pattern of the rule moveStreamToChannel synthesises: the process name when
      there is one, otherwise the application name; empty means no rule is added. */
  function AutoRulePattern(info: StreamInfo): (p: string)
    ensures p == "" <==> info.processName == "" && info.appName == ""
    ensures info.processName != "" ==> p == info.processName
    ensures info.processName == "" ==> p == info.appName
  {
    if info.processName != "" then info.processName
    else if info.appName != "" then info.appName
    else ""
  }

  /** The rule list after a successful manual move, given what was learned about the
      stream afterwards. */
  function AfterManualMove(rules: seq<RoutingRule>, learned: Option<StreamInfo>, channelId: string): seq<RoutingRule>
  {
    if learned.Some? && AutoRulePattern(learned.value) != "" then
      WithRule(rules, AutoRulePattern(learned.value), channelId)
    else rules
  }

  /** A manual move teaches a rule for pattern p that sends the stream, when p matches
      it, back to the channel it was moved to, unless one of the other rules matches it
      first: the learned rule is tried last. */
  lemma {:induction false} ManualMoveRoutesBack(rules: seq<RoutingRule>, p: string, c: string, a: string, b: string,
                                                matches: (string, string) -> bool)
    requires RuleMatches(RoutingRule(p, c), a, b, matches)
    ensures RuleTarget(WithoutPattern(rules, p), a, b, matches).None? ==>
              RuleTarget(WithRule(rules, p, c), a, b, matches) == Some(c)
    ensures RuleTarget(WithoutPattern(rules, p), a, b, matches).Some? ==>
              RuleTarget(WithRule(rules, p, c), a, b, matches) == RuleTarget(WithoutPattern(rules, p), a, b, matches)
  {
    var w := WithoutPattern(rules, p);
    var x := RoutingRule(p, c);
    match FirstMatch(w, a, b, matches)
    case None =>
      FirstMatchAppendNone(w, x, a, b, matches);
      assert (w + [x])[|w|] == x;
    case Some(i) =>
      FirstMatchAppend(w, x, a, b, matches);
      assert (w + [x])[i] == w[i];
  }

  /** The erase(remove_if(...)) of addRoutingRule and removeRoutingRule, one rule at a
      time: the rules kept so far are the rules seen so far without pattern p. */
  method EraseMatching(rules: seq<RoutingRule>, p: string) returns (r: seq<RoutingRule>)
    ensures r == WithoutPattern(rules, p)
  {
    r := [];
    for i := 0 to |rules|
      invariant r == WithoutPattern(rules[..i], p)
    {
      WithoutPatternAppend(rules[..i], [rules[i]], p);
      assert rules[..i + 1] == rules[..i] + [rules[i]];
      if rules[i].matchPattern != p {
        r := r + [rules[i]];
      }
    }
    assert rules[..|rules|] == rules;
  }

  /** The rule loop of applyRoutingRules and syncExistingStreams: tests the rules in
      list order and stops at the first that matches. */
  method FindFirstMatch(rules: seq<RoutingRule>, appName: string, processName: string,
                        matches: (string, string) -> bool) returns (r: Option<nat>)
    ensures r == FirstMatch(rules, appName, processName, matches)
  {
    var i := 0;
    while i < |rules|
      invariant i <= |rules|
      invariant forall j :: 0 <= j < i ==> !RuleMatches(rules[j], appName, processName, matches)
    {
      if matches(rules[i].matchPattern, appName) || matches(rules[i].matchPattern, processName) {
        FirstMatchIsFirst(rules, i, appName, processName, matches);
        return Some(i);
      }
      i := i + 1;
    }
    r := None;
  }

  /** A matching rule with no matching rule before it is the first match. */
  lemma FirstMatchIsFirst(rules: seq<RoutingRule>, i: nat, appName: string, processName: string,
                          matches: (string, string) -> bool)
    requires i < |rules| && RuleMatches(rules[i], appName, processName, matches)
    requires forall j :: 0 <= j < i ==> !RuleMatches(rules[j], appName, processName, matches)
    ensures FirstMatch(rules, appName, processName, matches) == Some(i)
  {
  }

  // ----- Relearning a rule from the rule that routed the stream -----

  /** applyRoutingRules and syncExistingStreams call moveStreamToChannel with a reference
      to the target of the matching rule i, and moveStreamToChannel hands that reference
      on to addRoutingRule(p, ...), which reads it only after erasing the rules with
      pattern p. The erase compacts the kept rules to the front, so the reference then
      names the target of whatever rule sits at index i: the value read, or None when
      index i is past the end of the shortened list and the reference dangles. */
  function AliasedTarget(rules: seq<RoutingRule>, i: nat, p: string): Option<string>
  {
    var kept := WithoutPattern(rules, p);
    if i < |kept| then Some(kept[i].targetChannel) else None
  }

  /** The rule list that relearning leaves as the code is written; None where it reads
      a destroyed rule. */
  function AliasedRelearn(rules: seq<RoutingRule>, i: nat, p: string): Option<seq<RoutingRule>>
  {
    match AliasedTarget(rules, i, p)
    case None => None
    case Some(c) => Some(WithoutPattern(rules, p) + [RoutingRule(p, c)])
  }

  /** A stream of process "firefox" matched by the first of two rules is moved to
      "game", but the rule relearned for it names "chat", the target of the rule that
      slid into the erased rule's place; the intended relearning keeps "game". */
  lemma AliasedRelearnRetargets()
    ensures var rules := [RoutingRule("firefox", "game"), RoutingRule("discord", "chat")];
            && AliasedRelearn(rules, 0, "firefox") == Some([RoutingRule("discord", "chat"), RoutingRule("firefox", "chat")])
            && WithRule(rules, "firefox", rules[0].targetChannel) == [RoutingRule("discord", "chat"), RoutingRule("firefox", "game")]
  {
    var rules := [RoutingRule("firefox", "game"), RoutingRule("discord", "chat")];
    var tail := [RoutingRule("discord", "chat")];
    assert "discord"[0] != "firefox"[0];
    assert rules[1..] == tail && tail[1..] == [];
    assert WithoutPattern(tail, "firefox") == tail + WithoutPattern([], "firefox");
    assert WithoutPattern(rules, "firefox") == [] + tail;
    assert AliasedTarget(rules, 0, "firefox") == Some("chat");
    ghost var relearned := AliasedRelearn(rules, 0, "firefox").value;
    assert relearned == [RoutingRule("discord", "chat"), RoutingRule("firefox", "chat")];
  }

  /** Relearning with the routing rule's target copied first: the relearned rule for p
      names the channel the stream was routed to, it is the last rule, patterns stay
      unique, and every rule with another pattern keeps its target and its place
      relative to the others. */
  lemma RelearnKeepsTargets(rules: seq<RoutingRule>, i: nat, p: string)
    requires PatternsUnique(rules) && i < |rules|
    ensures var r := WithRule(rules, p, rules[i].targetChannel);
            && PatternsUnique(r)
            && r[|r| - 1] == RoutingRule(p, rules[i].targetChannel)
            && (forall x :: x in r && x.matchPattern == p ==> x.targetChannel == rules[i].targetChannel)
            && (forall x :: x in rules && x.matchPattern != p <==> x in r && x.matchPattern != p)
  {
    WithRuleKeepsUnique(rules, p, rules[i].targetChannel);
  }
}
