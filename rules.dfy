/** The header-rewrite rule the background worker installs, and the browser's
    dynamic rule table (declarativeNetRequest) that holds it. */
module Rules {
  import opened Wrappers
  import opened Profiles

  /** The one rule the extension ever installs uses this id and priority. */
  const MANUAL_RULE_ID: int := 1
  const MANUAL_RULE_PRIORITY: int := 1
  const URL_FILTER_ALL: string := "*"
  const MODIFY_HEADERS: string := "modifyHeaders"
  const USER_AGENT_HEADER: string := "user-agent"
  const SET_OPERATION: string := "set"
  const REMOVE_OPERATION: string := "remove"

  /** The fixed Chrome user-agent that "append" profiles are appended to; the
      service worker cannot read the browser's real one. */
  const BASELINE_USER_AGENT: string :=
    "Mozilla/5.0 (Windows NT 10.0; Win64; x64) AppleWebKit/537.36 (KHTML, like Gecko) Chrome/120.0.0.0 Safari/537.36"

  /** Every resource type the rule applies to. */
  const RESOURCE_TYPES: seq<string> := [
    "main_frame", "sub_frame", "stylesheet", "script", "image", "font", "object",
    "xmlhttprequest", "ping", "csp_report", "media", "websocket", "webtransport",
    "webbundle", "other"
  ]

  datatype HeaderOperation = HeaderOperation(header: string, operation: string, value: string)
  datatype RuleAction = RuleAction(kind: string, requestHeaders: seq<HeaderOperation>)
  datatype RuleCondition = RuleCondition(urlFilter: string, resourceTypes: seq<string>)
  datatype Rule = Rule(id: int, priority: int, action: RuleAction, condition: RuleCondition)

  /** The user-agent string a profile asks for, or None when it asks for the
      browser's own: no profile, an empty string, or the default profile.
      The profile's own string always ends the result, and is all of it
      exactly when the mode is not "append". */
  function FinalUserAgent(p: Option<Profile>): (r: Option<string>)
    ensures r.None? <==> p.None? || p.value.userAgent == "" || p.value.id == DEFAULT_ID
    ensures r.Some? ==> |p.value.userAgent| <= |r.value|
                        && r.value[|r.value| - |p.value.userAgent|..] == p.value.userAgent
    ensures r.Some? ==> (r.value == p.value.userAgent <==> p.value.mode != APPEND_MODE)
  {
    if p.None? || p.value.userAgent == "" || p.value.id == DEFAULT_ID then None
    else if p.value.mode == APPEND_MODE then
      var s := BASELINE_USER_AGENT + " " + p.value.userAgent;
      assert s[|s| - |p.value.userAgent|..] == p.value.userAgent;
      Some(s)
    else Some(p.value.userAgent)
  }

  /** Append mode: the baseline, one space, the profile's string. */
  lemma AppendModeValue(p: Profile)
    requires p.userAgent != "" && p.id != DEFAULT_ID && p.mode == APPEND_MODE
    ensures FinalUserAgent(Some(p)) == Some(BASELINE_USER_AGENT + " " + p.userAgent)
  {
  }

  /** The header-overwrite rule for a final user-agent string. */
  function BuildRule(finalUserAgent: string): (r: Rule)
    ensures r.id == MANUAL_RULE_ID && r.priority == MANUAL_RULE_PRIORITY
    ensures r.action.kind == MODIFY_HEADERS
    ensures r.condition == RuleCondition(URL_FILTER_ALL, RESOURCE_TYPES)
    ensures |r.action.requestHeaders| == 1
  {
    Rule(MANUAL_RULE_ID, MANUAL_RULE_PRIORITY,
      RuleAction(MODIFY_HEADERS, [HeaderOperation(USER_AGENT_HEADER, SET_OPERATION, finalUserAgent)]),
      RuleCondition(URL_FILTER_ALL, RESOURCE_TYPES))
  }

  /** The rule covers fifteen distinct resource types. */
  lemma ResourceTypesDistinct()
    ensures |RESOURCE_TYPES| == 15
    ensures forall i, j :: 0 <= i < j < |RESOURCE_TYPES| ==> RESOURCE_TYPES[i] != RESOURCE_TYPES[j]
  {
  }

  /** The user-agent header value a rule's action sets, if it is a single
      `set` of that header. */
  function SetUserAgentValue(r: Rule): Option<string> {
    if r.action.kind == MODIFY_HEADERS && |r.action.requestHeaders| == 1
       && r.action.requestHeaders[0].header == USER_AGENT_HEADER
       && r.action.requestHeaders[0].operation == SET_OPERATION
    then Some(r.action.requestHeaders[0].value)
    else None
  }

  /** A built rule sets exactly the string it was built from. */
  lemma BuildRuleRoundTrip(ua: string)
    ensures SetUserAgentValue(BuildRule(ua)) == Some(ua)
  {
  }

  /** What the engine does to a request's user-agent header for one
      `modifyHeaders` list: `set` overwrites, `remove` deletes, operations on
      other headers leave it alone. (The extension only ever uses `set`.) */
  function ApplyHeaderOps(ops: seq<HeaderOperation>, current: Option<string>): Option<string>
    decreases |ops|
  {
    if ops == [] then current
    else
      var next :=
        if ops[0].header != USER_AGENT_HEADER then current
        else if ops[0].operation == SET_OPERATION then Some(ops[0].value)
        else if ops[0].operation == REMOVE_OPERATION then None
        else current;
      ApplyHeaderOps(ops[1..], next)
  }

  /** A rule applies to every URL of one of its resource types. */
  predicate AppliesTo(r: Rule, resourceType: string) {
    r.condition.urlFilter == URL_FILTER_ALL && resourceType in r.condition.resourceTypes
  }

  /** The user-agent header a request of the given type leaves with, given the
      header the browser would send. Rules are applied in table order; the
      engine's choice among several matching rules by priority is not modelled,
      since the extension's table never holds more than one rule. */
  function RequestUserAgent(rules: seq<Rule>, resourceType: string, native: Option<string>): Option<string>
    decreases |rules|
  {
    if rules == [] then native
    else
      var next :=
        if AppliesTo(rules[0], resourceType) && rules[0].action.kind == MODIFY_HEADERS
        then ApplyHeaderOps(rules[0].action.requestHeaders, native)
        else native;
      RequestUserAgent(rules[1..], resourceType, next)
  }

  /** The rules the table should hold for a profile: none, or the one
      overwrite rule for its final user-agent. */
  function DesiredRules(p: Option<Profile>): (r: seq<Rule>)
    ensures |r| <= 1
    ensures r == [] <==> FinalUserAgent(p).None?
    ensures forall k :: 0 <= k < |r| ==> r[k].id == MANUAL_RULE_ID && SetUserAgentValue(r[k]) == FinalUserAgent(p)
  {
    match FinalUserAgent(p)
    case None => []
    case Some(ua) => [BuildRule(ua)]
  }

  /** The point of the rule: every request of every listed type leaves with
      the profile's final user-agent whatever header it had (an overwrite,
      not a merge), and with its own header when the profile asks for none. */
  lemma DesiredRulesEffect(p: Option<Profile>, resourceType: string, native: Option<string>)
    requires resourceType in RESOURCE_TYPES
    ensures RequestUserAgent(DesiredRules(p), resourceType, native)
            == if FinalUserAgent(p).Some? then FinalUserAgent(p) else native
  {
    var r := DesiredRules(p);
    if r != [] {
      var ops := r[0].action.requestHeaders;
      assert ApplyHeaderOps(ops[1..], Some(ops[0].value)) == Some(ops[0].value);
      assert r[1..] == [];
    }
  }

  /** `rules.map(rule => rule.id)`. */
  function Ids(rules: seq<Rule>): (ids: seq<int>)
    ensures |ids| == |rules|
    ensures forall k :: 0 <= k < |rules| ==> ids[k] == rules[k].id
  {
    seq(|rules|, k requires 0 <= k < |rules| => rules[k].id)
  }

  predicate DistinctIds(rules: seq<Rule>) {
    forall i, j :: 0 <= i < j < |rules| ==> rules[i].id != rules[j].id
  }

  /** The table after `removeRuleIds`: the rules whose id is not listed, in
      their order; ids not in the table are ignored. */
  function WithoutIds(rules: seq<Rule>, ids: seq<int>): (r: seq<Rule>)
    ensures |r| <= |rules|
    ensures forall x :: x in r <==> x in rules && x.id !in ids
  {
    if rules == [] then []
    else if rules[0].id in ids then WithoutIds(rules[1..], ids)
    else [rules[0]] + WithoutIds(rules[1..], ids)
  }

  /** Removing every id the table lists empties it. */
  lemma RemoveAllIds(rules: seq<Rule>)
    ensures WithoutIds(rules, Ids(rules)) == []
  {
    RemoveListed(rules, Ids(rules));
  }

  /** Removing a list of ids that names every rule of the table empties it. */
  lemma {:induction false} RemoveListed(rules: seq<Rule>, ids: seq<int>)
    requires forall k :: 0 <= k < |rules| ==> rules[k].id in ids
    ensures WithoutIds(rules, ids) == []
  {
    if rules != [] {
      RemoveListed(rules[1..], ids);
    }
  }

  /** Removing rules keeps the ids distinct. */
  lemma {:induction false} WithoutIdsKeepsDistinct(rules: seq<Rule>, ids: seq<int>)
    requires DistinctIds(rules)
    ensures DistinctIds(WithoutIds(rules, ids))
  {
    if rules != [] {
      var rest := rules[1..];
      assert DistinctIds(rest) by {
        forall i, j | 0 <= i < j < |rest| ensures rest[i].id != rest[j].id {
          assert rest[i] == rules[i + 1] && rest[j] == rules[j + 1];
        }
      }
      WithoutIdsKeepsDistinct(rest, ids);
      if rules[0].id !in ids {
        var tail := WithoutIds(rest, ids);
        forall x | x in tail ensures x.id != rules[0].id {
          var k :| 0 <= k < |rest| && rest[k] == x;
          assert rules[k + 1] == x;
        }
        var r := [rules[0]] + tail;
        forall i, j | 0 <= i < j < |r| ensures r[i].id != r[j].id {
          if i == 0 { assert r[j] == tail[j - 1] && r[j] in tail; }
          else { assert r[i] == tail[i - 1] && r[j] == tail[j - 1]; }
        }
      }
    }
  }

  /** Whether the engine accepts adding `addRules` to `table`: no id may be
      taken twice. */
  predicate CanAdd(table: seq<Rule>, addRules: seq<Rule>) {
    DistinctIds(table + addRules)
  }

  /** The browser's dynamic rule table. */
  class RuleEngine {
    var rules: seq<Rule>

    /** The engine keeps rule ids unique. */
    predicate Valid()
      reads this
    {
      DistinctIds(rules)
    }

    constructor ()
      ensures rules == [] && Valid()
    {
      rules := [];
    }

    /** `getDynamicRules()`. */
    method GetDynamicRules() returns (rs: seq<Rule>)
      ensures rs == rules
    {
      rs := rules;
    }

    /** `updateDynamicRules({removeRuleIds, addRules})`: removals first, then
        additions, all or nothing; it refuses when an added id would be taken
        twice, leaving the table as it was. */
    method UpdateDynamicRules(removeRuleIds: seq<int>, addRules: seq<Rule>) returns (ok: bool)
      modifies this
      ensures ok == CanAdd(WithoutIds(old(rules), removeRuleIds), addRules)
      ensures rules == if ok then WithoutIds(old(rules), removeRuleIds) + addRules else old(rules)
      ensures old(Valid()) ==> Valid()
    {
      var kept := WithoutIds(rules, removeRuleIds);
      ok := CanAdd(kept, addRules);
      if ok {
        rules := kept + addRules;
      }
    }
  }
}
