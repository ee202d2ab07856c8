/** The background service worker: applies a profile to the dynamic rule
    table and mirrors the active profile on the toolbar badge. */
module Background {
  import opened Wrappers
  import opened Profiles
  import opened Storage
  import opened Rules

  const TITLE_PREFIX: string := "User-Agent Changer\nActivo: "
  const LOCAL_NAMESPACE: string := "local"
  const ACTIVE_ID_KEY: string := "activeId"

  /** What the toolbar action shows. */
  datatype BadgeState = BadgeState(text: string, bgColor: string, title: string)

  /** The writes one `updateBadge` makes: a text, a background colour unless
      it leaves that alone, and a title. */
  datatype BadgeUpdate = BadgeUpdate(text: string, bgColor: Option<string>, title: string)

  /** The choice `updateBadge` makes from the stored list and active id: no
      change when the active profile is not in the list; otherwise the title
      names it, and the badge is blank for the default profile (colour left
      alone) or shows its alias on its colour. */
  function ChooseBadge(st: StoreState): (r: Option<BadgeUpdate>)
    ensures var found := FindById(st.userAgents.GetOr([]), ActiveOrDefault(st.activeId));
            && (r.Some? <==> found.Some?)
            && (r.Some? ==> r.value.title == TITLE_PREFIX + found.value.name)
            && (r.Some? && ActiveOrDefault(st.activeId) == DEFAULT_ID ==>
                  r.value.text == "" && r.value.bgColor.None?)
            && (r.Some? && ActiveOrDefault(st.activeId) != DEFAULT_ID ==>
                  r.value.text == found.value.alias && r.value.bgColor == Some(BgColorOf(found.value)))
  {
    var activeId := ActiveOrDefault(st.activeId);
    match FindById(st.userAgents.GetOr([]), activeId)
    case None => None
    case Some(ua) =>
      if activeId == DEFAULT_ID then Some(BadgeUpdate("", None, TITLE_PREFIX + ua.name))
      else Some(BadgeUpdate(ua.alias, Some(BgColorOf(ua)), TITLE_PREFIX + ua.name))
  }

  /** The badge after `updateBadge` acts on a choice: no choice leaves it
      as it was; a choice sets its text and title, and its background colour
      only when the choice names one (the default profile clears the text
      and keeps the colour). */
  function ApplyBadge(b: BadgeState, u: Option<BadgeUpdate>): (r: BadgeState)
    ensures u.None? ==> r == b
    ensures u.Some? ==> r.text == u.value.text && r.title == u.value.title
    ensures u.Some? && u.value.bgColor.Some? ==> r.bgColor == u.value.bgColor.value
    ensures u.Some? && u.value.bgColor.None? ==> r.bgColor == b.bgColor
  {
    match u
    case None => b
    case Some(w) => BadgeState(w.text, w.bgColor.GetOr(b.bgColor), w.title)
  }

  /** Applying the same badge choice twice is applying it once, so repeated
      `updateBadge` calls on an unchanged store agree. */
  lemma ApplyBadgeIdempotent(b: BadgeState, u: Option<BadgeUpdate>)
    ensures ApplyBadge(ApplyBadge(b, u), u) == ApplyBadge(b, u)
  {
  }

  /** The toolbar action's badge and title. */
  class ActionBadge {
    var text: string
    var bgColor: string
    var title: string

    constructor (text: string, bgColor: string, title: string)
      ensures State() == BadgeState(text, bgColor, title)
    {
      this.text, this.bgColor, this.title := text, bgColor, title;
    }

    function State(): BadgeState
      reads this
    {
      BadgeState(text, bgColor, title)
    }

    method Set(u: BadgeUpdate)
      modifies this
      ensures State() == ApplyBadge(old(State()), Some(u))
    {
      text := u.text;
      if u.bgColor.Some? {
        bgColor := u.bgColor.value;
      }
      title := u.title;
    }
  }

  /** `updateBadge`. */
  method UpdateBadge(store: Store, badge: ActionBadge)
    modifies badge
    ensures badge.State() == ApplyBadge(old(badge.State()), ChooseBadge(store.State()))
  {
    var choice := ChooseBadge(store.State());
    if choice.Some? {
      badge.Set(choice.value);
    }
  }

  /** `setUserAgent`: remove every installed rule, then install the one
      overwrite rule for the profile, or none; then refresh the badge. The
      engine never refuses either update: the removal adds nothing, and the
      addition goes into an empty table. */
  method SetUserAgent(engine: RuleEngine, store: Store, badge: ActionBadge, userAgent: Option<Profile>)
    modifies engine, badge
    ensures engine.rules == DesiredRules(userAgent)
    ensures engine.Valid()
    ensures forall r :: r in old(engine.rules) && r !in DesiredRules(userAgent) ==> r !in engine.rules
    ensures badge.State() == ApplyBadge(old(badge.State()), ChooseBadge(store.State()))
  {
    var existingRules := engine.GetDynamicRules();
    var ruleIds := Ids(existingRules);
    if |ruleIds| > 0 {
      RemoveAllIds(existingRules);
      var removed := engine.UpdateDynamicRules(ruleIds, []);
      assert removed;
    }
    assert engine.rules == [];
    var finalUserAgent := FinalUserAgent(userAgent);
    if finalUserAgent.None? {
      UpdateBadge(store, badge);
      return;
    }
    var newRule := BuildRule(finalUserAgent.value);
    var added := engine.UpdateDynamicRules([], [newRule]);
    assert added;
    UpdateBadge(store, badge);
  }

  /** Two `setUserAgent` calls with the same profile leave the same table:
      the second removes the rule the first added and adds it again. */
  method SetUserAgentTwice(engine: RuleEngine, store: Store, badge: ActionBadge, userAgent: Option<Profile>)
    returns (afterFirst: seq<Rule>)
    modifies engine, badge
    ensures engine.rules == afterFirst == DesiredRules(userAgent)
  {
    SetUserAgent(engine, store, badge, userAgent);
    afterFirst := engine.rules;
    SetUserAgent(engine, store, badge, userAgent);
  }

  /** The runtime message listener: only `setUserAgent` messages act. */
  method OnMessage(engine: RuleEngine, store: Store, badge: ActionBadge, request: Message)
    modifies engine, badge
    ensures request.action == SET_USER_AGENT_ACTION ==> engine.rules == DesiredRules(request.userAgent)
    ensures request.action == SET_USER_AGENT_ACTION ==>
              badge.State() == ApplyBadge(old(badge.State()), ChooseBadge(store.State()))
    ensures request.action != SET_USER_AGENT_ACTION ==>
              engine.rules == old(engine.rules) && badge.State() == old(badge.State())
  {
    if request.action == SET_USER_AGENT_ACTION {
      SetUserAgent(engine, store, badge, request.userAgent);
    }
  }

  /** The storage listener: a change of `activeId` in local storage refreshes
      the badge; nothing else does. */
  method OnStorageChanged(store: Store, badge: ActionBadge, changedKeys: set<string>, namespace: string)
    modifies badge
    ensures namespace == LOCAL_NAMESPACE && ACTIVE_ID_KEY in changedKeys ==>
              badge.State() == ApplyBadge(old(badge.State()), ChooseBadge(store.State()))
    ensures !(namespace == LOCAL_NAMESPACE && ACTIVE_ID_KEY in changedKeys) ==>
              badge.State() == old(badge.State())
  {
    if namespace == LOCAL_NAMESPACE && ACTIVE_ID_KEY in changedKeys {
      UpdateBadge(store, badge);
    }
  }

  /** The profile `onInstalled` re-applies: the active one, when a list is
      stored, the active id is a non-empty string and the list holds it. */
  function InstalledProfile(st: StoreState): (r: Option<Profile>)
    ensures r.Some? <==> st.userAgents.Some? && st.activeId.Some? && st.activeId.value != ""
                         && FindById(st.userAgents.value, st.activeId.value).Some?
    ensures r.Some? ==> r.value in st.userAgents.value && r.value.id == st.activeId.value
  {
    if st.userAgents.Some? && st.activeId.Some? && st.activeId.value != "" then
      FindById(st.userAgents.value, st.activeId.value)
    else None
  }

  /** `onInstalled`: refresh the badge, then re-apply the active profile when
      there is one; otherwise the rule table is left as it was. */
  method OnInstalled(engine: RuleEngine, store: Store, badge: ActionBadge)
    modifies engine, badge
    ensures engine.rules == if InstalledProfile(store.State()).Some?
                            then DesiredRules(InstalledProfile(store.State()))
                            else old(engine.rules)
    ensures badge.State() == ApplyBadge(old(badge.State()), ChooseBadge(store.State()))
  {
    UpdateBadge(store, badge);
    if store.userAgents.Some? && store.activeId.Some? && store.activeId.value != "" {
      var activeUA := FindById(store.userAgents.value, store.activeId.value);
      if activeUA.Some? {
        SetUserAgent(engine, store, badge, activeUA);
        ApplyBadgeIdempotent(old(badge.State()), ChooseBadge(store.State()));
      }
    }
  }

  /** Once the popup or the options page has seeded an empty store with the
      defaults, the badge is blank and no rule is installed: the browser's
      own user-agent is used. */
  lemma SeededStoreUsesBrowserUserAgent(st: StoreState)
    requires st.userAgents.None?
    ensures ChooseBadge(Seeded(st)).Some? && ChooseBadge(Seeded(st)).value.text == ""
    ensures InstalledProfile(Seeded(st)).Some?
    ensures DesiredRules(InstalledProfile(Seeded(st))) == []
  {
    SeededProperties(st);
  }
}
