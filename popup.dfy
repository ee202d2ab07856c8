/** The popup: the list of profiles with the active one marked, and
    activation. */
module Popup {
  import opened Wrappers
  import opened Text
  import opened Profiles
  import opened Storage
  import opened Rules
  import opened Background

  const APPEND_LABEL: string := " (agregar)"
  const ELLIPSIS: string := "..."
  const PREVIEW_LENGTH: nat := 50

  /** `loadUserAgents`: the stored list or the built-in one, the stored
      active id or the default one. */
  datatype ListView = ListView(userAgents: seq<Profile>, activeId: string)

  function LoadView(st: StoreState): (v: ListView)
    ensures st.userAgents.Some? ==> v.userAgents == st.userAgents.value
    ensures st.userAgents.None? ==> v.userAgents == DEFAULT_USER_AGENTS
    ensures st.activeId.Some? && st.activeId.value != "" ==> v.activeId == st.activeId.value
    ensures st.activeId.None? || st.activeId == Some("") ==> v.activeId == DEFAULT_ID
  {
    ListView(st.userAgents.GetOr(DEFAULT_USER_AGENTS), ActiveOrDefault(st.activeId))
  }

  /** The fallbacks show what seeding would store: an unseeded store is shown
      as the built-in list with the default profile active, unless it holds
      another active id, which the popup marks and seeding would overwrite. */
  lemma LoadViewFallbacks(st: StoreState)
    ensures st.userAgents.None? ==> LoadView(st).userAgents == DEFAULT_USER_AGENTS
    ensures st.activeId.None? ==> LoadView(st).activeId == DEFAULT_ID
    ensures st.userAgents.Some? ==> LoadView(Seeded(st)) == LoadView(st)
    ensures st.userAgents.None? ==>
              (LoadView(Seeded(st)) == LoadView(st) <==> ActiveOrDefault(st.activeId) == DEFAULT_ID)
  {
  }

  /** The preview line: the first fifty characters of a non-empty user-agent
      followed by "...", or a fixed placeholder. */
  function Preview(userAgent: string): (r: string)
    ensures userAgent == "" ==> r == BROWSER_DEFAULT_PREVIEW
    ensures userAgent != "" ==>
              && |r| == 3 + (if |userAgent| < PREVIEW_LENGTH then |userAgent| else PREVIEW_LENGTH)
              && r[..|r| - 3] <= userAgent
              && r[|r| - 3..] == ELLIPSIS
  {
    if userAgent != "" then Prefix(userAgent, PREVIEW_LENGTH) + ELLIPSIS else BROWSER_DEFAULT_PREVIEW
  }

  /** A user-agent of at most fifty characters is shown whole; longer ones
      are shown by their first fifty; two user-agents with the same first
      fifty characters have the same preview. */
  lemma PreviewShows(userAgent: string, other: string)
    requires userAgent != "" && other != ""
    ensures |userAgent| <= PREVIEW_LENGTH ==> Preview(userAgent) == userAgent + ELLIPSIS
    ensures |userAgent| > PREVIEW_LENGTH ==> Preview(userAgent) == userAgent[..PREVIEW_LENGTH] + ELLIPSIS
    ensures (|userAgent| >= PREVIEW_LENGTH && |other| >= PREVIEW_LENGTH
             && userAgent[..PREVIEW_LENGTH] == other[..PREVIEW_LENGTH])
            ==> Preview(userAgent) == Preview(other)
  {
  }

  /** `' (agregar)'` exactly for the append mode. */
  function ModeLabel(mode: string): (r: string)
    ensures r != "" <==> mode == APPEND_MODE
    ensures r != "" ==> r == APPEND_LABEL
  {
    if mode == APPEND_MODE then APPEND_LABEL else ""
  }

  /** What one item of the list shows. */
  datatype Item = Item(
    active: bool,
    caption: string,
    preview: string,
    alias: string,
    textColor: string,
    badgeColor: string)

  /** `createUserAgentItem`: marked active exactly when its id is the active
      id; labelled with the name and the mode label. */
  function CreateItem(ua: Profile, activeId: string): (it: Item)
    ensures it.active <==> ua.id == activeId
    ensures it.caption == ua.name + ModeLabel(ua.mode)
    ensures it.preview == Preview(ua.userAgent)
    ensures it.alias == ua.alias
    ensures it.textColor == TextColorOf(ua) && it.badgeColor == BgColorOf(ua)
  {
    Item(ua.id == activeId, ua.name + ModeLabel(ua.mode), Preview(ua.userAgent), ua.alias,
      TextColorOf(ua), BgColorOf(ua))
  }

  /** The rendered list: the empty state, or one item per profile in order. */
  datatype Rendered = EmptyState | Items(items: seq<Item>)

  function Render(v: ListView): (r: Rendered)
    ensures r.EmptyState? <==> v.userAgents == []
    ensures r.Items? ==> |r.items| == |v.userAgents|
                         && forall k :: 0 <= k < |v.userAgents| ==> r.items[k] == CreateItem(v.userAgents[k], v.activeId)
  {
    if v.userAgents == [] then EmptyState
    else Items(seq(|v.userAgents|, k requires 0 <= k < |v.userAgents| => CreateItem(v.userAgents[k], v.activeId)))
  }

  /** With a stored list the popup and the badge agree: the badge names a
      profile exactly when the popup marks some item active, and it is the
      first item marked. Without one the badge stays as it was, while the popup
      shows the built-in list with the item of the active id marked (the
      default item when no other id is stored). */
  lemma BadgeAgreesWithPopup(st: StoreState)
    ensures st.userAgents.Some? && st.userAgents.value != [] ==>
              var items := Render(LoadView(st)).items;
              && (ChooseBadge(st).Some? <==> exists k :: 0 <= k < |items| && items[k].active)
              && (ChooseBadge(st).Some? ==>
                    var found := FindById(st.userAgents.value, ActiveOrDefault(st.activeId)).value;
                    ChooseBadge(st).value.title == TITLE_PREFIX + found.name)
    ensures st.userAgents.None? ==>
              ChooseBadge(st).None?
              && (ActiveOrDefault(st.activeId) == DEFAULT_ID ==> Render(LoadView(st)).items[0].active)
  {
    if st.userAgents.Some? && st.userAgents.value != [] {
      var items := Render(LoadView(st)).items;
      if ChooseBadge(st).None? {
        forall k | 0 <= k < |items| ensures !items[k].active {
          assert items[k] == CreateItem(st.userAgents.value[k], ActiveOrDefault(st.activeId));
        }
      } else {
        var found := FindById(st.userAgents.value, ActiveOrDefault(st.activeId)).value;
        var k :| 0 <= k < |st.userAgents.value| && st.userAgents.value[k] == found;
        assert items[k].active;
      }
    }
  }

  /** The store after `activateUserAgent`: the chosen id is active, written
      before anything else happens. */
  function Activated(st: StoreState, id: string): (r: StoreState)
    ensures r.activeId == Some(id)
    ensures r.userAgents == st.userAgents
  {
    StoreState(st.userAgents, Some(id))
  }

  /** The message `activateUserAgent` sends: the first stored profile with
      the id, or none; with no stored list the lookup throws and nothing is
      sent. */
  function ActivationMessage(st: StoreState, id: string): (m: Option<Message>)
    ensures m.Some? <==> st.userAgents.Some?
    ensures m.Some? ==> m.value.action == SET_USER_AGENT_ACTION
                        && m.value.userAgent == FindById(st.userAgents.value, id)
  {
    if st.userAgents.None? then None
    else Some(Message(SET_USER_AGENT_ACTION, FindById(st.userAgents.value, id)))
  }

  /** Activating an id no stored profile has sends an empty message, and the
      background worker then clears every rule; activating a stored profile
      makes the badge name it. */
  lemma ActivationEffect(st: StoreState, id: string)
    requires st.userAgents.Some?
    ensures FindById(st.userAgents.value, id).None? ==>
              DesiredRules(ActivationMessage(st, id).value.userAgent) == []
    ensures id != "" && FindById(st.userAgents.value, id).Some? ==>
              ChooseBadge(Activated(st, id)).Some?
              && ChooseBadge(Activated(st, id)).value.title
                 == TITLE_PREFIX + FindById(st.userAgents.value, id).value.name
  {
  }

  /** `activateUserAgent`. */
  method ActivateUserAgent(store: Store, id: string) returns (sent: Option<Message>)
    modifies store
    ensures store.State() == Activated(old(store.State()), id)
    ensures sent == ActivationMessage(old(store.State()), id)
  {
    store.activeId := Some(id);
    if store.userAgents.None? {
      sent := None;
      return;
    }
    var userAgent := FindById(store.userAgents.value, id);
    sent := Some(Message(SET_USER_AGENT_ACTION, userAgent));
  }
}
