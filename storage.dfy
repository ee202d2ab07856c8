/** The extension's local storage (`chrome.storage.local`): the profile list
    and the active profile id, either of which may be absent. */
module Storage {
  import opened Wrappers
  import opened Profiles

  datatype StoreState = StoreState(userAgents: Option<seq<Profile>>, activeId: Option<string>)

  class Store {
    var userAgents: Option<seq<Profile>>
    var activeId: Option<string>

    constructor (userAgents: Option<seq<Profile>>, activeId: Option<string>)
      ensures this.userAgents == userAgents && this.activeId == activeId
    {
      this.userAgents := userAgents;
      this.activeId := activeId;
    }

    function State(): StoreState
      reads this
    {
      StoreState(userAgents, activeId)
    }
  }

  /** `result.activeId || 'default'`: the stored id when it is a non-empty
      string, the reserved default id otherwise. */
  function ActiveOrDefault(activeId: Option<string>): (id: string)
    ensures id != ""
    ensures activeId.Some? && activeId.value != "" ==> id == activeId.value
    ensures activeId.None? || activeId.value == "" ==> id == DEFAULT_ID
  {
    if activeId.Some? && activeId.value != "" then activeId.value else DEFAULT_ID
  }

  /** The store after `initializeUserAgents`. */
  function Seeded(st: StoreState): (r: StoreState)
    ensures r.userAgents.Some?
    ensures st.userAgents.Some? ==> r == st
    ensures st.userAgents.None? ==> r.userAgents == Some(DEFAULT_USER_AGENTS) && r.activeId == Some(DEFAULT_ID)
  {
    if st.userAgents.None? then StoreState(Some(DEFAULT_USER_AGENTS), Some(DEFAULT_ID)) else st
  }

  /** Seeding writes only into a store without a list (an empty list counts
      as present), always leaves a list, is idempotent, and a seeded store
      holds a well-formed list whose active profile is the default one. */
  lemma SeededProperties(st: StoreState)
    ensures Seeded(st).userAgents.Some?
    ensures st.userAgents.Some? ==> Seeded(st) == st
    ensures Seeded(Seeded(st)) == Seeded(st)
    ensures st.userAgents.None? ==>
              WellFormedList(Seeded(st).userAgents.value)
              && Seeded(st).activeId == Some(DEFAULT_ID)
              && FindById(Seeded(st).userAgents.value, DEFAULT_ID) == Some(DEFAULT_USER_AGENTS[0])
  {
    DefaultListWellFormed();
  }

  /** `initializeUserAgents` (the options page and the popup run the same
      code): seed the defaults and `activeId = 'default'` when no list is
      stored. */
  method InitializeUserAgents(store: Store)
    modifies store
    ensures store.State() == Seeded(old(store.State()))
  {
    if store.userAgents.None? {
      store.userAgents := Some(DEFAULT_USER_AGENTS);
      store.activeId := Some(DEFAULT_ID);
    }
  }
}
