/** The options page: the profile cards, the add-profile form with its
    colour pickers, and deletion. */
module Options {
  import opened Wrappers
  import opened Text
  import opened Profiles
  import opened Storage
  import opened Rules

  const MISSING_FIELDS_ALERT: string := "Por favor completa todos los campos obligatorios"
  const APPEND_TEXT: string := "Agregar"
  const REPLACE_TEXT: string := "Reemplazar"

  /** The values of the add-profile form's fields, as typed. */
  datatype AddForm = AddForm(
    alias: string,
    name: string,
    mode: string,
    userAgent: string,
    badgeTextColor: string,
    badgeBgColor: string)

  /** The profile `addUserAgent` builds under the new id: refused (with the
      alert) when the alias, name or user-agent field is blank; otherwise the
      alias trimmed and upper-cased, name and user-agent trimmed, mode and
      colours as given. */
  function NewProfile(form: AddForm, id: string): (r: Result<Profile, string>)
    ensures r.Err? <==> AllWhitespace(form.alias) || AllWhitespace(form.name) || AllWhitespace(form.userAgent)
    ensures r.Err? ==> r.error == MISSING_FIELDS_ALERT
    ensures r.Ok? ==> r.value.id == id && r.value.mode == form.mode
                      && r.value.badgeTextColor == form.badgeTextColor
                      && r.value.badgeBgColor == form.badgeBgColor
    ensures r.Ok? ==> r.value.alias == Upper(Trim(form.alias)) && r.value.name == Trim(form.name)
                      && r.value.userAgent == Trim(form.userAgent)
  {
    var alias := Upper(Trim(form.alias));
    var name := Trim(form.name);
    var userAgent := Trim(form.userAgent);
    if alias == [] || name == [] || userAgent == [] then Err(MISSING_FIELDS_ALERT)
    else Ok(Profile(id, name, alias, userAgent, form.mode, form.badgeTextColor, form.badgeBgColor))
  }

  /** A stored new profile never has surrounding whitespace in its alias,
      name or user-agent, nor a lower-case ASCII letter in its alias. */
  lemma NewProfileClean(form: AddForm, id: string)
    requires NewProfile(form, id).Ok?
    ensures var p := NewProfile(form, id).value;
            && !IsJsWhitespace(p.alias[0]) && !IsJsWhitespace(p.alias[|p.alias| - 1])
            && !IsJsWhitespace(p.name[0]) && !IsJsWhitespace(p.name[|p.name| - 1])
            && !IsJsWhitespace(p.userAgent[0]) && !IsJsWhitespace(p.userAgent[|p.userAgent| - 1])
            && (forall k :: 0 <= k < |p.alias| ==> !('a' <= p.alias[k] <= 'z'))
  {
    var p := NewProfile(form, id).value;
    var t := Trim(form.alias);
    assert p.alias == Upper(t) && |t| > 0;
    UpperKeepsEnds(t);
  }

  /** Upper-casing a string without surrounding whitespace keeps it so. */
  lemma UpperKeepsEnds(t: string)
    requires t != [] && !IsJsWhitespace(t[0]) && !IsJsWhitespace(t[|t| - 1])
    ensures !IsJsWhitespace(Upper(t)[0]) && !IsJsWhitespace(Upper(t)[|t| - 1])
  {
    assert Upper(t)[0] == UpperChar(t[0]);
    assert Upper(t)[|t| - 1] == UpperChar(t[|t| - 1]);
  }

  /** The store after `addUserAgent`: the new profile appended to the stored
      list (an absent list counts as empty), `activeId` untouched. */
  function Added(st: StoreState, form: AddForm, id: string): (r: StoreState)
    ensures r.activeId == st.activeId
    ensures NewProfile(form, id).Err? ==> r == st
    ensures NewProfile(form, id).Ok? ==>
              r.userAgents == Some(st.userAgents.GetOr([]) + [NewProfile(form, id).value])
  {
    match NewProfile(form, id)
    case Err(_) => st
    case Ok(p) => StoreState(Some(st.userAgents.GetOr([]) + [p]), st.activeId)
  }

  /** A refused add stores nothing; an accepted one appends exactly one
      profile at the end and keeps every earlier profile in its place. */
  lemma AddedAppendsOne(st: StoreState, form: AddForm, id: string)
    ensures NewProfile(form, id).Err? ==> Added(st, form, id) == st
    ensures NewProfile(form, id).Ok? ==>
              var before := st.userAgents.GetOr([]);
              var after := Added(st, form, id).userAgents.value;
              && |after| == |before| + 1
              && after[..|before|] == before
              && after[|before|] == NewProfile(form, id).value
              && Added(st, form, id).activeId == st.activeId
  {
  }

  /** `Date.now().toString()`: a non-empty string of decimal digits. */
  predicate IsTimestampId(id: string) {
    |id| > 0 && forall k :: 0 <= k < |id| ==> '0' <= id[k] <= '9'
  }

  /** A timestamp id is never the reserved one, so adding a profile keeps the
      list invariant. */
  lemma AddedKeepsWellFormed(st: StoreState, form: AddForm, id: string)
    requires st.userAgents.Some? && WellFormedList(st.userAgents.value)
    requires IsTimestampId(id)
    ensures WellFormedList(Added(st, form, id).userAgents.value)
  {
    assert id[0] != DEFAULT_ID[0];
    if NewProfile(form, id).Ok? {
      AppendKeepsWellFormed(st.userAgents.value, NewProfile(form, id).value);
    }
  }

  /** `addUserAgent`; the new id is a parameter. */
  method AddUserAgent(store: Store, form: AddForm, newId: string) returns (r: Result<Profile, string>)
    modifies store
    ensures r == NewProfile(form, newId)
    ensures store.State() == Added(old(store.State()), form, newId)
  {
    r := NewProfile(form, newId);
    if r.Err? {
      return;
    }
    var userAgents := store.userAgents.GetOr([]);
    userAgents := userAgents + [r.value];
    store.userAgents := Some(userAgents);
  }

  /** The store after `deleteUserAgent`, given the answer to the confirmation
      prompt. */
  function Deleted(st: StoreState, id: string, confirmed: bool): (r: StoreState)
    ensures !confirmed ==> r == st
    ensures confirmed ==> r.userAgents.Some?
    ensures confirmed ==> forall p :: p in r.userAgents.value <==> p in st.userAgents.GetOr([]) && p.id != id
    ensures confirmed && st.activeId == Some(id) ==> r.activeId == Some(DEFAULT_ID)
    ensures confirmed && st.activeId != Some(id) ==> r.activeId == st.activeId
  {
    if !confirmed then st
    else StoreState(Some(WithoutId(st.userAgents.GetOr([]), id)),
                    if st.activeId == Some(id) then Some(DEFAULT_ID) else st.activeId)
  }

  /** The message `deleteUserAgent` sends: only when the deleted profile was
      active, carrying the default profile of the filtered list, if any. */
  function DeleteMessage(st: StoreState, id: string, confirmed: bool): (m: Option<Message>)
    ensures m.Some? <==> confirmed && st.activeId == Some(id)
    ensures m.Some? ==> m.value.action == SET_USER_AGENT_ACTION
    ensures m.Some? ==> m.value.userAgent == FindById(Deleted(st, id, confirmed).userAgents.value, DEFAULT_ID)
  {
    if confirmed && st.activeId == Some(id)
    then Some(Message(SET_USER_AGENT_ACTION, FindById(WithoutId(st.userAgents.GetOr([]), id), DEFAULT_ID)))
    else None
  }

  /** Deletion removes every profile with the id and keeps the count of all
      other ids; `activeId` falls back to the default exactly when the
      deleted profile was active, and only then is a message sent. */
  lemma DeletedEffect(st: StoreState, id: string, confirmed: bool, other: string)
    ensures !confirmed ==> Deleted(st, id, confirmed) == st && DeleteMessage(st, id, confirmed).None?
    ensures confirmed ==>
              var after := Deleted(st, id, confirmed);
              && FindById(after.userAgents.value, id).None?
              && CountId(after.userAgents.value, other)
                 == (if other == id then 0 else CountId(st.userAgents.GetOr([]), other))
              && (after.activeId == Some(DEFAULT_ID) <==> st.activeId == Some(id) || st.activeId == Some(DEFAULT_ID))
              && (st.activeId != Some(id) ==> after.activeId == st.activeId)
              && (DeleteMessage(st, id, confirmed).Some? <==> st.activeId == Some(id))
  {
    CountIdWithoutId(st.userAgents.GetOr([]), id, other);
    CountIdWithoutId(st.userAgents.GetOr([]), id, id);
  }

  /** Whatever list the deletion leaves, the message it sends makes the
      background worker clear the rule table: the profile it carries is
      either missing or the default one. */
  lemma DeleteMessageClearsRules(st: StoreState, id: string, confirmed: bool)
    requires DeleteMessage(st, id, confirmed).Some?
    ensures DesiredRules(DeleteMessage(st, id, confirmed).value.userAgent) == []
  {
  }

  /** `deleteUserAgent`; the answer to `confirm` is a parameter. */
  method DeleteUserAgent(store: Store, id: string, confirmed: bool) returns (sent: Option<Message>)
    modifies store
    ensures sent == DeleteMessage(old(store.State()), id, confirmed)
    ensures store.State() == Deleted(old(store.State()), id, confirmed)
  {
    sent := None;
    if !confirmed {
      return;
    }
    var userAgents := store.userAgents.GetOr([]);
    var activeId := store.activeId;
    userAgents := WithoutId(userAgents, id);
    if activeId == Some(id) {
      store.activeId := Some(DEFAULT_ID);
      sent := Some(Message(SET_USER_AGENT_ACTION, FindById(userAgents, DEFAULT_ID)));
    }
    store.userAgents := Some(userAgents);
  }

  /** What one card of the list shows. */
  datatype Card = Card(
    isDefault: bool,
    hasDeleteControl: bool,
    name: string,
    alias: string,
    modeText: string,
    preview: string,
    textColor: string,
    badgeColor: string)

  /** `createUserAgentCard`: the default profile is tagged and has no delete
      control; the preview is the whole user-agent string, or a placeholder
      when it is empty; missing colours fall back. */
  function CreateCard(ua: Profile): (c: Card)
    ensures c.hasDeleteControl <==> ua.id != DEFAULT_ID
    ensures c.isDefault == !c.hasDeleteControl
    ensures c.name == ua.name && c.alias == ua.alias
    ensures c.modeText == (if ua.mode == APPEND_MODE then APPEND_TEXT else REPLACE_TEXT)
    ensures ua.userAgent != "" ==> c.preview == ua.userAgent
    ensures ua.userAgent == "" ==> c.preview == BROWSER_DEFAULT_PREVIEW
    ensures c.textColor != "" && c.badgeColor != ""
    ensures c.textColor == TextColorOf(ua) && c.badgeColor == BgColorOf(ua)
  {
    Card(ua.id == DEFAULT_ID, ua.id != DEFAULT_ID, ua.name, ua.alias,
      if ua.mode == APPEND_MODE then APPEND_TEXT else REPLACE_TEXT,
      if ua.userAgent != "" then ua.userAgent else BROWSER_DEFAULT_PREVIEW,
      TextColorOf(ua), BgColorOf(ua))
  }

  /** The options page's list: the empty state, or one card per profile in
      order. */
  datatype CardList = NoCards | Cards(cards: seq<Card>)

  /** `loadUserAgents` on the options page: the stored list, or the built-in
      one when none is stored, shown card by card. */
  function LoadCards(stored: Option<seq<Profile>>): (r: CardList)
    ensures r.NoCards? <==> stored.Some? && stored.value == []
    ensures r.Cards? ==> var shown := stored.GetOr(DEFAULT_USER_AGENTS);
                         && |r.cards| == |shown|
                         && forall k :: 0 <= k < |shown| ==> r.cards[k] == CreateCard(shown[k])
  {
    var shown := stored.GetOr(DEFAULT_USER_AGENTS);
    if shown == [] then NoCards
    else Cards(seq(|shown|, k requires 0 <= k < |shown| => CreateCard(shown[k])))
  }

  /** Over a well-formed list, or when nothing is stored, exactly one card is
      tagged as the default and lacks a delete control. */
  lemma {:induction false} LoadCardsOneDefault(stored: Option<seq<Profile>>)
    requires stored.None? || WellFormedList(stored.value)
    ensures LoadCards(stored).Cards?
    ensures var cards := LoadCards(stored).cards;
            && (exists k :: 0 <= k < |cards| && cards[k].isDefault)
            && forall j, k :: 0 <= j < |cards| && 0 <= k < |cards| && cards[j].isDefault && cards[k].isDefault ==> j == k
  {
    var shown := stored.GetOr(DEFAULT_USER_AGENTS);
    if stored.None? {
      DefaultListWellFormed();
    }
    WellFormedDefault(shown);
    var cards := LoadCards(stored).cards;
    var d :| 0 <= d < |shown| && shown[d] == FindById(shown, DEFAULT_ID).value;
    assert cards[d].isDefault;
    forall j, k | 0 <= j < |cards| && 0 <= k < |cards| && cards[j].isDefault && cards[k].isDefault
      ensures j == k
    {
      assert shown[j].id == DEFAULT_ID && shown[k].id == DEFAULT_ID;
      UniqueHolder(shown, DEFAULT_ID, j, k);
    }
  }

  /** The default profile cannot be deleted from the page: deleting the
      profile of any card that has a delete control keeps the list invariant
      and leaves the default profile in place. */
  lemma CardDeletionKeepsDefault(st: StoreState, ua: Profile, confirmed: bool)
    requires st.userAgents.Some? && WellFormedList(st.userAgents.value)
    requires CreateCard(ua).hasDeleteControl
    ensures WellFormedList(Deleted(st, ua.id, confirmed).userAgents.value)
    ensures FindById(Deleted(st, ua.id, confirmed).userAgents.value, DEFAULT_ID)
            == FindById(st.userAgents.value, DEFAULT_ID)
  {
    if confirmed {
      WithoutIdKeepsWellFormed(st.userAgents.value, ua.id);
    }
  }

  /** What the colour picker holds after typing `value` into its hex field:
      the value when it is a valid colour, otherwise what it held. */
  function HexFieldInput(picker: string, value: string): (r: string)
    ensures r == value || r == picker
    ensures IsHexColor(value) ==> r == value
    ensures !IsHexColor(value) ==> r == picker
  {
    if IsHexColor(value) then value else picker
  }

  /** What the hex field shows after the picker changes: its value in upper
      case, which is a valid colour exactly when the picker's value is. */
  function PickerInput(pickerValue: string): (r: string)
    ensures |r| == |pickerValue|
    ensures forall k :: 0 <= k < |r| ==> !('a' <= r[k] <= 'z')
    ensures IsHexColor(r) <==> IsHexColor(pickerValue)
  {
    HexColorIgnoresCase(pickerValue);
    Upper(pickerValue)
  }

  /** The picker only ever holds a valid colour: typing cannot make it
      invalid, and whatever the picker shows in the hex field is accepted back
      (in upper case). */
  lemma PickerStaysValid(picker: string, value: string)
    requires IsHexColor(picker)
    ensures IsHexColor(HexFieldInput(picker, value))
    ensures HexFieldInput(value, PickerInput(picker)) == Upper(picker)
  {
    HexColorIgnoresCase(picker);
  }
}
