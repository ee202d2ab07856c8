/** User-agent profiles as the extension stores them, the built-in default
    list, and the list operations every page uses: `find` by id and
    `filter` out an id. */
module Profiles {
  import opened Wrappers

  /** The reserved id of the profile that stands for the browser's own
      user-agent. */
  const DEFAULT_ID: string := "default"
  const APPEND_MODE: string := "append"
  const REPLACE_MODE: string := "replace"

  /** Badge colours shown when a profile has none. */
  const DEFAULT_TEXT_COLOR: string := "#ffffff"
  const DEFAULT_BG_COLOR: string := "#1a73e8"
  /** Shown in place of an empty user-agent string by both pages. */
  const BROWSER_DEFAULT_PREVIEW: string := "User-agent por defecto del navegador"

  /** A stored profile. A property missing from the stored object is the
      empty string here. The two behave alike under JavaScript's truthiness
      tests, but not where the value is printed (a missing name or alias shows
      `undefined`) or compared with `===`. `mode` is kept as the stored
      string: only "append" is special. */
  datatype Profile = Profile(
    id: string,
    name: string,
    alias: string,
    userAgent: string,
    mode: string,
    badgeTextColor: string,
    badgeBgColor: string)

  /** The runtime message the pages send to the background worker. */
  const SET_USER_AGENT_ACTION: string := "setUserAgent"
  datatype Message = Message(action: string, userAgent: Option<Profile>)

  /** `DEFAULT_USER_AGENTS`, identical in the options page and the popup. */
  const DEFAULT_USER_AGENTS: seq<Profile> := [
    Profile(DEFAULT_ID, "Por defecto (Chrome)", "DEF", "", REPLACE_MODE, "#ffffff", "#666666"),
    Profile("iphone", "iPhone 14", "iOS",
      "Mozilla/5.0 (iPhone; CPU iPhone OS 16_0 like Mac OS X) AppleWebKit/605.1.15 (KHTML, like Gecko) Version/16.0 Mobile/15E148 Safari/604.1",
      REPLACE_MODE, "#ffffff", "#1a73e8"),
    Profile("android", "Android", "AND",
      "Mozilla/5.0 (Linux; Android 13) AppleWebKit/537.36 (KHTML, like Gecko) Chrome/112.0.0.0 Mobile Safari/537.36",
      REPLACE_MODE, "#ffffff", "#34a853")
  ]

  /** `s.find(ua => ua.id === id)`: absent exactly when no profile has the
      id; otherwise a profile of `s` with that id. */
  function FindById(s: seq<Profile>, id: string): (r: Option<Profile>)
    ensures r.None? <==> forall k :: 0 <= k < |s| ==> s[k].id != id
    ensures r.Some? ==> r.value in s && r.value.id == id
  {
    if s == [] then None
    else if s[0].id == id then Some(s[0])
    else FindById(s[1..], id)
  }

  /** `find` returns the FIRST match: in `a + b` a match in `a` wins. */
  lemma {:induction false} FindByIdFirst(a: seq<Profile>, b: seq<Profile>, id: string)
    ensures FindById(a + b, id) == if FindById(a, id).Some? then FindById(a, id) else FindById(b, id)
  {
    if a != [] {
      assert (a + b)[1..] == a[1..] + b;
      FindByIdFirst(a[1..], b, id);
    } else {
      assert a + b == b;
    }
  }

  /** `s.filter(ua => ua.id !== id)`: exactly the profiles of `s` with
      another id. */
  function WithoutId(s: seq<Profile>, id: string): (r: seq<Profile>)
    ensures |r| <= |s|
    ensures forall p :: p in r <==> p in s && p.id != id
  {
    if s == [] then []
    else if s[0].id == id then WithoutId(s[1..], id)
    else [s[0]] + WithoutId(s[1..], id)
  }

  /** The filter keeps order: filtering a concatenation filters each part. */
  lemma {:induction false} WithoutIdConcat(a: seq<Profile>, b: seq<Profile>, id: string)
    ensures WithoutId(a + b, id) == WithoutId(a, id) + WithoutId(b, id)
  {
    if a == [] {
      assert a + b == b;
    } else {
      assert (a + b)[1..] == a[1..] + b;
      WithoutIdConcat(a[1..], b, id);
    }
  }

  /** Filtering out an id no profile has changes nothing. */
  lemma {:induction false} WithoutAbsentId(s: seq<Profile>, id: string)
    requires forall k :: 0 <= k < |s| ==> s[k].id != id
    ensures WithoutId(s, id) == s
  {
    if s != [] {
      WithoutAbsentId(s[1..], id);
    }
  }

  /** How many profiles of `s` carry the id. */
  function CountId(s: seq<Profile>, id: string): (n: nat)
    ensures n <= |s|
    ensures n == 0 <==> FindById(s, id).None?
  {
    if s == [] then 0
    else (if s[0].id == id then 1 else 0) + CountId(s[1..], id)
  }

  lemma {:induction false} CountIdAppend(s: seq<Profile>, p: Profile, id: string)
    ensures CountId(s + [p], id) == CountId(s, id) + if p.id == id then 1 else 0
  {
    if s == [] {
      assert s + [p] == [p];
    } else {
      assert (s + [p])[1..] == s[1..] + [p];
      CountIdAppend(s[1..], p, id);
    }
  }

  /** Filtering removes every profile with the id and keeps the count of
      every other id. */
  lemma {:induction false} CountIdWithoutId(s: seq<Profile>, id: string, other: string)
    ensures CountId(WithoutId(s, id), other) == if other == id then 0 else CountId(s, other)
  {
    if s != [] {
      CountIdWithoutId(s[1..], id, other);
      if s[0].id != id {
        assert ([s[0]] + WithoutId(s[1..], id))[1..] == WithoutId(s[1..], id);
      }
    }
  }

  /** When only one profile carries the id, any two positions holding it
      are the same position. */
  lemma {:induction false} UniqueHolder(s: seq<Profile>, id: string, j: nat, k: nat)
    requires CountId(s, id) == 1
    requires j < |s| && k < |s| && s[j].id == id && s[k].id == id
    ensures j == k
  {
    if s[0].id == id {
      assert FindById(s[1..], id).None?;
      forall i | 1 <= i < |s| ensures s[i].id != id {
        assert s[i] == s[1..][i - 1];
      }
    } else {
      UniqueHolder(s[1..], id, j - 1, k - 1);
    }
  }

  /** The profile-list invariant: exactly one profile has the reserved
      default id, and its user-agent string is empty. */
  predicate WellFormedList(s: seq<Profile>) {
    CountId(s, DEFAULT_ID) == 1
    && forall k :: 0 <= k < |s| && s[k].id == DEFAULT_ID ==> s[k].userAgent == ""
  }

  /** The built-in list satisfies the invariant; its default profile comes
      first and has an empty user-agent. */
  lemma DefaultListWellFormed()
    ensures WellFormedList(DEFAULT_USER_AGENTS)
    ensures FindById(DEFAULT_USER_AGENTS, DEFAULT_ID) == Some(DEFAULT_USER_AGENTS[0])
    ensures DEFAULT_USER_AGENTS[0].userAgent == ""
  {
    var s := DEFAULT_USER_AGENTS;
    assert s[1..][1..][1..] == [];
    assert CountId(s[1..], DEFAULT_ID) == 0;
  }

  /** In a well-formed list, looking up the default id finds a profile
      whose user-agent is empty. */
  lemma WellFormedDefault(s: seq<Profile>)
    requires WellFormedList(s)
    ensures FindById(s, DEFAULT_ID).Some?
    ensures FindById(s, DEFAULT_ID).value.userAgent == ""
  {
  }

  /** Appending a profile with another id keeps the invariant. */
  lemma AppendKeepsWellFormed(s: seq<Profile>, p: Profile)
    requires WellFormedList(s) && p.id != DEFAULT_ID
    ensures WellFormedList(s + [p])
  {
    CountIdAppend(s, p, DEFAULT_ID);
  }

  /** Filtering out any id but the default one keeps the invariant and the
      default profile itself. */
  lemma WithoutIdKeepsWellFormed(s: seq<Profile>, id: string)
    requires WellFormedList(s) && id != DEFAULT_ID
    ensures WellFormedList(WithoutId(s, id))
    ensures FindById(WithoutId(s, id), DEFAULT_ID) == FindById(s, DEFAULT_ID)
  {
    CountIdWithoutId(s, id, DEFAULT_ID);
    var r := WithoutId(s, id);
    forall k | 0 <= k < |r| && r[k].id == DEFAULT_ID ensures r[k].userAgent == "" {
      assert r[k] in s;
    }
    FindByIdAfterFilter(s, id, DEFAULT_ID);
  }

  /** Looking up an id other than the filtered one is not affected by the
      filter. */
  lemma {:induction false} FindByIdAfterFilter(s: seq<Profile>, id: string, other: string)
    requires other != id
    ensures FindById(WithoutId(s, id), other) == FindById(s, other)
  {
    if s != [] {
      FindByIdAfterFilter(s[1..], id, other);
      if s[0].id != id {
        assert ([s[0]] + WithoutId(s[1..], id))[1..] == WithoutId(s[1..], id);
      }
    }
  }

  /** `ua.badgeTextColor || '#ffffff'`: never empty; the stored colour
      whenever there is one. */
  function TextColorOf(p: Profile): (c: string)
    ensures c != ""
    ensures p.badgeTextColor != "" ==> c == p.badgeTextColor
    ensures p.badgeTextColor == "" ==> c == DEFAULT_TEXT_COLOR
  {
    if p.badgeTextColor != "" then p.badgeTextColor else DEFAULT_TEXT_COLOR
  }

  /** `ua.badgeBgColor || '#1a73e8'`: never empty; the stored colour
      whenever there is one. */
  function BgColorOf(p: Profile): (c: string)
    ensures c != ""
    ensures p.badgeBgColor != "" ==> c == p.badgeBgColor
    ensures p.badgeBgColor == "" ==> c == DEFAULT_BG_COLOR
  {
    if p.badgeBgColor != "" then p.badgeBgColor else DEFAULT_BG_COLOR
  }
}
