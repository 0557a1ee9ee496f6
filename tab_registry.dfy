/** The open-view registry both form handlers keep: a map from a form's
    cache name to the tab that shows it, over a tab sheet whose tabs carry a
    caption and a content, with one tab selected. The handlers' classes
    update their fields exactly as these transitions say. */
module TabRegistry {
  import opened Meta

  type TabId = nat

  datatype Tab<C> = Tab(caption: string, content: C)

  datatype Sheet<C> = Sheet(
    openedForms: map<string, TabId>,  // cache name to the tab showing that form
    tabs: map<TabId, Tab<C>>,         // the tabs on the tab sheet
    selected: Option<TabId>,
    nextTab: TabId)               // the identity the next addTab hands out

  const ListPrefix: string := "DEF_LIST_"
  const ElementPrefix: string := "DEF_ELEM_"

  /** Cache name of a class's list form. */
  function ListKey(canonicalName: string): string {
    ListPrefix + canonicalName
  }

  /** Cache name of an element form: the prefix, the class name, then the
      identity token the handler version derives from the entity. */
  function ElementKey(canonicalName: string, token: string): string {
    ElementPrefix + canonicalName + token
  }

  /** A list form's cache name never equals an element form's. */
  lemma ListAndElementKeysDiffer(a: string, b: string, token: string)
    ensures ListKey(a) != ElementKey(b, token)
  {
    assert ListKey(a)[4] == 'L';
    assert ElementKey(b, token)[4] == 'E';
  }

  lemma ListKeyInjective(a: string, b: string)
    ensures ListKey(a) == ListKey(b) <==> a == b
  {
    if ListKey(a) == ListKey(b) {
      assert a == ListKey(a)[|ListPrefix|..];
      assert b == ListKey(b)[|ListPrefix|..];
    }
  }

  /** For one class, two element forms share a cache name exactly when
      their identity tokens are equal. */
  lemma ElementKeySameClass(c: string, t1: string, t2: string)
    ensures ElementKey(c, t1) == ElementKey(c, t2) <==> t1 == t2
  {
    var n := |ElementPrefix + c|;
    if ElementKey(c, t1) == ElementKey(c, t2) {
      assert t1 == ElementKey(c, t1)[n..];
      assert t2 == ElementKey(c, t2)[n..];
    }
  }

  ghost predicate Valid<C>(s: Sheet<C>) {
    && (forall k :: k in s.openedForms ==> s.openedForms[k] in s.tabs)
    && (forall t :: t in s.tabs ==> t < s.nextTab)
    && (s.selected.Some? ==> s.selected.value in s.tabs)
  }

  function Empty<C>(): (r: Sheet<C>)
    ensures Valid(r) && r.openedForms == map[] && r.tabs == map[]
  {
    Sheet(map[], map[], None, 0)
  }

  /** show*Form: check, then insert. A cache hit selects the registered tab
      and changes nothing else. A miss adds a tab holding content to the
      sheet; its caption is then computed, and when that throws the new tab
      stays on the sheet unregistered and the exception propagates;
      otherwise the tab gets the caption, is registered under key and is
      selected. */
  function OpenOrFocus<C>(s: Sheet<C>, key: string, content: C, caption: Result<string>): (r: (Sheet<C>, Outcome))
    requires Valid(s)
    ensures Valid(r.0)
    ensures r.1.Pass? <==> (key in s.openedForms || caption.Success?)
    ensures r.1.Pass? ==> key in r.0.openedForms && r.0.selected == Some(r.0.openedForms[key])
    ensures key in s.openedForms ==> r.0.openedForms == s.openedForms && r.0.tabs == s.tabs
    ensures key !in s.openedForms ==> s.nextTab !in s.tabs && r.0.nextTab == s.nextTab + 1
    ensures key !in s.openedForms && caption.Success? ==>
      && r.0.openedForms == s.openedForms[key := s.nextTab]
      && r.0.tabs == s.tabs[s.nextTab := Tab(caption.value, content)]
    ensures key !in s.openedForms && caption.Failure? ==>
      && r == (s.(tabs := s.tabs[s.nextTab := Tab("", content)], nextTab := s.nextTab + 1), Fail(caption.error))
  {
    if key in s.openedForms then
      (s.(selected := Some(s.openedForms[key])), Pass)
    else
      var t := s.nextTab;
      var added := s.(tabs := s.tabs[t := Tab("", content)], nextTab := t + 1);
      match caption
      case Failure(e) => (added, Fail(e))
      case Success(c) =>
        (added.(tabs := s.tabs[t := Tab(c, content)], openedForms := s.openedForms[key := t], selected := Some(t)), Pass)
  }

  /** refreshElementCaption: when oldKey is not registered nothing changes;
      otherwise the caption is computed, and when that throws nothing
      changes either; otherwise the registered tab gets the caption, oldKey
      is removed and newKey maps to the tab. */
  function Rekey<C>(s: Sheet<C>, oldKey: string, newKey: string, caption: Result<string>): (r: (Sheet<C>, Outcome))
    requires Valid(s)
    ensures Valid(r.0)
    ensures oldKey !in s.openedForms ==> r == (s, Pass)
    ensures oldKey in s.openedForms && caption.Failure? ==> r == (s, Fail(caption.error))
    ensures oldKey in s.openedForms && caption.Success? ==>
      var t := s.openedForms[oldKey];
      && r.1 == Pass
      && newKey in r.0.openedForms && r.0.openedForms[newKey] == t
      && (oldKey in r.0.openedForms <==> oldKey == newKey)
      && (forall k :: k != oldKey && k != newKey ==> (k in r.0.openedForms <==> k in s.openedForms))
      && (forall k :: k in r.0.openedForms && k != newKey ==> r.0.openedForms[k] == s.openedForms[k])
      && r.0.tabs == s.tabs[t := Tab(caption.value, s.tabs[t].content)]
      && r.0.selected == s.selected && r.0.nextTab == s.nextTab
  {
    if oldKey !in s.openedForms then (s, Pass)
    else match caption
      case Failure(e) => (s, Fail(e))
      case Success(c) =>
        var t := s.openedForms[oldKey];
        (s.(tabs := s.tabs[t := s.tabs[t].(caption := c)], openedForms := (s.openedForms - {oldKey})[newKey := t]), Pass)
  }

  /** The tab sheet's close handler: every registry entry whose value is the
      closed tab is removed, and no other; the tab leaves the sheet. */
  function Close<C>(s: Sheet<C>, t: TabId): (r: Sheet<C>)
    requires Valid(s) && t in s.tabs
    ensures Valid(r)
    ensures forall k :: k in r.openedForms <==> k in s.openedForms && s.openedForms[k] != t
    ensures forall k :: k in r.openedForms ==> r.openedForms[k] == s.openedForms[k]
    ensures r.tabs == s.tabs - {t}
    ensures r.selected == if s.selected == Some(t) then None else s.selected
  {
    s.(openedForms := map k | k in s.openedForms && s.openedForms[k] != t :: s.openedForms[k],
       tabs := s.tabs - {t},
       selected := if s.selected == Some(t) then None else s.selected)
  }

  /** Opening the same cache name twice builds one tab: the second call is a
      hit and leaves the state as the first left it. */
  lemma {:induction false} OpenTwiceIsHit<C>(s: Sheet<C>, key: string, c1: C, c2: C, cap1: Result<string>, cap2: Result<string>)
    requires Valid(s)
    requires OpenOrFocus(s, key, c1, cap1).1.Pass?
    ensures var s1 := OpenOrFocus(s, key, c1, cap1).0;
      key in s1.openedForms && OpenOrFocus(s1, key, c2, cap2) == (s1, Pass)
  {
    var s1 := OpenOrFocus(s, key, c1, cap1).0;
    assert s1.selected == Some(s1.openedForms[key]);
    assert s1.(selected := Some(s1.openedForms[key])) == s1;
  }

  /** Closing the tab of a form and opening it again is a miss: a new tab is built. */
  lemma CloseThenOpenIsMiss<C>(s: Sheet<C>, key: string, c: C, cap: Result<string>)
    requires Valid(s) && key in s.openedForms
    ensures var s1 := Close(s, s.openedForms[key]);
      key !in s1.openedForms && OpenOrFocus(s1, key, c, cap).0.nextTab == s.nextTab + 1
  {
  }

  /** After a rekey to a different name the old name misses: a second
      refresh under the old name changes nothing. */
  lemma RekeyedOldKeyMisses<C>(s: Sheet<C>, oldKey: string, newKey: string, cap1: Result<string>, cap2: Result<string>, newer: string)
    requires Valid(s) && oldKey in s.openedForms && cap1.Success? && oldKey != newKey
    ensures var s1 := Rekey(s, oldKey, newKey, cap1).0;
      oldKey !in s1.openedForms && Rekey(s1, oldKey, newer, cap2) == (s1, Pass)
  {
  }

  /** Opening one form leaves every other registered entry in place. */
  lemma OpenKeepsOtherEntries<C>(s: Sheet<C>, key: string, other: string, c: C, cap: Result<string>)
    requires Valid(s) && other in s.openedForms && other != key
    ensures var s1 := OpenOrFocus(s, key, c, cap).0;
      other in s1.openedForms && s1.openedForms[other] == s.openedForms[other] && s1.openedForms[other] in s1.tabs
  {
  }
}
