/** The newer generation's form handler on the registry: element forms are
    cached under the class name followed by the entity's hashCode, and tab
    captions come from the class's AgiEntity or AgiForm annotation. */
module AgiFormHandler {
  import opened Meta
  import opened TabRegistry

  /** generateElementCacheName: the element prefix, the canonical class name
      and the decimal hashCode. */
  function CacheName(e: Entity): string {
    ElementKey(e.cls.canonicalName, IntToString(e.hashCode))
  }

  /** For one class, two entities share a cache name exactly when their
      hashCodes are equal, whether or not the entities are equal. */
  lemma CacheNameSameClass(e1: Entity, e2: Entity)
    requires e1.cls.canonicalName == e2.cls.canonicalName
    ensures CacheName(e1) == CacheName(e2) <==> e1.hashCode == e2.hashCode
  {
    ElementKeySameClass(e1.cls.canonicalName, IntToString(e1.hashCode), IntToString(e2.hashCode));
    IntToStringInjective(e1.hashCode, e2.hashCode);
  }

  /** Across classes the cache name does not separate forms: a class whose
      name ends in a digit and a class without that digit can meet. */
  lemma CacheNamesOfTwoClassesCanMeet(c1: EntityClass, c2: EntityClass)
    requires c1.canonicalName == "a.B1" && c2.canonicalName == "a.B"
    ensures CacheName(Entity(c1, map[], 23)) == CacheName(Entity(c2, map[], 123))
  {
    assert IntToString(23) == "23";
    assert IntToString(123) == "123";
  }

  /** The class carries one of the two role annotations. */
  predicate HasRole(cls: EntityClass) {
    cls.agiEntity.Some? || cls.agiForm.Some?
  }

  /** AgiEntity.singleCaption, or AgiForm.caption when only that is present. */
  function Label(cls: EntityClass): (r: string)
    requires HasRole(cls)
    ensures cls.agiEntity.Some? ==> r == cls.agiEntity.value.singleCaption
    ensures cls.agiEntity.None? ==> r == cls.agiForm.value.caption
  {
    if cls.agiEntity.Some? then cls.agiEntity.value.singleCaption else cls.agiForm.value.caption
  }

  /** The part of generateElementCaption after the label: "new" for a new
      instance, else the first @Id field's value text (a null value throws),
      else nothing. */
  function CaptionTail(e: Entity, isNew: bool): Result<string> {
    if isNew then Success("new")
    else match FirstIdIndex(e.cls.fields)
      case None => Success("")
      case Some(i) => IdText(FieldValue(e, e.cls.fields[i].name))
  }

  /** generateElementCaption: a class with neither role annotation throws;
      otherwise the label, a colon, then the tail. */
  function ElementCaption(e: Entity, isNew: bool): Result<string> {
    if !HasRole(e.cls) then Failure(MissingAnnotation)
    else match CaptionTail(e, isNew)
      case Failure(err) => Failure(err)
      case Success(t) => Success(Label(e.cls) + ":" + t)
  }

  /** The caption of a class with a role annotation is its label, a colon
      and then "new" for a new instance, or else the text of the first @Id
      field's value, or nothing when there is no @Id field; a null
      identifier throws. A class without a role annotation throws. */
  lemma ElementCaptionSpec(e: Entity, isNew: bool)
    ensures !HasRole(e.cls) ==> ElementCaption(e, isNew) == Failure(MissingAnnotation)
    ensures HasRole(e.cls) && isNew ==> ElementCaption(e, isNew) == Success(Label(e.cls) + ":" + "new")
    ensures HasRole(e.cls) && !isNew && (forall j :: 0 <= j < |e.cls.fields| ==> !e.cls.fields[j].isId) ==>
      ElementCaption(e, isNew) == Success(Label(e.cls) + ":")
    ensures HasRole(e.cls) && !isNew ==>
      forall j :: 0 <= j < |e.cls.fields| && e.cls.fields[j].isId && (forall i :: 0 <= i < j ==> !e.cls.fields[i].isId) ==>
        ElementCaption(e, isNew) == match FieldValue(e, e.cls.fields[j].name)
          case None => Failure(NullPointer)
          case Some(v) => Success(Label(e.cls) + ":" + v)
  {
    if HasRole(e.cls) && !isNew && (forall j :: 0 <= j < |e.cls.fields| ==> !e.cls.fields[j].isId) {
      assert Label(e.cls) + ":" + "" == Label(e.cls) + ":";
    }
  }

  /** A saved entity is captioned with the label and its identifier, so two
      entities of one class get the same caption exactly when their
      identifiers print alike. */
  lemma ElementCaptionSeparatesIds(e1: Entity, e2: Entity)
    requires e1.cls == e2.cls && HasRole(e1.cls)
    requires ElementCaption(e1, false).Success? && ElementCaption(e2, false).Success?
    ensures ElementCaption(e1, false) == ElementCaption(e2, false) <==> CaptionTail(e1, false) == CaptionTail(e2, false)
  {
    var p := Label(e1.cls) + ":";
    var c1, c2 := ElementCaption(e1, false).value, ElementCaption(e2, false).value;
    if c1 == c2 {
      assert CaptionTail(e1, false).value == c1[|p|..];
      assert CaptionTail(e2, false).value == c2[|p|..];
    }
  }

  /** The caption of a list form's tab: AgiEntity.menuCaption, read through a
      possibly absent annotation. */
  function ListCaption(cls: EntityClass): (r: Result<string>)
    ensures r.Success? <==> cls.agiEntity.Some?
    ensures r.Success? ==> r.value == cls.agiEntity.value.menuCaption
    ensures r.Failure? ==> r.error == NullPointer
  {
    match cls.agiEntity
    case None => Failure(NullPointer)
    case Some(info) => Success(info.menuCaption)
  }

  /** showAbstractListForm on the registry. */
  function ShowList<C>(s: Sheet<C>, cls: EntityClass, content: C): (r: (Sheet<C>, Outcome))
    requires Valid(s)
    ensures Valid(r.0)
    ensures r.1.Pass? <==> (ListKey(cls.canonicalName) in s.openedForms || cls.agiEntity.Some?)
    ensures r.1.Pass? ==>
      ListKey(cls.canonicalName) in r.0.openedForms && r.0.selected == Some(r.0.openedForms[ListKey(cls.canonicalName)])
    ensures ListKey(cls.canonicalName) !in s.openedForms && r.1.Pass? ==>
      s.nextTab in r.0.tabs && r.0.tabs[s.nextTab] == Tab(cls.agiEntity.value.menuCaption, content)
  {
    OpenOrFocus(s, ListKey(cls.canonicalName), content, ListCaption(cls))
  }

  /** showAbstractElementForm on the registry: a class with neither role
      annotation throws before anything changes; otherwise the form is
      focused or opened under the entity's cache name, captioned by
      generateElementCaption. content is the form built on a miss. */
  function ShowElement<C>(s: Sheet<C>, e: Entity, isNew: bool, content: C): (r: (Sheet<C>, Outcome))
    requires Valid(s)
    ensures Valid(r.0)
    ensures !HasRole(e.cls) ==> r == (s, Fail(MissingAnnotation))
    ensures HasRole(e.cls) ==>
      var key := CacheName(e);
      && (r.1.Pass? <==> key in s.openedForms || ElementCaption(e, isNew).Success?)
      && (r.1.Pass? ==> key in r.0.openedForms && r.0.selected == Some(r.0.openedForms[key]))
      && (key in s.openedForms ==> r.0.openedForms == s.openedForms && r.0.tabs == s.tabs)
      && (key !in s.openedForms && r.1.Pass? ==>
            s.nextTab in r.0.tabs && r.0.tabs[s.nextTab] == Tab(ElementCaption(e, isNew).value, content))
  {
    if !HasRole(e.cls) then (s, Fail(MissingAnnotation))
    else OpenOrFocus(s, CacheName(e), content, ElementCaption(e, isNew))
  }

  /** refreshElementCaption on the registry: the tab registered under
      cachedName, if any, is captioned for the saved entity and re-registered
      under the entity's current cache name. */
  function RefreshCaption<C>(s: Sheet<C>, e: Entity, cachedName: string): (r: (Sheet<C>, Outcome))
    requires Valid(s)
    ensures Valid(r.0)
    ensures cachedName !in s.openedForms ==> r == (s, Pass)
    ensures cachedName in s.openedForms && ElementCaption(e, false).Failure? ==> r == (s, Fail(ElementCaption(e, false).error))
    ensures cachedName in s.openedForms && ElementCaption(e, false).Success? ==>
      var t := s.openedForms[cachedName];
      && r.1 == Pass
      && CacheName(e) in r.0.openedForms && r.0.openedForms[CacheName(e)] == t
      && r.0.tabs[t].caption == ElementCaption(e, false).value
      && (cachedName in r.0.openedForms <==> cachedName == CacheName(e))
  {
    Rekey(s, cachedName, CacheName(e), ElementCaption(e, false))
  }

  /** Reopening a list form builds no second tab: once showAbstractListForm
      has opened a class's list, showing it again only focuses that tab. */
  lemma ShowListTwiceIsHit<C>(s: Sheet<C>, cls: EntityClass, c1: C, c2: C)
    requires Valid(s) && ShowList(s, cls, c1).1.Pass?
    ensures var s1 := ShowList(s, cls, c1).0;
      ShowList(s1, cls, c2) == (s1, Pass)
  {
    OpenTwiceIsHit(s, ListKey(cls.canonicalName), c1, c2, ListCaption(cls), ListCaption(cls));
  }

  /** Distinct entities of one class that hash alike share one tab: once the
      first one's form is open, showing the second only focuses that tab. */
  lemma SameHashSharesTab<C>(s: Sheet<C>, e1: Entity, e2: Entity, isNew1: bool, isNew2: bool, c1: C, c2: C)
    requires Valid(s) && e1.cls == e2.cls && e1.hashCode == e2.hashCode
    requires ShowElement(s, e1, isNew1, c1).1.Pass?
    ensures var s1 := ShowElement(s, e1, isNew1, c1).0;
      ShowElement(s1, e2, isNew2, c2) == (s1, Pass)
  {
    CacheNameSameClass(e1, e2);
    OpenTwiceIsHit(s, CacheName(e1), c1, c2, ElementCaption(e1, isNew1), ElementCaption(e2, isNew2));
  }

  /** The element form keeps the cache name it was opened under. When the
      first save changes the hashCode, the refresh moves the tab to the new
      name, and every later refresh under the kept name finds nothing, so
      the tab's caption and name stay as the first save left them. */
  lemma LaterSavesMissTheTab<C>(s: Sheet<C>, cachedName: string, saved1: Entity, saved2: Entity)
    requires Valid(s) && cachedName in s.openedForms
    requires ElementCaption(saved1, false).Success? && CacheName(saved1) != cachedName
    ensures var s1 := RefreshCaption(s, saved1, cachedName).0;
      RefreshCaption(s1, saved2, cachedName) == (s1, Pass)
  {
    RekeyedOldKeyMisses(s, cachedName, CacheName(saved1), ElementCaption(saved1, false), ElementCaption(saved2, false), CacheName(saved2));
  }

  /** A save that leaves the hashCode alone keeps the tab under its name and
      re-captions it. */
  lemma SaveKeepingHashKeepsTab<C>(s: Sheet<C>, e: Entity, saved: Entity)
    requires Valid(s) && CacheName(e) in s.openedForms
    requires saved.cls == e.cls && saved.hashCode == e.hashCode && ElementCaption(saved, false).Success?
    ensures var r := RefreshCaption(s, saved, CacheName(e));
      && r.1 == Pass
      && r.0.openedForms == s.openedForms
      && r.0.tabs[s.openedForms[CacheName(e)]].caption == ElementCaption(saved, false).value
  {
    CacheNameSameClass(e, saved);
    var r := RefreshCaption(s, saved, CacheName(e));
    assert r.0.openedForms == (s.openedForms - {CacheName(e)})[CacheName(e) := s.openedForms[CacheName(e)]];
  }
}
