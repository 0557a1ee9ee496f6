/** The older generation's form handler: one tab per open list or element
    form, looked up by cache name so that asking for a form that is already
    open focuses its tab instead of building it again. */
module JpaFormHandler {
  import opened Meta
  import opened TabRegistry

  /** What a tab shows. The element form this handler builds is recorded by
      the entity and the new-instance flag it was opened with. */
  datatype Content = ListContent(canonicalName: string) | ElementContent(entity: Entity, isNew: bool)

  /** generateElementCaption: "new" for a new instance; otherwise the text
      of the first @Id field's value (a null value throws), or "undefined"
      when the class declares no @Id field. */
  function ElementCaption(e: Entity, isNew: bool): Result<string> {
    if isNew then Success("new")
    else match FirstIdIndex(e.cls.fields)
      case None => Success("undefined")
      case Some(i) => IdText(FieldValue(e, e.cls.fields[i].name))
  }

  /** The caption is "new" for a new instance; otherwise it is decided by the
      first @Id field in declaration order, and is "undefined" when there is
      none. */
  lemma ElementCaptionSpec(e: Entity, isNew: bool)
    ensures isNew ==> ElementCaption(e, isNew) == Success("new")
    ensures !isNew && (forall j :: 0 <= j < |e.cls.fields| ==> !e.cls.fields[j].isId) ==>
      ElementCaption(e, isNew) == Success("undefined")
    ensures !isNew ==>
      forall j :: 0 <= j < |e.cls.fields| && e.cls.fields[j].isId && (forall i :: 0 <= i < j ==> !e.cls.fields[i].isId) ==>
        ElementCaption(e, isNew) == IdText(FieldValue(e, e.cls.fields[j].name))
  {
  }

  /** The annotation check of showAbstractElementForm and refreshElementCaption
      followed by generateElementCacheName: the element prefix, the class
      name and String.valueOf the value of the field AgiUI.idFieldName names;
      a class without AgiUI throws, and so does a name the class does not
      declare. */
  function CacheName(e: Entity): (r: Result<string>)
    ensures e.cls.agiUI.None? ==> r == Failure(MissingAnnotation)
    ensures e.cls.agiUI.Some? ==>
      var id := e.cls.agiUI.value.idFieldName;
      && (r.Failure? <==> !HasDeclaredField(e.cls.fields, id))
      && (r.Failure? ==> r.error == NoSuchField(id))
      && (r.Success? ==> r.value == ElementKey(e.cls.canonicalName, ValueOf(FieldValue(e, id))))
  {
    match e.cls.agiUI
    case None => Failure(MissingAnnotation)
    case Some(ui) =>
      if !HasDeclaredField(e.cls.fields, ui.idFieldName) then Failure(NoSuchField(ui.idFieldName))
      else Success(ElementKey(e.cls.canonicalName, ValueOf(FieldValue(e, ui.idFieldName))))
  }

  /** The caption of a list form's tab: AgiUI.listCaption, read through a
      possibly absent annotation. */
  function ListCaption(cls: EntityClass): (r: Result<string>)
    ensures r.Success? <==> cls.agiUI.Some?
    ensures r.Success? ==> r.value == cls.agiUI.value.listCaption
    ensures r.Failure? ==> r.error == NullPointer
  {
    match cls.agiUI
    case None => Failure(NullPointer)
    case Some(ui) => Success(ui.listCaption)
  }

  /** The caption an element tab is opened with: the entity caption, a
      colon, then the element caption. */
  function OpeningCaption(ui: AgiUIInfo, e: Entity, isNew: bool): (r: Result<string>)
    ensures r.Success? <==> ElementCaption(e, isNew).Success?
    ensures r.Success? ==> r.value == ui.entityCaption + ":" + ElementCaption(e, isNew).value
    ensures r.Failure? ==> r.error == ElementCaption(e, isNew).error
  {
    match ElementCaption(e, isNew)
    case Failure(err) => Failure(err)
    case Success(c) => Success(ui.entityCaption + ":" + c)
  }

  /** showAbstractListForm on the registry. */
  function ShowList(s: Sheet<Content>, cls: EntityClass): (r: (Sheet<Content>, Outcome))
    requires Valid(s)
    ensures Valid(r.0)
    ensures r.1.Pass? <==> (ListKey(cls.canonicalName) in s.openedForms || cls.agiUI.Some?)
    ensures r.1.Pass? ==>
      ListKey(cls.canonicalName) in r.0.openedForms && r.0.selected == Some(r.0.openedForms[ListKey(cls.canonicalName)])
    ensures ListKey(cls.canonicalName) !in s.openedForms && r.1.Pass? ==>
      s.nextTab in r.0.tabs && r.0.tabs[s.nextTab] == Tab(cls.agiUI.value.listCaption, ListContent(cls.canonicalName))
  {
    OpenOrFocus(s, ListKey(cls.canonicalName), ListContent(cls.canonicalName), ListCaption(cls))
  }

  /** showAbstractElementForm on the registry: a failing cache name changes
      nothing; otherwise the form is focused or opened under that name. */
  function ShowElement(s: Sheet<Content>, e: Entity, isNew: bool): (r: (Sheet<Content>, Outcome))
    requires Valid(s)
    ensures Valid(r.0)
    ensures CacheName(e).Failure? ==> r == (s, Fail(CacheName(e).error))
    ensures CacheName(e).Success? ==>
      var key := CacheName(e).value;
      && (r.1.Pass? <==> key in s.openedForms || ElementCaption(e, isNew).Success?)
      && (r.1.Pass? ==> key in r.0.openedForms && r.0.selected == Some(r.0.openedForms[key]))
      && (key in s.openedForms ==> r.0.openedForms == s.openedForms && r.0.tabs == s.tabs)
      && (key !in s.openedForms && r.1.Pass? ==>
            s.nextTab in r.0.tabs && r.0.tabs[s.nextTab] == Tab(e.cls.agiUI.value.entityCaption + ":" + ElementCaption(e, isNew).value, ElementContent(e, isNew)))
  {
    match CacheName(e)
    case Failure(err) => (s, Fail(err))
    case Success(key) => OpenOrFocus(s, key, ElementContent(e, isNew), OpeningCaption(e.cls.agiUI.value, e, isNew))
  }

  /** refreshElementCaption on the registry: a failing annotation check or
      cache name changes nothing, a tab not registered under cachedName is
      left alone; otherwise the registered tab is rekeyed under the entity's
      current cache name and captioned with the bare element caption. */
  function RefreshCaption(s: Sheet<Content>, e: Entity, cachedName: string): (r: (Sheet<Content>, Outcome))
    requires Valid(s)
    ensures Valid(r.0)
    ensures CacheName(e).Failure? ==> r == (s, Fail(CacheName(e).error))
    ensures CacheName(e).Success? && cachedName !in s.openedForms ==> r == (s, Pass)
    ensures CacheName(e).Success? && cachedName in s.openedForms && ElementCaption(e, false).Success? ==>
      var t := s.openedForms[cachedName];
      && r.1 == Pass
      && CacheName(e).value in r.0.openedForms && r.0.openedForms[CacheName(e).value] == t
      && r.0.tabs[t].caption == ElementCaption(e, false).value
  {
    match CacheName(e)
    case Failure(err) => (s, Fail(err))
    case Success(key) => Rekey(s, cachedName, key, ElementCaption(e, false))
  }

  /** Showing the same element form twice builds it once: the second call
      only focuses the tab the first one registered. */
  lemma ShowElementTwiceIsHit(s: Sheet<Content>, e1: Entity, e2: Entity, isNew1: bool, isNew2: bool)
    requires Valid(s)
    requires ShowElement(s, e1, isNew1).1.Pass?
    requires CacheName(e2) == CacheName(e1)
    ensures var s1 := ShowElement(s, e1, isNew1).0;
      ShowElement(s1, e2, isNew2) == (s1, Pass)
  {
    var key := CacheName(e1).value;
    OpenTwiceIsHit(s, key, ElementContent(e1, isNew1), ElementContent(e2, isNew2),
      OpeningCaption(e1.cls.agiUI.value, e1, isNew1), OpeningCaption(e2.cls.agiUI.value, e2, isNew2));
  }

  /** Reopening a list form builds no second tab: once showAbstractListForm
      has opened a class's list, showing it again only focuses that tab. */
  lemma ShowListTwiceIsHit(s: Sheet<Content>, cls: EntityClass)
    requires Valid(s) && ShowList(s, cls).1.Pass?
    ensures var s1 := ShowList(s, cls).0;
      ShowList(s1, cls) == (s1, Pass)
  {
    var c := ListContent(cls.canonicalName);
    OpenTwiceIsHit(s, ListKey(cls.canonicalName), c, c, ListCaption(cls), ListCaption(cls));
  }

  /** For one class, two entities share an element tab exactly when their
      identifier values print the same, with a null identifier printing
      as "null". */
  lemma CacheNameSameClass(e1: Entity, e2: Entity)
    requires e1.cls == e2.cls && CacheName(e1).Success? && CacheName(e2).Success?
    ensures var id := e1.cls.agiUI.value.idFieldName;
      CacheName(e1) == CacheName(e2) <==> ValueOf(FieldValue(e1, id)) == ValueOf(FieldValue(e2, id))
  {
    var id := e1.cls.agiUI.value.idFieldName;
    ElementKeySameClass(e1.cls.canonicalName, ValueOf(FieldValue(e1, id)), ValueOf(FieldValue(e2, id)));
  }

  /** Two unsaved entities of one class, whose identifiers are both null,
      share the cache name: while the first new-element form is open,
      opening a second new entity only focuses the first one's tab. */
  lemma NewEntitiesShareTab(s: Sheet<Content>, e1: Entity, e2: Entity)
    requires Valid(s)
    requires e1.cls == e2.cls && e1.cls.agiUI.Some?
    requires HasDeclaredField(e1.cls.fields, e1.cls.agiUI.value.idFieldName)
    requires FieldValue(e1, e1.cls.agiUI.value.idFieldName).None?
    requires FieldValue(e2, e2.cls.agiUI.value.idFieldName).None?
    ensures ShowElement(s, e1, true).1 == Pass
    ensures var s1 := ShowElement(s, e1, true).0;
      ShowElement(s1, e2, true) == (s1, Pass)
  {
    assert CacheName(e1) == CacheName(e2);
    ShowElementTwiceIsHit(s, e1, e2, true, true);
  }

  /** Showing a list form and an element form never reuses one tab for both. */
  lemma ListAndElementTabsDiffer(e: Entity, cls: EntityClass)
    requires CacheName(e).Success?
    ensures CacheName(e).value != ListKey(cls.canonicalName)
  {
    var id := e.cls.agiUI.value.idFieldName;
    ListAndElementKeysDiffer(cls.canonicalName, e.cls.canonicalName, ValueOf(FieldValue(e, id)));
  }

  class MainFormHandler {
    var openedForms: map<string, TabId>
    var tabs: map<TabId, Tab<Content>>
    var selected: Option<TabId>
    var nextTab: TabId

    function State(): Sheet<Content>
      reads this
    {
      Sheet(openedForms, tabs, selected, nextTab)
    }

    ghost predicate Valid()
      reads this
    {
      TabRegistry.Valid(State())
    }

    /** The handler with its empty tab sheet (init). */
    constructor ()
      ensures Valid() && State() == Empty()
    {
      openedForms := map[];
      tabs := map[];
      selected := None;
      nextTab := 0;
    }

    /** Adds a tab showing content, with no caption yet, and returns it. */
    method AddTab(content: Content) returns (t: TabId)
      requires Valid()
      modifies this
      ensures t == old(nextTab) && t !in old(tabs)
      ensures tabs == old(tabs)[t := Tab("", content)] && nextTab == t + 1
      ensures openedForms == old(openedForms) && selected == old(selected)
      ensures Valid()
    {
      t := nextTab;
      tabs := tabs[t := Tab("", content)];
      nextTab := nextTab + 1;
    }

    method ShowAbstractListForm(cls: EntityClass) returns (r: Outcome)
      requires Valid()
      modifies this
      ensures Valid()
      ensures (State(), r) == ShowList(old(State()), cls)
    {
      var key := ListKey(cls.canonicalName);
      if key !in openedForms {
        var t := AddTab(ListContent(cls.canonicalName));
        if cls.agiUI.None? {
          return Fail(NullPointer);
        }
        tabs := tabs[t := tabs[t].(caption := cls.agiUI.value.listCaption)];
        assert tabs == old(tabs)[t := Tab(cls.agiUI.value.listCaption, ListContent(cls.canonicalName))];
        openedForms := openedForms[key := t];
      }
      selected := Some(openedForms[key]);
      r := Pass;
    }

    method ShowAbstractElementForm(e: Entity, isNew: bool) returns (r: Outcome)
      requires Valid()
      modifies this
      ensures Valid()
      ensures (State(), r) == ShowElement(old(State()), e, isNew)
    {
      if e.cls.agiUI.None? {
        return Fail(MissingAnnotation);
      }
      var ui := e.cls.agiUI.value;
      var key := CacheName(e);
      if key.Failure? {
        return Fail(key.error);
      }
      var k := key.value;
      if k !in openedForms {
        r := OpenElementForm(e, isNew, ui, k);
        return;
      }
      selected := Some(openedForms[k]);
      r := Pass;
    }

    /** The miss path of showAbstractElementForm: a tab added for the form,
      then captioned, registered under key and selected; a throwing caption
      leaves the tab unregistered. */
    method OpenElementForm(e: Entity, isNew: bool, ui: AgiUIInfo, key: string) returns (r: Outcome)
      requires Valid() && key !in openedForms
      modifies this
      ensures Valid()
      ensures (State(), r) == OpenOrFocus(old(State()), key, ElementContent(e, isNew), OpeningCaption(ui, e, isNew))
    {
      ghost var s0 := State();
      var content := ElementContent(e, isNew);
      var t := AddTab(content);
      var caption := GenerateElementCaption(e, isNew);
      if caption.Failure? {
        assert OpeningCaption(ui, e, isNew) == Failure(caption.error);
        assert State() == s0.(tabs := s0.tabs[t := Tab("", content)], nextTab := t + 1);
        return Fail(caption.error);
      }
      var c := ui.entityCaption + ":" + caption.value;
      assert OpeningCaption(ui, e, isNew) == Success(c);
      tabs := tabs[t := tabs[t].(caption := c)];
      assert tabs == s0.tabs[t := Tab(c, content)];
      openedForms := openedForms[key := t];
      selected := Some(t);
      r := Pass;
      assert State() == Sheet(s0.openedForms[key := t], s0.tabs[t := Tab(c, content)], Some(t), t + 1);
    }

    /** generateElementCaption, walking the declared fields up to the first @Id. */
    method GenerateElementCaption(e: Entity, isNew: bool) returns (r: Result<string>)
      ensures r == ElementCaption(e, isNew)
    {
      r := Success("undefined");
      if isNew {
        return Success("new");
      }
      var fs := e.cls.fields;
      var i := 0;
      while i < |fs|
        invariant 0 <= i <= |fs|
        invariant forall j :: 0 <= j < i ==> !fs[j].isId
      {
        if fs[i].isId {
          return IdText(FieldValue(e, fs[i].name));
        }
        i := i + 1;
      }
    }

    method RefreshElementCaption(e: Entity, cachedName: string) returns (r: Outcome)
      requires Valid()
      modifies this
      ensures Valid()
      ensures (State(), r) == RefreshCaption(old(State()), e, cachedName)
    {
      var key := CacheName(e);
      if key.Failure? {
        return Fail(key.error);
      }
      if cachedName !in openedForms {
        return Pass;
      }
      var t := openedForms[cachedName];
      var caption := GenerateElementCaption(e, false);
      if caption.Failure? {
        return Fail(caption.error);
      }
      tabs := tabs[t := tabs[t].(caption := caption.value)];
      openedForms := openedForms - {cachedName};
      openedForms := openedForms[key.value := t];
      r := Pass;
    }

    /** The tab sheet's close handler. */
    method CloseTab(t: TabId)
      requires Valid() && t in tabs
      modifies this
      ensures Valid()
      ensures State() == Close(old(State()), t)
    {
      openedForms := map k | k in openedForms && openedForms[k] != t :: openedForms[k];
      tabs := tabs - {t};
      if selected == Some(t) {
        selected := None;
      }
    }
  }
}
