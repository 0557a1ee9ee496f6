/** The newer generation's element form and form handler as objects. A
    form holds the handler that opened it and calls back into it after a
    save; the handler builds a fresh form on every cache miss. */
module AgiCore {
  import opened Meta
  import opened TabRegistry
  import opened AgiElementForm
  import opened AgiFormHandler

  /** The notification text a failed save shows. */
  const SaveErrorText: string := "Error while saving element"

  /** What a tab shows: a list form of a class, or an element form. */
  datatype Content = ListContent(canonicalName: string) | ElementContent(form: ElementForm)

  class ElementForm {
    const formHandler: MainFormHandler
    var entity: Option<Entity>
    var formCachedName: string       // the cache name the form was opened under
    var components: seq<Component>
    var events: seq<FormEvent>

    constructor (handler: MainFormHandler)
      ensures formHandler == handler
      ensures entity == None && formCachedName == "" && components == [] && events == []
    {
      formHandler := handler;
      entity := None;
      formCachedName := "";
      components := [];
      events := [];
    }

    /** init: records the cache name, clears the form, lays out the control
      panel and the members, and reads the entity into the widgets unless it
      is a new instance. */
    method Init(e: Entity, isNew: bool, cachedName: string, gen: FieldGenerator)
      modifies this
      ensures entity == Some(e) && formCachedName == cachedName
      ensures components == FormComponents(gen, e)
      ensures events == old(events) + (if isNew then [] else [ReadBean])
    {
      formCachedName := cachedName;
      components := [];
      entity := Some(e);
      InitControlPanel();
      BuildFormFields(e, gen);
      if !isNew {
        events := events + [ReadBean];
      }
    }

    method InitControlPanel()
      requires entity.Some?
      modifies this
      ensures entity == old(entity) && formCachedName == old(formCachedName) && events == old(events)
      ensures components == old(components) + [ControlPanel(CommandBar(entity.value.cls))]
    {
      var cls := entity.value.cls;
      var menuBar: seq<MenuItem> := [];
      if cls.agiEntity.Some? {
        menuBar := menuBar + [SaveItem];
        menuBar := menuBar + [ReloadItem];
        assert menuBar == [SaveItem, ReloadItem];
      } else if cls.agiForm.Some? {
        menuBar := CommandItems(cls.methods);
      }
      components := components + [ControlPanel(menuBar)];
    }

    /** The menu items of the @Command methods, in declaration order. */
    static method CommandItems(methods: seq<Method>) returns (items: seq<MenuItem>)
      ensures items == Seqs.FilterMap(methods, CommandItemOf)
    {
      items := [];
      var i := 0;
      while i < |methods|
        invariant 0 <= i <= |methods|
        invariant items == Seqs.FilterMap(methods[..i], CommandItemOf)
      {
        assert methods[..i + 1][..i] == methods[..i];
        if methods[i].command.Some? {
          items := items + [CommandItem(methods[i].command.value, methods[i].name)];
        }
        i := i + 1;
      }
      assert methods[..i] == methods;
    }

    /** buildFormFields: one widget per ordered member that yields one. */
    method BuildFormFields(e: Entity, gen: FieldGenerator)
      modifies this
      ensures components == old(components) + Layout(gen, e)
      ensures entity == old(entity) && formCachedName == old(formCachedName) && events == old(events)
    {
      var ordered := OrderedCandidates(e.cls);
      var i := 0;
      while i < |ordered|
        invariant 0 <= i <= |ordered|
        invariant components == old(components) + ElementsLayout(gen, e, ordered[..i])
        invariant entity == old(entity) && formCachedName == old(formCachedName) && events == old(events)
      {
        assert ordered[..i + 1][..i] == ordered[..i];
        assert ElementsLayout(gen, e, ordered[..i + 1])
          == ElementsLayout(gen, e, ordered[..i]) + Seqs.OptionToSeq(ElementWidget(gen, e, ordered[i]));
        var element := ordered[i];
        if element.FieldElement? {
          var field := element.field;
          var component := gen.component(field);
          if component.Some? {
            var c := component.value;
            if field.isId && c.Widget? {
              c := c.(readOnly := true);
            }
            components := components + [c];
          }
        } else {
          var m := element.member;
          if m.isStatic {
            var textField := Widget(TextField, "", false, Fixed(""));
            textField := textField.(caption := gen.methodCaption(m));
            textField := textField.(binding := Fixed(gen.providedValue(m, e)));
            textField := textField.(readOnly := true);
            components := components + [textField];
          }
        }
        i := i + 1;
      }
      assert ordered[..i] == ordered;
    }

    /** The Save item: write the widgets into the entity, save it, read the
      saved entity back and have the handler refresh the tab under the cache
      name the form was opened with. Whatever throws on the way shows the
      error notification and leaves the steps already taken in place. */
    method Save(written: Option<Entity>, saved: Option<Entity>)
      requires entity.Some? && formHandler.Valid()
      modifies this, formHandler
      ensures formHandler.Valid()
      ensures components == old(components) && formCachedName == old(formCachedName)
      ensures written.None? ==>
        && entity == old(entity)
        && events == old(events) + [WriteBean, ErrorNotification(SaveErrorText)]
        && formHandler.State() == old(formHandler.State())
      ensures written.Some? && saved.None? ==>
        && entity == written
        && events == old(events) + [WriteBean, PersistSave, ErrorNotification(SaveErrorText)]
        && formHandler.State() == old(formHandler.State())
      ensures written.Some? && saved.Some? ==>
        var refresh := RefreshCaption(old(formHandler.State()), saved.value, old(formCachedName));
        && entity == saved
        && formHandler.State() == refresh.0
        && events == old(events) + [WriteBean, PersistSave, ReadBean]
                     + (if refresh.1.Pass? then [] else [ErrorNotification(SaveErrorText)])
    {
      events := events + [WriteBean];
      if written.None? {
        events := events + [ErrorNotification(SaveErrorText)];
        return;
      }
      entity := written;
      events := events + [PersistSave];
      if saved.None? {
        events := events + [ErrorNotification(SaveErrorText)];
        return;
      }
      ReadBackAndRefresh(saved.value);
    }

    /** The last steps of a successful save: read the saved entity into the
      widgets and have the handler refresh the tab; a throwing refresh shows
      the error notification. */
    method ReadBackAndRefresh(saved: Entity)
      requires formHandler.Valid()
      modifies this, formHandler
      ensures formHandler.Valid()
      ensures components == old(components) && formCachedName == old(formCachedName)
      ensures var refresh := RefreshCaption(old(formHandler.State()), saved, old(formCachedName));
        && entity == Some(saved)
        && formHandler.State() == refresh.0
        && events == old(events) + [ReadBean] + (if refresh.1.Pass? then [] else [ErrorNotification(SaveErrorText)])
    {
      entity := Some(saved);
      events := events + [ReadBean];
      var r := formHandler.RefreshElementCaption(saved, formCachedName);
      if r.Fail? {
        events := events + [ErrorNotification(SaveErrorText)];
      }
    }

    /** The Reload item: refresh the entity from the store, then read it into
      the widgets; a failing refresh propagates. */
    method Reload(refreshed: Option<Entity>) returns (r: Outcome)
      requires entity.Some?
      modifies this
      ensures components == old(components) && formCachedName == old(formCachedName)
      ensures refreshed.None? ==> r == Fail(PersistenceFailed) && entity == old(entity) && events == old(events) + [PersistRefresh]
      ensures refreshed.Some? ==> r == Pass && entity == refreshed && events == old(events) + [PersistRefresh, ReadBean]
    {
      events := events + [PersistRefresh];
      if refreshed.None? {
        return Fail(PersistenceFailed);
      }
      entity := refreshed;
      events := events + [ReadBean];
      r := Pass;
    }

    /** A command item of an AgiForm class: write the widgets into the
      entity, invoke the method, read the entity back. Whatever throws is
      logged and the remaining steps are skipped. */
    method RunCommand(m: Method, written: Option<Entity>, invoked: Option<Entity>)
      requires entity.Some? && entity.value.cls.agiEntity.None? && entity.value.cls.agiForm.Some?
      requires m in entity.value.cls.methods && m.command.Some?
      modifies this
      ensures components == old(components) && formCachedName == old(formCachedName)
      ensures written.None? ==> entity == old(entity) && events == old(events) + [WriteBean]
      ensures written.Some? && invoked.None? ==> entity == written && events == old(events) + [WriteBean, Invoke(m.name)]
      ensures written.Some? && invoked.Some? ==>
        entity == invoked && events == old(events) + [WriteBean, Invoke(m.name), ReadBean]
    {
      events := events + [WriteBean];
      if written.None? {
        return;
      }
      entity := written;
      events := events + [Invoke(m.name)];
      if invoked.None? {
        return;
      }
      entity := invoked;
      events := events + [ReadBean];
    }
  }

  class MainFormHandler {
    var openedForms: map<string, TabId>
    var tabs: map<TabId, Tab<Content>>
    var selected: Option<TabId>
    var nextTab: TabId

    function State(): Sheet<Content>
      reads this
    {
      Sheet(openedForms, tabs, selected, nextTab)
    }

    ghost predicate Valid()
      reads this
    {
      TabRegistry.Valid(State())
    }

    /** The handler with its empty tab sheet (init). */
    constructor ()
      ensures Valid() && State() == Empty()
    {
      openedForms := map[];
      tabs := map[];
      selected := None;
      nextTab := 0;
    }

    /** Adds a tab showing content, with no caption yet, and returns it. */
    method AddTab(content: Content) returns (t: TabId)
      requires Valid()
      modifies this
      ensures t == old(nextTab) && t !in old(tabs)
      ensures tabs == old(tabs)[t := Tab("", content)] && nextTab == t + 1
      ensures openedForms == old(openedForms) && selected == old(selected)
      ensures Valid()
    {
      t := nextTab;
      tabs := tabs[t := Tab("", content)];
      nextTab := nextTab + 1;
    }

    method ShowAbstractListForm(cls: EntityClass) returns (r: Outcome)
      requires Valid()
      modifies this
      ensures Valid()
      ensures (State(), r) == ShowList(old(State()), cls, ListContent(cls.canonicalName))
    {
      var key := ListKey(cls.canonicalName);
      if key !in openedForms {
        var t := AddTab(ListContent(cls.canonicalName));
        if cls.agiEntity.None? {
          return Fail(NullPointer);
        }
        tabs := tabs[t := tabs[t].(caption := cls.agiEntity.value.menuCaption)];
        assert tabs == old(tabs)[t := Tab(cls.agiEntity.value.menuCaption, ListContent(cls.canonicalName))];
        openedForms := openedForms[key := t];
      }
      selected := Some(openedForms[key]);
      r := Pass;
    }

    /** showAbstractElementForm. form is the element form built on a cache
      miss, initialised before its tab is added; it is null when the class
      has no role annotation or the form is already open. */
    method ShowAbstractElementForm(e: Entity, isNew: bool, gen: FieldGenerator) returns (r: Outcome, form: ElementForm?)
      requires Valid()
      modifies this
      ensures Valid()
      ensures form == null <==> !HasRole(e.cls) || CacheName(e) in old(openedForms)
      ensures form != null ==>
        && fresh(form) && form.formHandler == this
        && form.entity == Some(e) && form.formCachedName == CacheName(e)
        && form.components == FormComponents(gen, e)
        && form.events == (if isNew then [] else [ReadBean])
        && (State(), r) == ShowElement(old(State()), e, isNew, ElementContent(form))
      ensures form == null ==> forall c :: (State(), r) == ShowElement(old(State()), e, isNew, c)
    {
      form := null;
      if !HasRole(e.cls) {
        return Fail(MissingAnnotation), null;
      }
      var key := CacheName(e);
      if key !in openedForms {
        var elemForm;
        r, elemForm := OpenElementForm(e, isNew, key, gen);
        return r, elemForm;
      }
      selected := Some(openedForms[key]);
      r := Pass;
    }

    /** The miss path of showAbstractElementForm: a fresh form initialised
      for the entity, a tab added for it, then captioned, registered under
      key and selected; a throwing caption leaves the tab unregistered. */
    method OpenElementForm(e: Entity, isNew: bool, key: string, gen: FieldGenerator) returns (r: Outcome, form: ElementForm)
      requires Valid() && key !in openedForms
      modifies this
      ensures Valid()
      ensures fresh(form) && form.formHandler == this
      ensures form.entity == Some(e) && form.formCachedName == key
      ensures form.components == FormComponents(gen, e)
      ensures form.events == (if isNew then [] else [ReadBean])
      ensures (State(), r) == OpenOrFocus(old(State()), key, ElementContent(form), ElementCaption(e, isNew))
    {
      form := new ElementForm(this);
      form.Init(e, isNew, key, gen);
      r := AddElementTab(e, isNew, key, ElementContent(form));
    }

    /** Adds the tab showing content, captions it for the entity, registers
      it under key and selects it; a throwing caption leaves the tab added
      but unregistered. */
    method AddElementTab(e: Entity, isNew: bool, key: string, content: Content) returns (r: Outcome)
      requires Valid() && key !in openedForms
      modifies this
      ensures Valid()
      ensures (State(), r) == OpenOrFocus(old(State()), key, content, ElementCaption(e, isNew))
    {
      ghost var s0 := State();
      var t := AddTab(content);
      var caption := GenerateElementCaption(e, isNew);
      if caption.Failure? {
        assert State() == Sheet(s0.openedForms, s0.tabs[t := Tab("", content)], s0.selected, t + 1);
        return Fail(caption.error);
      }
      tabs := tabs[t := tabs[t].(caption := caption.value)];
      assert tabs == s0.tabs[t := Tab(caption.value, content)];
      openedForms := openedForms[key := t];
      selected := Some(t);
      r := Pass;
      assert State() == Sheet(s0.openedForms[key := t], s0.tabs[t := Tab(caption.value, content)], Some(t), t + 1);
    }

    /** generateElementCaption, walking the declared fields up to the first @Id. */
    method GenerateElementCaption(e: Entity, isNew: bool) returns (r: Result<string>)
      ensures r == ElementCaption(e, isNew)
    {
      if !HasRole(e.cls) {
        return Failure(MissingAnnotation);
      }
      var caption: string;
      if e.cls.agiEntity.Some? {
        caption := e.cls.agiEntity.value.singleCaption + ":";
      } else {
        caption := e.cls.agiForm.value.caption + ":";
      }
      if isNew {
        caption := caption + "new";
        return Success(caption);
      }
      var fs := e.cls.fields;
      var i := 0;
      while i < |fs|
        invariant 0 <= i <= |fs|
        invariant forall j :: 0 <= j < i ==> !fs[j].isId
        invariant caption == Label(e.cls) + ":"
      {
        if fs[i].isId {
          var v := FieldValue(e, fs[i].name);
          if v.None? {
            return Failure(NullPointer);
          }
          caption := caption + v.value;
          return Success(caption);
        }
        i := i + 1;
      }
      assert caption == Label(e.cls) + ":" + "";
      return Success(caption);
    }

    method RefreshElementCaption(e: Entity, cachedName: string) returns (r: Outcome)
      requires Valid()
      modifies this
      ensures Valid()
      ensures (State(), r) == RefreshCaption(old(State()), e, cachedName)
    {
      var newCachedName := CacheName(e);
      if cachedName !in openedForms {
        return Pass;
      }
      var t := openedForms[cachedName];
      var caption := GenerateElementCaption(e, false);
      if caption.Failure? {
        return Fail(caption.error);
      }
      tabs := tabs[t := tabs[t].(caption := caption.value)];
      openedForms := openedForms - {cachedName};
      openedForms := openedForms[newCachedName := t];
      r := Pass;
    }

    /** The tab sheet's close handler. */
    method CloseTab(t: TabId)
      requires Valid() && t in tabs
      modifies this
      ensures Valid()
      ensures State() == Close(old(State()), t)
    {
      openedForms := map k | k in openedForms && openedForms[k] != t :: openedForms[k];
      tabs := tabs - {t};
      if selected == Some(t) {
        selected := None;
      }
    }
  }
}
