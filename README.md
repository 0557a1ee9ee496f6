# springjpa-form-autocreator: form layout and the open-tab registry

This project models the part of springjpa-form-autocreator that decides
what an entity's generated element form shows, and how the main form
handler keeps one tab per open form. The tool builds Vaadin forms for JPA
entities at run time. Both parts exist in an older generation (package
`com.sepnotican.springjpaformautocreator`) and a newer one
(`agi-core-starter`), and both generations are modelled.

- **Layout.** An entity class is a record of its declared fields and
  methods, with the annotations the forms read.
  - Members are sorted by the draw-order comparator with a stable sort.
    Annotated members come first, in ascending order. Unannotated members
    keep their declaration order.
  - The older form picks a widget by the field's declared type. It captions
    the widget by synonym or name and makes the `@Id` field read-only.
  - The newer form also filters the members. It adds read-only text fields
    for static column value providers. Its command bar depends on whether
    the class is an `AgiEntity` or an `AgiForm`.
  - `init` and `buildFormFields` are methods of an `ElementForm` class. They
    append to a `components` sequence and are proved equal to the pure
    layout functions.
- **Registry.** The handler's `openedForms` map goes from a cache name to a
  tab, and the tab sheet holds tabs with a caption and a content, one of
  them selected.
  - `TabRegistry` states the transitions both generations share: check then
    insert (`OpenOrFocus`), rekey or no-op (`Rekey`) and the close handler
    (`Close`).
  - Each generation's `MainFormHandler` class updates its fields exactly as
    these transitions say. Its captions and cache names come from its own
    module.
  - The older generation's cache-name token is `String.valueOf` of the
    identifier field. The newer one uses the entity's `hashCode()`, and the
    model shows what follows from that. The form keeps the name it was
    opened under, so after a save that changes the hash every later refresh
    misses its tab. One class's entities that hash alike share one tab.
    Names of two different classes can meet.
- **Outcomes.** Exceptions become `Result`/`Outcome` values. Steps a form
  asks of its binder and its data access object go into an `events` log.
  The outcomes of persistence, of the binder's write and of a command's
  invocation are parameters.

Modules:
- `Meta`: entity metadata, widgets, Java's text of null, ids and ints.
- `Seqs`: the filter-map the layout loops follow.
- `DrawOrder`: the comparator and the stable sort.
- `TabRegistry`: the registry.
- `JpaElementForm` and `JpaFormHandler`: the older generation.
- `AgiElementForm`, `AgiFormHandler` and `AgiCore`: the newer generation.
- `Fixtures`: the example entities Customer and Contact.

## Model

| member | source | states |
|---|---|---|
| DrawOrder.CompareOrders | src/main/java/com/sepnotican/springjpaformautocreator/generator/form/generic/AbstractElementForm.java:75-97 | the comparator returns -1, 0 or 1, and 0 exactly when both draw orders are absent or both equal |
| DrawOrder.AnnotatedFirst | src/main/java/com/sepnotican/springjpaformautocreator/generator/form/generic/AbstractElementForm.java:79-84 | a member with a draw order sorts before one without, whatever the value |
| DrawOrder.AnnotatedAscending | src/main/java/com/sepnotican/springjpaformautocreator/generator/form/generic/AbstractElementForm.java:85-95 | annotated members ascend by value and tie exactly on equal values |
| DrawOrder.ComparatorContract | src/main/java/com/sepnotican/springjpaformautocreator/generator/form/generic/AbstractElementForm.java:75-97 | antisymmetric, transitive, and members that tie compare alike with any third: a strict weak order |
| DrawOrder.SortPermutes | src/main/java/com/sepnotican/springjpaformautocreator/generator/form/generic/AbstractElementForm.java:69-73 | the sorted list is a permutation of the input |
| DrawOrder.SortSorts | src/main/java/com/sepnotican/springjpaformautocreator/generator/form/generic/AbstractElementForm.java:69-73 | the sorted list is ordered by the comparator |
| DrawOrder.SortStable | src/main/java/com/sepnotican/springjpaformautocreator/generator/form/generic/AbstractElementForm.java:69-73 | the members of each draw-order class keep their input order |
| DrawOrder.StableSortIsUnique | src/main/java/com/sepnotican/springjpaformautocreator/generator/form/generic/AbstractElementForm.java:69-73 | any comparator-sorted sequence whose classes list the same members in the same order as the input is the sort's result, so the model equals Java's stable stream sort |
| JpaElementForm.OrderedFieldsSpec | src/main/java/com/sepnotican/springjpaformautocreator/generator/form/generic/AbstractElementForm.java:69-73 | the ordered fields are a permutation of the declared fields, sorted, with tied fields in declaration order |
| JpaElementForm.CaptionFor | src/main/java/com/sepnotican/springjpaformautocreator/generator/form/generic/AbstractElementForm.java:124-128 | the caption is the synonym when present, else the field name |
| JpaElementForm.ComponentFor | src/main/java/com/sepnotican/springjpaformautocreator/generator/form/generic/AbstractElementForm.java:130-193 | no widget exactly for other types; Long/long, Double/double and Float/float give text fields with their converters and messages; String gives a TextArea exactly when @BigString; an enum gives a combo box of its constants with "<empty>"; every widget is editable and bound to the field by name |
| JpaElementForm.LayoutSpec | src/main/java/com/sepnotican/springjpaformautocreator/generator/form/generic/AbstractElementForm.java:50-63 | one widget per field of a supported type, in order, and none for other fields; the i-th widget is exactly the one LaidOut gives its field, so its kind and converter are those ComponentFor picks; each widget is read-only exactly when its field is the @Id, carries its caption and is bound to its field |
| JpaElementForm.ElementForm.constructor | src/main/java/com/sepnotican/springjpaformautocreator/generator/form/generic/AbstractElementForm.java:34-36 | a new form holds no entity, no components and an empty events log |
| JpaElementForm.ElementForm.Init | src/main/java/com/sepnotican/springjpaformautocreator/generator/form/generic/AbstractElementForm.java:38-67 | the form holds the entity; the components are the control panel with Save and Reload, then the layout of the ordered fields; the entity is read into the binder |
| JpaElementForm.ElementForm.Save | src/main/java/com/sepnotican/springjpaformautocreator/generator/form/generic/AbstractElementForm.java:104-113 | a rejected write is caught and nothing is saved; otherwise the written entity is saved, and a failing save propagates |
| JpaElementForm.ElementForm.Reload | src/main/java/com/sepnotican/springjpaformautocreator/generator/form/generic/AbstractElementForm.java:115-117 | the entity is read back into the widgets and nothing else changes |
| Meta.ValueOf | src/main/java/com/sepnotican/springjpaformautocreator/generator/form/MainFormHandler.java:139 | String.valueOf gives "null" for null and the value's text otherwise |
| Meta.FirstIdIndex | src/main/java/com/sepnotican/springjpaformautocreator/generator/form/MainFormHandler.java:104-105 | the position of the first @Id field in declaration order, or none when no field is the @Id |
| Meta.IdText | src/main/java/com/sepnotican/springjpaformautocreator/generator/form/MainFormHandler.java:108 | toString of a null identifier throws a NullPointerException; otherwise it is the value's text |
| Meta.IntToStringInjective | agi-core-starter/src/main/java/agi/core/form/MainFormHandler.java:174 | two ints print alike in decimal exactly when they are equal |
| TabRegistry.ListAndElementKeysDiffer | src/main/java/com/sepnotican/springjpaformautocreator/generator/form/MainFormHandler.java:52 | a list form's cache name never equals an element form's |
| TabRegistry.ListKeyInjective | src/main/java/com/sepnotican/springjpaformautocreator/generator/form/MainFormHandler.java:52 | two classes share a list cache name exactly when their canonical names are equal |
| TabRegistry.ElementKeySameClass | src/main/java/com/sepnotican/springjpaformautocreator/generator/form/MainFormHandler.java:141 | for one class, element cache names are equal exactly when the identity tokens are |
| TabRegistry.Empty | src/main/java/com/sepnotican/springjpaformautocreator/generator/form/MainFormHandler.java:31-32 | a fresh tab sheet has no tabs and no registered forms |
| TabRegistry.OpenOrFocus | src/main/java/com/sepnotican/springjpaformautocreator/generator/form/MainFormHandler.java:79-96 | a hit selects the registered tab and leaves map and tabs unchanged; a miss adds one tab; with a caption, exactly one entry (key to the new tab) is added and selected; a throwing caption leaves the new tab unregistered |
| TabRegistry.Rekey | src/main/java/com/sepnotican/springjpaformautocreator/generator/form/MainFormHandler.java:125-132 | an absent old key changes nothing and so does a throwing caption; otherwise the new key maps to the tab, the old key is gone unless it is the new key, every other entry is untouched, and only that tab's caption changes |
| TabRegistry.Close | src/main/java/com/sepnotican/springjpaformautocreator/generator/form/MainFormHandler.java:33-45 | exactly the entries mapping to the closed tab are removed, the others keep their tabs, and the tab leaves the sheet |
| TabRegistry.OpenTwiceIsHit | src/main/java/com/sepnotican/springjpaformautocreator/generator/form/MainFormHandler.java:79-96 | after a successful open, opening the same name again changes nothing |
| TabRegistry.CloseThenOpenIsMiss | src/main/java/com/sepnotican/springjpaformautocreator/generator/form/MainFormHandler.java:40-43 | once a form's tab is closed, its name no longer hits and opening it builds a new tab |
| TabRegistry.RekeyedOldKeyMisses | src/main/java/com/sepnotican/springjpaformautocreator/generator/form/MainFormHandler.java:125-132 | after a rekey to a different name, a refresh under the old name changes nothing |
| TabRegistry.OpenKeepsOtherEntries | src/main/java/com/sepnotican/springjpaformautocreator/generator/form/MainFormHandler.java:79-96 | opening one form leaves every other entry mapped to the same, still present, tab |
| JpaFormHandler.ElementCaptionSpec | src/main/java/com/sepnotican/springjpaformautocreator/generator/form/MainFormHandler.java:99-118 | "new" for a new instance; otherwise the first @Id field's text, a NullPointerException when it is null, or "undefined" when no field is the @Id |
| JpaFormHandler.CacheName | src/main/java/com/sepnotican/springjpaformautocreator/generator/form/MainFormHandler.java:136-142 | a class without AgiUI throws; a missing idFieldName throws NoSuchFieldException; otherwise "DEF_ELEM_", the class name and String.valueOf the id value |
| JpaFormHandler.ListCaption | src/main/java/com/sepnotican/springjpaformautocreator/generator/form/MainFormHandler.java:59 | the list tab's caption is AgiUI.listCaption, and a class without AgiUI throws |
| JpaFormHandler.OpeningCaption | src/main/java/com/sepnotican/springjpaformautocreator/generator/form/MainFormHandler.java:86-88 | an opened element tab is captioned entityCaption, ':', then the element caption, and fails exactly when that does |
| JpaFormHandler.ShowList | src/main/java/com/sepnotican/springjpaformautocreator/generator/form/MainFormHandler.java:51-69 | the list form is focused or opened under "DEF_LIST_" + class name with the list caption, and then selected |
| JpaFormHandler.ShowElement | src/main/java/com/sepnotican/springjpaformautocreator/generator/form/MainFormHandler.java:71-97 | a failing annotation check or cache name changes nothing; a hit changes only the selection; a miss registers one tab captioned entityCaption:caption, which is then selected |
| JpaFormHandler.RefreshCaption | src/main/java/com/sepnotican/springjpaformautocreator/generator/form/MainFormHandler.java:120-134 | the annotation check throws before any change; an absent key changes nothing; a present key is rekeyed to the new cache name and its tab gets the bare element caption, without the entity caption |
| JpaFormHandler.ShowElementTwiceIsHit | src/main/java/com/sepnotican/springjpaformautocreator/generator/form/MainFormHandler.java:79-95 | showing an element whose cache name is already registered builds no second tab |
| JpaFormHandler.ShowListTwiceIsHit | src/main/java/com/sepnotican/springjpaformautocreator/generator/form/MainFormHandler.java:52-64 | reopening a list form adds no second entry |
| JpaFormHandler.CacheNameSameClass | src/main/java/com/sepnotican/springjpaformautocreator/generator/form/MainFormHandler.java:136-142 | one class's entities collide exactly when their id values print alike |
| JpaFormHandler.NewEntitiesShareTab | src/main/java/com/sepnotican/springjpaformautocreator/generator/form/MainFormHandler.java:139-141 | two null-id new entities of one class both get the suffix "null", so the second one only focuses the first one's tab |
| JpaFormHandler.ListAndElementTabsDiffer | src/main/java/com/sepnotican/springjpaformautocreator/generator/form/MainFormHandler.java:136-142 | an element form's cache name is never a list form's |
| JpaFormHandler.MainFormHandler.constructor | src/main/java/com/sepnotican/springjpaformautocreator/generator/form/MainFormHandler.java:31-49 | the handler starts with an empty tab sheet and registry |
| JpaFormHandler.MainFormHandler.AddTab | src/main/java/com/sepnotican/springjpaformautocreator/generator/form/MainFormHandler.java:84 | one new tab with a fresh identity is added; the map and the selection are unchanged |
| JpaFormHandler.MainFormHandler.ShowAbstractListForm | src/main/java/com/sepnotican/springjpaformautocreator/generator/form/MainFormHandler.java:51-69 | the new state and outcome are ShowList of the old state |
| JpaFormHandler.MainFormHandler.ShowAbstractElementForm | src/main/java/com/sepnotican/springjpaformautocreator/generator/form/MainFormHandler.java:71-97 | the new state and outcome are ShowElement of the old state |
| JpaFormHandler.MainFormHandler.OpenElementForm | src/main/java/com/sepnotican/springjpaformautocreator/generator/form/MainFormHandler.java:81-93 | the miss path is OpenOrFocus with the opening caption |
| JpaFormHandler.MainFormHandler.GenerateElementCaption | src/main/java/com/sepnotican/springjpaformautocreator/generator/form/MainFormHandler.java:99-118 | the field loop that stops at the first @Id computes ElementCaption |
| JpaFormHandler.MainFormHandler.RefreshElementCaption | src/main/java/com/sepnotican/springjpaformautocreator/generator/form/MainFormHandler.java:120-134 | the new state and outcome are RefreshCaption of the old state |
| JpaFormHandler.MainFormHandler.CloseTab | src/main/java/com/sepnotican/springjpaformautocreator/generator/form/MainFormHandler.java:33-45 | the new state is Close of the old state |
| AgiElementForm.FieldCandidate | agi-core-starter/src/main/java/agi/core/form/generic/AbstractElementForm.java:75 | a field takes part exactly when it is neither @Autowired nor static |
| AgiElementForm.MethodCandidate | agi-core-starter/src/main/java/agi/core/form/generic/AbstractElementForm.java:76 | a method takes part exactly when it is an @AgiColumnValueProvider |
| AgiElementForm.CandidatesSpec | agi-core-starter/src/main/java/agi/core/form/generic/AbstractElementForm.java:74-76 | the candidates are exactly those fields and those methods, with all fields before all methods |
| AgiElementForm.OrderedCandidatesSpec | agi-core-starter/src/main/java/agi/core/form/generic/AbstractElementForm.java:100-102 | the ordered members are a permutation of the candidates, sorted, with tied members kept in stream order |
| AgiElementForm.ElementWidget | agi-core-starter/src/main/java/agi/core/form/generic/AbstractElementForm.java:79-96 | a field gets the generator's component, or nothing when it has none, made read-only when it is the @Id; a non-static method gets nothing; a static provider gets a read-only text field with the method's caption showing the provided value |
| AgiElementForm.LayoutSpec | agi-core-starter/src/main/java/agi/core/form/generic/AbstractElementForm.java:78-97 | the layout is one component per ordered member that yields one, in order, and nothing for the others |
| AgiElementForm.ReadOnlyWidgets | agi-core-starter/src/main/java/agi/core/form/generic/AbstractElementForm.java:83-94 | @Id field widgets and provider widgets are read-only |
| AgiElementForm.CommandItemOf | agi-core-starter/src/main/java/agi/core/form/generic/AbstractElementForm.java:112-113 | a @Command method gives an item with the command's caption that runs the method; other methods give none |
| AgiElementForm.CommandBar | agi-core-starter/src/main/java/agi/core/form/generic/AbstractElementForm.java:107-124 | an AgiEntity class gets exactly Save then Reload; an AgiForm class gets its command items; a class with neither gets an empty bar |
| AgiElementForm.CommandBarSpec | agi-core-starter/src/main/java/agi/core/form/generic/AbstractElementForm.java:110-123 | an AgiForm bar holds exactly one item per @Command method, in declaration order |
| AgiCore.ElementForm.constructor | agi-core-starter/src/main/java/agi/core/form/generic/AbstractElementForm.java:55-57 | a new form holds the handler that built it and nothing else |
| AgiCore.ElementForm.Init | agi-core-starter/src/main/java/agi/core/form/generic/AbstractElementForm.java:59-68 | the form keeps the cache name and the entity; the components are the command bar's panel, then the layout; the entity is read into the binder only when it is not new |
| AgiCore.ElementForm.InitControlPanel | agi-core-starter/src/main/java/agi/core/form/generic/AbstractElementForm.java:104-127 | one control panel holding CommandBar of the entity's class is appended |
| AgiCore.ElementForm.CommandItems | agi-core-starter/src/main/java/agi/core/form/generic/AbstractElementForm.java:111-123 | the loop over the declared methods yields one item per @Command method, in order |
| AgiCore.ElementForm.BuildFormFields | agi-core-starter/src/main/java/agi/core/form/generic/AbstractElementForm.java:70-98 | the loop appends exactly the layout of the ordered members |
| AgiCore.ElementForm.Save | agi-core-starter/src/main/java/agi/core/form/generic/AbstractElementForm.java:140-155 | write, save, read, then refresh under the cache name kept from init; a throwing step shows the error notification and skips the rest, and the handler is changed only by the refresh |
| AgiCore.ElementForm.ReadBackAndRefresh | agi-core-starter/src/main/java/agi/core/form/generic/AbstractElementForm.java:148-149 | the saved entity is read back and the handler's new state is RefreshCaption under the kept name |
| AgiCore.ElementForm.Reload | agi-core-starter/src/main/java/agi/core/form/generic/AbstractElementForm.java:129-137 | refresh from the store, then read into the widgets; a failing refresh propagates and skips the read |
| AgiCore.ElementForm.RunCommand | agi-core-starter/src/main/java/agi/core/form/generic/AbstractElementForm.java:115-122 | write, invoke, read; a throwing step is caught and the remaining steps are skipped |
| AgiFormHandler.CacheNameSameClass | agi-core-starter/src/main/java/agi/core/form/MainFormHandler.java:173-175 | one class's entities share a cache name exactly when their hashCodes are equal |
| AgiFormHandler.CacheNamesOfTwoClassesCanMeet | agi-core-starter/src/main/java/agi/core/form/MainFormHandler.java:174 | a.B1 with hash 23 and a.B with hash 123 get the same cache name |
| AgiFormHandler.Label | agi-core-starter/src/main/java/agi/core/form/MainFormHandler.java:136-140 | the label is AgiEntity.singleCaption, else AgiForm.caption |
| AgiFormHandler.ElementCaptionSpec | agi-core-starter/src/main/java/agi/core/form/MainFormHandler.java:130-157 | a class with neither role annotation throws; otherwise label, ':', then "new", or the first @Id value's text (null throws), or nothing when no field is the @Id |
| AgiFormHandler.ElementCaptionSeparatesIds | agi-core-starter/src/main/java/agi/core/form/MainFormHandler.java:143-155 | two saved entities of one class get the same caption exactly when their id texts are equal |
| AgiFormHandler.ListCaption | agi-core-starter/src/main/java/agi/core/form/MainFormHandler.java:87 | the list tab's caption is AgiEntity.menuCaption, and a class without it throws |
| AgiFormHandler.ShowList | agi-core-starter/src/main/java/agi/core/form/MainFormHandler.java:79-97 | the list form is focused or opened under "DEF_LIST_" + class name with the menu caption, and then selected |
| AgiFormHandler.ShowElement | agi-core-starter/src/main/java/agi/core/form/MainFormHandler.java:100-128 | a class with neither role annotation throws before any change; a hit changes only the selection; a miss registers one tab with the element caption, which is then selected |
| AgiFormHandler.RefreshCaption | agi-core-starter/src/main/java/agi/core/form/MainFormHandler.java:159-171 | an absent key changes nothing; a present key is rekeyed to the entity's hash-based name and re-captioned; the old key stays only if it equals the new one |
| AgiFormHandler.ShowListTwiceIsHit | agi-core-starter/src/main/java/agi/core/form/MainFormHandler.java:80-92 | reopening a list form adds no second entry |
| AgiFormHandler.SameHashSharesTab | agi-core-starter/src/main/java/agi/core/form/MainFormHandler.java:108-124 | distinct entities of one class with equal hashCodes share one tab |
| AgiFormHandler.LaterSavesMissTheTab | agi-core-starter/src/main/java/agi/core/form/MainFormHandler.java:160-171 | after a save that changes the hash has moved the tab, later refreshes under the kept name change nothing |
| AgiFormHandler.SaveKeepingHashKeepsTab | agi-core-starter/src/main/java/agi/core/form/MainFormHandler.java:160-171 | a save that keeps the hash keeps the map and re-captions the tab |
| AgiCore.MainFormHandler.constructor | agi-core-starter/src/main/java/agi/core/form/MainFormHandler.java:60-77 | the handler starts with an empty tab sheet and registry |
| AgiCore.MainFormHandler.AddTab | agi-core-starter/src/main/java/agi/core/form/MainFormHandler.java:115 | one new tab with a fresh identity is added; the map and the selection are unchanged |
| AgiCore.MainFormHandler.ShowAbstractListForm | agi-core-starter/src/main/java/agi/core/form/MainFormHandler.java:79-97 | the new state and outcome are ShowList of the old state |
| AgiCore.MainFormHandler.ShowAbstractElementForm | agi-core-starter/src/main/java/agi/core/form/MainFormHandler.java:100-128 | a form is built exactly on a miss for a class with a role annotation, initialised for the entity under its cache name, and the new state is ShowElement of the old state with that form as content |
| AgiCore.MainFormHandler.OpenElementForm | agi-core-starter/src/main/java/agi/core/form/MainFormHandler.java:112-123 | the miss path builds and initialises one fresh form, then proceeds as OpenOrFocus with the element caption |
| AgiCore.MainFormHandler.AddElementTab | agi-core-starter/src/main/java/agi/core/form/MainFormHandler.java:115-123 | add, caption, register and select the tab, as OpenOrFocus on a miss |
| AgiCore.MainFormHandler.GenerateElementCaption | agi-core-starter/src/main/java/agi/core/form/MainFormHandler.java:130-157 | the accumulating loop that stops at the first @Id computes ElementCaption |
| AgiCore.MainFormHandler.RefreshElementCaption | agi-core-starter/src/main/java/agi/core/form/MainFormHandler.java:159-171 | the new state and outcome are RefreshCaption of the old state |
| AgiCore.MainFormHandler.CloseTab | agi-core-starter/src/main/java/agi/core/form/MainFormHandler.java:63-70 | the new state is Close of the old state |
| Fixtures.CustomerCandidates | src/main/java/example/entity/Customer.java:41-74 | Customer's candidates are its five fields and countOfDeals; getFullName is not a provider |
| Fixtures.CustomerTailOrder | src/main/java/example/entity/Customer.java:52-70 | the sort of description, color, tradeDeals and countOfDeals is color, countOfDeals, description, tradeDeals |
| Fixtures.CustomerOrder | src/main/java/example/entity/Customer.java:44-67 | Customer lays out id (-1), name (2), color (5), countOfDeals (100), then description and tradeDeals in declaration order |
| Fixtures.ContactOrder | src/main/java/com/sepnotican/agi/example/entity/Contact.java:24-39 | Contact lays out customer (-2), comment (1), id (3) |
| Fixtures.CustomerCaptions | src/main/java/example/entity/Customer.java:29-30 | Customer's list tab is "Our Customers ", a new one "Customer:new", id 42 "Customer:42", and a null id throws |
| Fixtures.ContactCommands | src/main/java/com/sepnotican/agi/example/entity/Contact.java:19-21 | Contact, an AgiEntity class, gets Save and Reload |

## Left out

- Vaadin rendering is not modelled: icons, visibility, closability, focus, widths, heights and the "Closing" notification. Only the tab captions, the registry, the selection and the components a form adds are kept.
- The binder is a step in the `events` log: `writeBean`, `readBean` and `bindInstanceFields` are not modelled. Converters are recorded with their messages, but the parsing they do is left out. Whether a write succeeds is a parameter of the save and command methods.
- Reflection is replaced by records: an entity class lists its declared fields and methods in declaration order with their annotations. An entity maps each field name to the text of its value. Java does not fix the order of `getDeclaredFields`/`getDeclaredMethods`, and the model assumes declaration order.
- `hashCode()` is a value the entity carries (an `Int32`), not computed.
- Persistence is given by parameters: `JpaRepository.save`, `GenericDao.save` and `GenericDao.refresh` succeed with an entity or throw.
- Spring wiring is left out: dependency injection, `context.getBean`, `@PostConstruct` and the `@Value` button texts, which become the items `SaveItem` and `ReloadItem`.
- Logging is left out, and so are the newer handler's `handleFilterException` and `getMainLayout`.
- `GenericFieldGenerator` and `VaadinProvidersFactory` are not part of this model. They become the parameter `FieldGenerator`; the value provider is taken to exist for every static provider.
- `agi.core.form.util.UIOrderComparator` is not part of this model. The newer form's ordering assumes it equals the older form's comparator.
- `AbstractListForm` and `MainMenuGenerator.java` are not part of this model. A list tab's content records only the class name.
- JpaFormHandler.MainFormHandler.OpenElementForm: the older handler builds its element form through a constructor and an `init` whose signatures the older form does not have. The tab content there is the entity and the new-instance flag, not a form object.
- JpaFormHandler.MainFormHandler.GenerateElementCaption: the caught IllegalAccessException cannot arise, because fields are made accessible first, so the model has no such path.
- AgiCore.MainFormHandler.GenerateElementCaption: the same holds for the newer handler's caught IllegalAccessException; the model has no such path.
- TabRegistry.OpenOrFocus: Vaadin's `addTab` selects the added tab when no tab is selected. When the caption then throws, the model keeps the selection as it was. The same holds for both handlers' `AddTab` and their caption-failure paths.
- TabRegistry.Close: when the selected tab closes the selection becomes None. The tab Vaadin selects next is not modelled.
- AgiElementForm.ElementWidget: a field generator component that is not a widget is left as it is. In the source, the cast to `HasValue` before `setReadOnly` would throw for an @Id field.
- AgiElementForm.ElementWidget: a static provider's value is a total function of the method and the entity. In the source, applying the provider runs the entity's own code, which can throw; Customer's `countOfDeals` reads `tradeDeals.size()`, and that field is null on a Customer made by the no-argument constructor.
- AgiCore.MainFormHandler.ShowAbstractElementForm: because the provided value never fails, a miss for a class with a role always initialises the form and adds its tab. In the source, a throwing provider makes `init` throw before `addTab`, so no tab and no registry entry is made; the model does not capture that path, nor the partly built form it leaves.
- JpaElementForm.ElementForm.Save: the save's failure is a flag. The entity the repository returns is ignored, as in the older form.
