/** What the newer generation's element form lays out: the eligible fields
    and the column value provider methods of an entity class, merged and
    sorted by draw order; one widget per field the field generator handles
    and one read-only text field per static provider; above them a command
    bar chosen by the class's role annotation. */
module AgiElementForm {
  import opened Meta
  import opened Seqs
  import opened DrawOrder

  /** A member the layout walks over: a declared field or a declared method. */
  datatype Element = FieldElement(field: Field) | MethodElement(member: Method)

  function ElementOrder(el: Element): Option<int> {
    match el
    case FieldElement(f) => f.drawOrder
    case MethodElement(m) => m.drawOrder
  }

  /** The collaborators buildFormFields calls: the field generator's
      widget for a field (None when it has none), its caption for a
      provider method, and the text of the value the provider computes
      for an entity. */
  datatype FieldGenerator = FieldGenerator(
    component: Field -> Option<Component>,
    methodCaption: Method -> string,
    providedValue: (Method, Entity) -> string)

  /** Fields take part unless they are injected or static. */
  function FieldCandidate(f: Field): (r: Option<Element>)
    ensures r.Some? <==> !f.isAutowired && !f.isStatic
    ensures r.Some? ==> r.value == FieldElement(f)
  {
    if !f.isAutowired && !f.isStatic then Some(FieldElement(f)) else None
  }

  /** Methods take part when they are column value providers. */
  function MethodCandidate(m: Method): (r: Option<Element>)
    ensures r.Some? <==> m.isValueProvider
    ensures r.Some? ==> r.value == MethodElement(m)
  {
    if m.isValueProvider then Some(MethodElement(m)) else None
  }

  /** The concatenated stream before sorting: eligible fields, then provider methods. */
  function Candidates(cls: EntityClass): seq<Element> {
    FilterMap(cls.fields, FieldCandidate) + FilterMap(cls.methods, MethodCandidate)
  }

  /** createOrderedElementsList over the candidates. */
  function OrderedCandidates(cls: EntityClass): seq<Element> {
    SortByDrawOrder(Candidates(cls), ElementOrder)
  }

  /** A field takes part exactly when it is neither injected nor static, and
      a method exactly when it is a column value provider; fields come
      before methods. */
  lemma CandidatesSpec(cls: EntityClass)
    ensures forall f :: FieldElement(f) in Candidates(cls) <==> f in cls.fields && !f.isAutowired && !f.isStatic
    ensures forall m :: MethodElement(m) in Candidates(cls) <==> m in cls.methods && m.isValueProvider
    ensures forall i, j :: 0 <= i < j < |Candidates(cls)| && Candidates(cls)[i].MethodElement? ==> Candidates(cls)[j].MethodElement?
  {
    var fs := FilterMap(cls.fields, FieldCandidate);
    var ms := FilterMap(cls.methods, MethodCandidate);
    forall f ensures FieldElement(f) in Candidates(cls) <==> f in cls.fields && !f.isAutowired && !f.isStatic {
      FilterMapMember(cls.fields, FieldCandidate, FieldElement(f));
      FilterMapMember(cls.methods, MethodCandidate, FieldElement(f));
      if f in cls.fields && !f.isAutowired && !f.isStatic {
        var j :| 0 <= j < |cls.fields| && cls.fields[j] == f;
        assert FieldCandidate(cls.fields[j]) == Some(FieldElement(f));
      }
    }
    forall m ensures MethodElement(m) in Candidates(cls) <==> m in cls.methods && m.isValueProvider {
      FilterMapMember(cls.fields, FieldCandidate, MethodElement(m));
      FilterMapMember(cls.methods, MethodCandidate, MethodElement(m));
      if m in cls.methods && m.isValueProvider {
        var j :| 0 <= j < |cls.methods| && cls.methods[j] == m;
        assert MethodCandidate(cls.methods[j]) == Some(MethodElement(m));
      }
    }
    forall i | 0 <= i < |fs| ensures fs[i].FieldElement? {
      FilterMapMember(cls.fields, FieldCandidate, fs[i]);
    }
    forall j | 0 <= j < |ms| ensures ms[j].MethodElement? {
      FilterMapMember(cls.methods, MethodCandidate, ms[j]);
    }
  }

  /** The ordered list is a permutation of the candidates, sorted by the
      comparator, and members that tie keep their order in the stream. */
  lemma OrderedCandidatesSpec(cls: EntityClass)
    ensures multiset(OrderedCandidates(cls)) == multiset(Candidates(cls))
    ensures SortedBy(OrderedCandidates(cls), ElementOrder)
    ensures forall k :: Filter(OrderedCandidates(cls), ElementOrder, k) == Filter(Candidates(cls), ElementOrder, k)
  {
    SortPermutes(Candidates(cls), ElementOrder);
    SortSorts(Candidates(cls), ElementOrder);
    forall k ensures Filter(OrderedCandidates(cls), ElementOrder, k) == Filter(Candidates(cls), ElementOrder, k) {
      SortStable(Candidates(cls), ElementOrder, k);
    }
  }

  /** One pass of the buildFormFields loop. A field gets the generator's
      component, made read-only when the field is the identifier; a
      non-static method is skipped; a static provider gets a read-only text
      field showing the value it computes for the entity. */
  function ElementWidget(gen: FieldGenerator, e: Entity, el: Element): (r: Option<Component>)
    ensures el.FieldElement? ==> (r.Some? <==> gen.component(el.field).Some?)
    ensures el.FieldElement? && r.Some? ==>
      var c := gen.component(el.field).value;
      r.value == if c.Widget? then c.(readOnly := el.field.isId || c.readOnly) else c
    ensures el.MethodElement? ==> (r.Some? <==> el.member.isStatic)
    ensures el.MethodElement? && r.Some? ==>
      r.value == Widget(TextField, gen.methodCaption(el.member), true, Fixed(gen.providedValue(el.member, e)))
  {
    match el
    case FieldElement(f) =>
      (match gen.component(f)
       case None => None
       case Some(c) => Some(if f.isId && c.Widget? then c.(readOnly := true) else c))
    case MethodElement(m) =>
      if !m.isStatic then None
      else Some(Widget(TextField, gen.methodCaption(m), true, Fixed(gen.providedValue(m, e))))
  }

  /** The widgets buildFormFields adds for the elements els, in order. */
  function ElementsLayout(gen: FieldGenerator, e: Entity, els: seq<Element>): seq<Component> {
    FilterMap(els, el => ElementWidget(gen, e, el))
  }

  function Layout(gen: FieldGenerator, e: Entity): seq<Component> {
    ElementsLayout(gen, e, OrderedCandidates(e.cls))
  }

  /** The command item of a @Command method. */
  function CommandItemOf(m: Method): (r: Option<MenuItem>)
    ensures r.Some? <==> m.command.Some?
    ensures r.Some? ==> r.value == CommandItem(m.command.value, m.name)
  {
    match m.command
    case None => None
    case Some(caption) => Some(CommandItem(caption, m.name))
  }

  /** initControlPanel's menu bar: Save and Reload for an AgiEntity class;
      otherwise, for an AgiForm class, one item per @Command method in
      declaration order; otherwise nothing. */
  function CommandBar(cls: EntityClass): (r: seq<MenuItem>)
    ensures cls.agiEntity.Some? ==> r == [SaveItem, ReloadItem]
    ensures cls.agiEntity.None? && cls.agiForm.None? ==> r == []
    ensures cls.agiEntity.None? && cls.agiForm.Some? ==> r == FilterMap(cls.methods, CommandItemOf)
  {
    if cls.agiEntity.Some? then [SaveItem, ReloadItem]
    else if cls.agiForm.Some? then FilterMap(cls.methods, CommandItemOf)
    else []
  }

  /** An AgiForm class's menu holds exactly one item per @Command method,
      captioned by the command and naming the method, in declaration order. */
  lemma CommandBarSpec(cls: EntityClass)
    requires cls.agiEntity.None? && cls.agiForm.Some?
    ensures |CommandBar(cls)| == |Producing(cls.methods, CommandItemOf)|
    ensures forall i :: 0 <= i < |CommandBar(cls)| ==> Producing(cls.methods, CommandItemOf)[i] < |cls.methods|
    ensures forall i :: 0 <= i < |CommandBar(cls)| ==>
      var m := cls.methods[Producing(cls.methods, CommandItemOf)[i]];
      m.command.Some? && CommandBar(cls)[i] == CommandItem(m.command.value, m.name)
    ensures forall j :: 0 <= j < |cls.methods| ==> (cls.methods[j].command.Some? <==> j in Producing(cls.methods, CommandItemOf))
    ensures forall i, j :: 0 <= i < j < |CommandBar(cls)| ==>
      Producing(cls.methods, CommandItemOf)[i] < Producing(cls.methods, CommandItemOf)[j]
  {
    FilterMapSpec(cls.methods, CommandItemOf);
  }

  /** What init lays out: the control panel, then the members' widgets. */
  function FormComponents(gen: FieldGenerator, e: Entity): seq<Component> {
    [ControlPanel(CommandBar(e.cls))] + Layout(gen, e)
  }

  /** The layout holds one widget per ordered element that yields one, in
      order: a field's widget is made read-only when the field is the
      identifier, a method's widget is a read-only text field showing the
      provided value, and only static providers and fields the generator
      handles yield a widget. */
  lemma LayoutSpec(gen: FieldGenerator, e: Entity)
    ensures var els, p := OrderedCandidates(e.cls), Producing(OrderedCandidates(e.cls), el => ElementWidget(gen, e, el));
      && |Layout(gen, e)| == |p|
      && (forall i :: 0 <= i < |p| ==> p[i] < |els|)
      && (forall i :: 0 <= i < |p| ==> ElementWidget(gen, e, els[p[i]]) == Some(Layout(gen, e)[i]))
      && (forall i, j :: 0 <= i < j < |p| ==> p[i] < p[j])
      && (forall j :: 0 <= j < |els| ==> (ElementWidget(gen, e, els[j]).Some? <==> j in p))
  {
    FilterMapSpec(OrderedCandidates(e.cls), el => ElementWidget(gen, e, el));
  }

  /** Identifier fields always appear read-only, and every provider widget is read-only. */
  lemma ReadOnlyWidgets(gen: FieldGenerator, e: Entity, el: Element)
    requires ElementWidget(gen, e, el).Some? && ElementWidget(gen, e, el).value.Widget?
    requires el.MethodElement? || el.field.isId
    ensures ElementWidget(gen, e, el).value.readOnly
  {
  }
}
