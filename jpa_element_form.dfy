/** The older generation's element form: it sorts an entity's declared
    fields by draw order, picks a widget for each by its declared type,
    captions it, makes the identifier read-only, and puts a Save/Reload
    control panel above them. */
module JpaElementForm {
  import opened Meta
  import opened Seqs
  import opened DrawOrder

  const EmptyEnumText: string := "<empty>"
  const LongMessage: string := "Must be a Long value"
  const DoubleMessage: string := "Must be a double value"
  const FloatMessage: string := "Must be a float value"

  function FieldOrder(f: Field): Option<int> {
    f.drawOrder
  }

  /** createOrderedElementsList: the declared fields in draw order. */
  function OrderedFields(fs: seq<Field>): seq<Field> {
    SortByDrawOrder(fs, FieldOrder)
  }

  /** The ordered list is a permutation of the declared fields, sorted by
      the comparator, and fields that tie keep their declaration order. */
  lemma OrderedFieldsSpec(fs: seq<Field>)
    ensures multiset(OrderedFields(fs)) == multiset(fs)
    ensures SortedBy(OrderedFields(fs), FieldOrder)
    ensures forall k :: Filter(OrderedFields(fs), FieldOrder, k) == Filter(fs, FieldOrder, k)
  {
    SortPermutes(fs, FieldOrder);
    SortSorts(fs, FieldOrder);
    forall k ensures Filter(OrderedFields(fs), FieldOrder, k) == Filter(fs, FieldOrder, k) {
      SortStable(fs, FieldOrder, k);
    }
  }

  /** makeUpCaptionForField: the synonym when there is one, else the field name. */
  function CaptionFor(f: Field): (c: string)
    ensures f.synonym.Some? ==> c == f.synonym.value
    ensures f.synonym.None? ==> c == f.name
  {
    match f.synonym
    case Some(s) => s
    case None => f.name
  }

  /** getComponentByFieldAndBind with the generate* methods it dispatches to:
      a widget bound to the field by name, chosen by the declared type, or
      none for a type without a widget. */
  function ComponentFor(f: Field): (r: Option<Component>)
    ensures r.None? <==> f.jtype.OtherType?
    ensures r.Some? ==> r.value.Widget? && !r.value.readOnly
    ensures r.Some? ==> r.value.binding.BoundTo? && r.value.binding.fieldName == f.name
    ensures r.Some? ==> (r.value.kind == TextArea <==> f.jtype == StringType && f.isBigString)
    ensures f.jtype == LongObject || f.jtype == LongPrimitive ==>
      r.Some? && r.value.kind == TextField && r.value.binding.converter == StringToLong(LongMessage)
    ensures f.jtype == DoubleObject || f.jtype == DoublePrimitive ==>
      r.Some? && r.value.kind == TextField && r.value.binding.converter == StringToDouble(DoubleMessage)
    ensures f.jtype == FloatObject || f.jtype == FloatPrimitive ==>
      r.Some? && r.value.kind == TextField && r.value.binding.converter == StringToFloat(FloatMessage)
    ensures f.jtype == StringType ==> r.Some? && !r.value.kind.ComboBox? && r.value.binding.converter == NoConversion
    ensures f.jtype.EnumType? ==>
      r.Some? && r.value.kind == ComboBox(f.jtype.constants, EmptyEnumText) && r.value.binding.converter == NoConversion
  {
    match f.jtype
    case LongObject => Some(Widget(TextField, f.name, false, BoundTo(f.name, StringToLong(LongMessage))))
    case LongPrimitive => Some(Widget(TextField, f.name, false, BoundTo(f.name, StringToLong(LongMessage))))
    case DoubleObject => Some(Widget(TextField, f.name, false, BoundTo(f.name, StringToDouble(DoubleMessage))))
    case DoublePrimitive => Some(Widget(TextField, f.name, false, BoundTo(f.name, StringToDouble(DoubleMessage))))
    case FloatObject => Some(Widget(TextField, f.name, false, BoundTo(f.name, StringToFloat(FloatMessage))))
    case FloatPrimitive => Some(Widget(TextField, f.name, false, BoundTo(f.name, StringToFloat(FloatMessage))))
    case StringType =>
      Some(Widget(if f.isBigString then TextArea else TextField, "", false, BoundTo(f.name, NoConversion)))
    case EnumType(constants) =>
      Some(Widget(ComboBox(constants, EmptyEnumText), "", false, BoundTo(f.name, NoConversion)))
    case OtherType(_) => None
  }

  /** One pass of the init loop: the field's widget, read-only when the
      field is the identifier, with its caption. */
  function LaidOut(f: Field): Option<Component> {
    match ComponentFor(f)
    case None => None
    case Some(w) =>
      var w' := if f.isId then w.(readOnly := true) else w;
      Some(w'.(caption := CaptionFor(f)))
  }

  /** The widgets init adds for fs, in order. */
  function Layout(fs: seq<Field>): seq<Component> {
    FilterMap(fs, LaidOut)
  }

  /** What init lays out: the control panel first, then the fields' widgets
      in draw order. */
  function FormComponents(e: Entity): seq<Component> {
    [ControlPanel([SaveItem, ReloadItem])] + Layout(OrderedFields(e.cls.fields))
  }

  /** The layout holds exactly one widget per field of a supported type, in
      the fields' order: the i-th widget belongs to a field with a widget
      kind, is read-only exactly when that field is the identifier, carries
      its caption and is bound to it; fields of other types are skipped. */
  lemma LayoutSpec(fs: seq<Field>)
    ensures |Layout(fs)| == |Producing(fs, LaidOut)|
    ensures forall i :: 0 <= i < |Layout(fs)| ==> Producing(fs, LaidOut)[i] < |fs|
    ensures forall i :: 0 <= i < |Layout(fs)| ==> LaidOut(fs[Producing(fs, LaidOut)[i]]) == Some(Layout(fs)[i])
    ensures forall i :: 0 <= i < |Layout(fs)| ==>
      var f := fs[Producing(fs, LaidOut)[i]];
      && !f.jtype.OtherType?
      && Layout(fs)[i].Widget?
      && Layout(fs)[i].readOnly == f.isId
      && Layout(fs)[i].caption == CaptionFor(f)
      && Layout(fs)[i].binding.BoundTo? && Layout(fs)[i].binding.fieldName == f.name
    ensures forall i, j :: 0 <= i < j < |Layout(fs)| ==> Producing(fs, LaidOut)[i] < Producing(fs, LaidOut)[j]
    ensures forall j :: 0 <= j < |fs| ==> (!fs[j].jtype.OtherType? <==> j in Producing(fs, LaidOut))
  {
    FilterMapSpec(fs, LaidOut);
  }

  class ElementForm {
    var entity: Option<Entity>
    var components: seq<Component>
    var events: seq<FormEvent>

    /** The repository the form saves through is a collaborator outside the model. */
    constructor ()
      ensures entity == None && components == [] && events == []
    {
      entity := None;
      components := [];
      events := [];
    }

    /** init: clears the form, adds the control panel, then one widget per
      field of a supported type in draw order, and reads the entity into
      the binder. */
    method Init(e: Entity)
      modifies this
      ensures entity == Some(e)
      ensures components == FormComponents(e)
      ensures events == old(events) + [ReadBean]
    {
      components := [];
      entity := Some(e);
      components := components + [ControlPanel([SaveItem, ReloadItem])];
      var ordered := OrderedFields(e.cls.fields);
      var i := 0;
      while i < |ordered|
        invariant 0 <= i <= |ordered|
        invariant components == [ControlPanel([SaveItem, ReloadItem])] + Layout(ordered[..i])
        invariant entity == Some(e) && events == old(events)
      {
        assert ordered[..i + 1][..i] == ordered[..i];
        var field := ordered[i];
        var component := ComponentFor(field);
        if component.None? {
          i := i + 1;
          continue;
        }
        var w := component.value;
        if field.isId {
          w := w.(readOnly := true);
        }
        w := w.(caption := CaptionFor(field));
        components := components + [w];
        i := i + 1;
      }
      assert ordered[..i] == ordered;
      events := events + [ReadBean];
    }

    /** The Save item: write the widgets into the entity, then save it. A
      rejected write is caught; a failing save propagates. */
    method Save(written: Option<Entity>, saveSucceeds: bool) returns (r: Outcome)
      requires entity.Some?
      modifies this
      ensures components == old(components)
      ensures written.None? ==> r == Pass && entity == old(entity) && events == old(events) + [WriteBean]
      ensures written.Some? ==> entity == written && events == old(events) + [WriteBean, PersistSave]
      ensures written.Some? ==> r == if saveSucceeds then Pass else Fail(PersistenceFailed)
    {
      events := events + [WriteBean];
      if written.None? {
        return Pass;
      }
      entity := written;
      events := events + [PersistSave];
      r := if saveSucceeds then Pass else Fail(PersistenceFailed);
    }

    /** The Reload item: read the entity back into the widgets. */
    method Reload()
      requires entity.Some?
      modifies this
      ensures entity == old(entity) && components == old(components)
      ensures events == old(events) + [ReadBean]
    {
      events := events + [ReadBean];
    }
  }
}
