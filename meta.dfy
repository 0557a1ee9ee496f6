/** Entity metadata shared by both generations of the form engine: the
    declared members of an entity class as explicit records (in place of
    reflection), the class-level annotations the engine reads, the widgets
    and menu items it builds, and the few Java text conversions it relies on. */
module Meta {

  datatype Option<T> = None | Some(value: T)

  /** The exceptions the engine raises or lets through. */
  datatype Error =
    | MissingAnnotation        // RuntimeException: no AgiUI, AgiEntity or AgiForm on the class
    | NullPointer              // NullPointerException: a null value or a missing annotation dereferenced
    | NoSuchField(name: string) // Class.getDeclaredField found no field of that name
    | ValidationFailed         // Binder.writeBean rejected a widget value
    | PersistenceFailed        // the repository or the DAO threw
    | InvocationFailed         // a @Command method threw

  datatype Result<T> = Success(value: T) | Failure(error: Error)

  datatype Outcome = Pass | Fail(error: Error)

  /** The declared Java type of a field, as far as widget selection cares. */
  datatype JavaType =
    | LongObject | LongPrimitive
    | DoubleObject | DoublePrimitive
    | FloatObject | FloatPrimitive
    | StringType
    | EnumType(constants: seq<string>)
    | OtherType(typeName: string)

  /** A declared field with the annotations the engine looks at.
      drawOrder is None when the draw-order annotation is absent. */
  datatype Field = Field(
    name: string,
    jtype: JavaType,
    drawOrder: Option<int>,
    isId: bool,
    isBigString: bool,
    synonym: Option<string>,
    isAutowired: bool,
    isStatic: bool)

  /** A declared method: a column value provider, a form command
      (command holds Command.caption), or neither. */
  datatype Method = Method(
    name: string,
    isStatic: bool,
    isValueProvider: bool,
    command: Option<string>,
    drawOrder: Option<int>,
    synonym: Option<string>)

  /** The older generation's class annotation. */
  datatype AgiUIInfo = AgiUIInfo(entityCaption: string, listCaption: string, idFieldName: string)
  /** The newer generation's class annotations. */
  datatype AgiEntityInfo = AgiEntityInfo(singleCaption: string, menuCaption: string)
  datatype AgiFormInfo = AgiFormInfo(caption: string)

  datatype EntityClass = EntityClass(
    canonicalName: string,
    agiUI: Option<AgiUIInfo>,
    agiEntity: Option<AgiEntityInfo>,
    agiForm: Option<AgiFormInfo>,
    fields: seq<Field>,
    methods: seq<Method>)

  type Int32 = x: int | -0x8000_0000 <= x < 0x8000_0000

  /** A live entity: its class, the toString of each field's current value
      (None for null; a field missing from the map is null), and the value
      its hashCode() returns. */
  datatype Entity = Entity(cls: EntityClass, values: map<string, Option<string>>, hashCode: Int32)

  function FieldValue(e: Entity, name: string): Option<string> {
    if name in e.values then e.values[name] else None
  }

  /** String.valueOf(Object): "null" for null, toString otherwise. */
  function ValueOf(v: Option<string>): (s: string)
    ensures v.None? ==> s == "null"
    ensures v.Some? ==> s == v.value
  {
    match v
    case None => "null"
    case Some(t) => t
  }

  /** Position of the first field carrying @Id, in declaration order. */
  function FirstIdIndex(fs: seq<Field>): (r: Option<nat>)
    ensures r.Some? ==> r.value < |fs| && fs[r.value].isId
    ensures r.Some? ==> forall j :: 0 <= j < r.value ==> !fs[j].isId
    ensures r.None? ==> forall j :: 0 <= j < |fs| ==> !fs[j].isId
  {
    if fs == [] then None
    else if fs[0].isId then Some(0)
    else match FirstIdIndex(fs[1..])
      case None => None
      case Some(i) => Some(i + 1)
  }

  /** The result of field.get(entity).toString(): a null value throws. */
  function IdText(v: Option<string>): (r: Result<string>)
    ensures r.Failure? <==> v.None?
    ensures r.Failure? ==> r.error == NullPointer
    ensures r.Success? ==> r.value == v.value
  {
    match v
    case None => Failure(NullPointer)
    case Some(t) => Success(t)
  }

  function HasDeclaredField(fs: seq<Field>, name: string): bool {
    exists j :: 0 <= j < |fs| && fs[j].name == name
  }

  // ---- Java's decimal rendering of an int (String + int, Integer.toString)

  function DigitChar(d: nat): (c: char)
    requires d < 10
    ensures '0' <= c <= '9'
  {
    (48 + d) as char
  }

  function NatToString(n: nat): (s: string)
    ensures |s| >= 1
    ensures forall i :: 0 <= i < |s| ==> '0' <= s[i] <= '9'
    ensures (|s| == 1) == (n < 10)
  {
    if n < 10 then [DigitChar(n)] else NatToString(n / 10) + [DigitChar(n % 10)]
  }

  function IntToString(i: int): string {
    if i < 0 then "-" + NatToString(-i) else NatToString(i)
  }

  lemma {:induction false} NatToStringInjective(a: nat, b: nat)
    ensures NatToString(a) == NatToString(b) <==> a == b
  {
    if NatToString(a) == NatToString(b) {
      var s := NatToString(a);
      if a < 10 {
        assert b < 10;
        assert s[0] == DigitChar(a) && s[0] == DigitChar(b);
      } else {
        assert b >= 10;
        var n := |s|;
        assert s[..n - 1] == NatToString(a / 10) && s[..n - 1] == NatToString(b / 10);
        assert s[n - 1] == DigitChar(a % 10) && s[n - 1] == DigitChar(b % 10);
        NatToStringInjective(a / 10, b / 10);
      }
    }
  }

  /** Only negative numbers print with a leading '-'. */
  lemma LeadingMinus(i: int)
    ensures |IntToString(i)| >= 1
    ensures IntToString(i)[0] == '-' <==> i < 0
  {
  }

  /** Distinct ints print differently. */
  lemma IntToStringInjective(a: int, b: int)
    ensures IntToString(a) == IntToString(b) <==> a == b
  {
    if IntToString(a) == IntToString(b) {
      LeadingMinus(a);
      LeadingMinus(b);
      if a < 0 {
        assert NatToString(-a) == IntToString(a)[1..];
        assert NatToString(-b) == IntToString(b)[1..];
        NatToStringInjective(-a, -b);
      } else {
        NatToStringInjective(a, b);
      }
    }
  }

  // ---- What a form is made of

  /** The converter a binder attaches between a text widget and its field. */
  datatype Converter =
    | NoConversion
    | StringToLong(message: string)
    | StringToDouble(message: string)
    | StringToFloat(message: string)

  datatype WidgetKind =
    | TextField
    | TextArea
    | ComboBox(items: seq<string>, emptySelectionCaption: string)

  /** A widget is bound to a field through the binder, or shows a fixed text. */
  datatype Binding = BoundTo(fieldName: string, converter: Converter) | Fixed(text: string)

  datatype MenuItem = SaveItem | ReloadItem | CommandItem(caption: string, methodName: string)

  /** A component added to a form: the control panel holding the menu bar,
      or one editable or read-only widget. */
  datatype Component =
    | ControlPanel(items: seq<MenuItem>)
    | Widget(kind: WidgetKind, caption: string, readOnly: bool, binding: Binding)

  /** What a form asks of its binder and its persistence collaborator, in order. */
  datatype FormEvent =
    | WriteBean
    | ReadBean
    | PersistSave
    | PersistRefresh
    | Invoke(methodName: string)
    | ErrorNotification(text: string)
}
