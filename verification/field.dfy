/** Display fields: the text field and its date, number and currency
    variants (wallet/PassProps/Field.py). */
module Fields {
  import opened Wrappers
  import opened Errors
  import opened OrderedMaps
  import opened Values

  const AlignLeft := "PKTextAlignmentLeft"
  const AlignCenter := "PKTextAlignmentCenter"
  const AlignRight := "PKTextAlignmentRight"
  const AlignJustified := "PKTextAlignmentJustified"
  const AlignNatural := "PKTextAlignmentNatural"

  const AlignmentTable: OMap<string, string> := [
    ("left", AlignLeft), ("center", AlignCenter), ("right", AlignRight),
    ("justified", AlignJustified), ("natural", AlignNatural)]

  const DateStyleNone := "PKDateStyleNone"
  const DateStyleShort := "PKDateStyleShort"
  const DateStyleMedium := "PKDateStyleMedium"
  const DateStyleLong := "PKDateStyleLong"
  const DateStyleFull := "PKDateStyleFull"

  const DateStyleTable: OMap<string, string> := [
    ("none", DateStyleNone), ("short", DateStyleShort), ("medium", DateStyleMedium),
    ("long", DateStyleLong), ("full", DateStyleFull)]

  const NumberStyleDecimal := "PKNumberStyleDecimal"
  const NumberStylePercent := "PKNumberStylePercent"
  const NumberStyleScientific := "PKNumberStyleScientific"
  const NumberStyleSpellOut := "PKNumberStyleSpellOut"

  const NumberStyleTable: OMap<string, string> := [
    ("decimal", NumberStyleDecimal), ("percent", NumberStylePercent),
    ("scientific", NumberStyleScientific), ("spellout", NumberStyleSpellOut)]

  /** A value is a key of a table exactly when it is a string the table lists. */
  lemma TableMembership(t: OMap<string, string>, arg: Json)
    ensures arg in KeysAsJson(t) <==> arg.JString? && arg.s in Keys(t)
  {
    if arg.JString? && arg.s in Keys(t) {
      assert arg == JString(arg.s);
    }
  }

  lemma AlignmentLookup(arg: Json)
    ensures Hashable(arg) ==> Lookup(AlignmentTable, arg, JNull).Success?
    ensures Hashable(arg) ==> AlignmentOf(arg, Lookup(AlignmentTable, arg, JNull).value)
  {
    var t := AlignmentTable;
    assert Keys(t) == ["left", "center", "right", "justified", "natural"];
    TableMembership(t, arg);
    GetAt(t, 0);
    GetAt(t, 1);
    GetAt(t, 2);
    GetAt(t, 3);
    GetAt(t, 4);
  }

  lemma DateStyleLookup(arg: Json)
    ensures Hashable(arg) ==> Lookup(DateStyleTable, arg, JNull).Success?
    ensures Hashable(arg) ==> DateStyleOf(arg, Lookup(DateStyleTable, arg, JNull).value)
  {
    var t := DateStyleTable;
    assert Keys(t) == ["none", "short", "medium", "long", "full"];
    TableMembership(t, arg);
    GetAt(t, 0);
    GetAt(t, 1);
    GetAt(t, 2);
    GetAt(t, 3);
    GetAt(t, 4);
  }

  lemma NumberStyleLookup(arg: Json)
    ensures Hashable(arg) ==> Lookup(NumberStyleTable, arg, JNull).Success?
    ensures Hashable(arg) ==> NumberStyleOf(arg, Lookup(NumberStyleTable, arg, JNull).value)
  {
    var t := NumberStyleTable;
    assert Keys(t) == ["decimal", "percent", "scientific", "spellout"];
    TableMembership(t, arg);
    GetAt(t, 0);
    GetAt(t, 1);
    GetAt(t, 2);
    GetAt(t, 3);
  }

  /** What a field carries beyond the text field's attributes. */
  datatype Kind =
    | Text
    | Date(dateStyle: Json, timeStyle: Json, isRelative: Json)
    | Number(numberStyle: Json)
    | Currency(currencyCode: Json)

  /** A constructed field. `None` marks an attribute the constructor never set. */
  datatype Field = Field(
    key: Json,
    attributedValue: Option<Json>,
    value: Json,
    labelText: Json,  // the `label` attribute
    changeMessage: Option<Json>,
    textAlignment: Json,
    kind: Kind)

  /** The alignment constant a `text_alignment` argument selects. */
  ghost predicate AlignmentOf(arg: Json, a: Json) {
    && (arg == JString("left") ==> a == JString(AlignLeft))
    && (arg == JString("center") ==> a == JString(AlignCenter))
    && (arg == JString("right") ==> a == JString(AlignRight))
    && (arg == JString("justified") ==> a == JString(AlignJustified))
    && (arg == JString("natural") ==> a == JString(AlignNatural))
    && (arg !in KeysAsJson(AlignmentTable) ==> a == JNull)
  }

  /** The date-style constant a `date_style` or `time_style` argument selects. */
  ghost predicate DateStyleOf(arg: Json, a: Json) {
    && (arg == JString("none") ==> a == JString(DateStyleNone))
    && (arg == JString("short") ==> a == JString(DateStyleShort))
    && (arg == JString("medium") ==> a == JString(DateStyleMedium))
    && (arg == JString("long") ==> a == JString(DateStyleLong))
    && (arg == JString("full") ==> a == JString(DateStyleFull))
    && (arg !in KeysAsJson(DateStyleTable) ==> a == JNull)
  }

  /** The number-style constant a `number_style` argument selects. */
  ghost predicate NumberStyleOf(arg: Json, a: Json) {
    && (arg == JString("decimal") ==> a == JString(NumberStyleDecimal))
    && (arg == JString("percent") ==> a == JString(NumberStylePercent))
    && (arg == JString("scientific") ==> a == JString(NumberStyleScientific))
    && (arg == JString("spellout") ==> a == JString(NumberStyleSpellOut))
    && (arg !in KeysAsJson(NumberStyleTable) ==> a == JNull)
  }

  /** `Field(**kw)` */
  function NewField(kw: Kwargs): (r: Result<Field, Error>)
    ensures "key" !in kw ==> r == Failure(MissingArgument("key"))
    ensures "key" in kw && "value" !in kw ==> r == Failure(MissingArgument("value"))
    ensures r.Success? <==>
      "key" in kw && "value" in kw && Hashable(KwGet(kw, "text_alignment", JString("left")))
    ensures r.Success? ==>
      && r.value.key == kw["key"]
      && r.value.value == kw["value"]
      && r.value.labelText == KwGet(kw, "label", JString(""))
      && (r.value.attributedValue.Some? <==> "attributed_value" in kw)
      && (r.value.attributedValue.Some? ==> r.value.attributedValue.value == kw["attributed_value"])
      && (r.value.changeMessage.Some? <==> "change_message" in kw)
      && (r.value.changeMessage.Some? ==> r.value.changeMessage.value == kw["change_message"])
      && AlignmentOf(KwGet(kw, "text_alignment", JString("left")), r.value.textAlignment)
      && r.value.kind == Text
  {
    if "key" !in kw then Failure(MissingArgument("key"))
    else
      var attributed := KwOpt(kw, "attributed_value");
      if "value" !in kw then Failure(MissingArgument("value"))
      else
        var arg := KwGet(kw, "text_alignment", JString("left"));
        if !Hashable(arg) then Failure(Unhashable)
        else
          AlignmentLookup(arg);
          var align := Lookup(AlignmentTable, arg, JNull).value;
          Success(Field(kw["key"], attributed, kw["value"], KwGet(kw, "label", JString("")),
                        KwOpt(kw, "change_message"), align, Text))
  }

  /** `DateField(**kw)`: a text field whose date and time styles default to
      short and whose `isRelative` defaults to false. */
  function NewDateField(kw: Kwargs): (r: Result<Field, Error>)
    ensures NewField(kw).Failure? ==> r == Failure(NewField(kw).error)
    ensures r.Success? <==>
      && NewField(kw).Success?
      && Hashable(KwGet(kw, "date_style", JString("short")))
      && Hashable(KwGet(kw, "time_style", JString("short")))
    ensures r.Success? ==>
      && r.value.kind.Date?
      && r.value.(kind := Text) == NewField(kw).value
      && DateStyleOf(KwGet(kw, "date_style", JString("short")), r.value.kind.dateStyle)
      && DateStyleOf(KwGet(kw, "time_style", JString("short")), r.value.kind.timeStyle)
      && r.value.kind.isRelative == KwGet(kw, "is_relativ", JBool(false))
  {
    DateStyleLookup(KwGet(kw, "date_style", JString("short")));
    DateStyleLookup(KwGet(kw, "time_style", JString("short")));
    var f :- NewField(kw);
    AsDateField(f, kw)
  }

  /** The part of `DateField.__init__` after the text-field constructor. */
  function AsDateField(f: Field, kw: Kwargs): Result<Field, Error> {
    var dateArg := KwGet(kw, "date_style", JString("short"));
    var timeArg := KwGet(kw, "time_style", JString("short"));
    if !Hashable(dateArg) || !Hashable(timeArg) then Failure(Unhashable)
    else
      var dateStyle := Lookup(DateStyleTable, dateArg, JNull).value;
      var timeStyle := Lookup(DateStyleTable, timeArg, JNull).value;
      Success(f.(kind := Date(dateStyle, timeStyle, KwGet(kw, "is_relativ", JBool(false)))))
  }

  /** `NumberField(**kw)`: a text field whose value is converted with
      `float()` in place and whose number style defaults to decimal. */
  function NewNumberField(kw: Kwargs, parseText: string -> Option<real>): (r: Result<Field, Error>)
    ensures NewField(kw).Failure? ==> r == Failure(NewField(kw).error)
    ensures NewField(kw).Success? && !Hashable(KwGet(kw, "number_style", JString("decimal"))) ==>
      r == Failure(Unhashable)
    ensures (NewField(kw).Success? && Hashable(KwGet(kw, "number_style", JString("decimal")))
             && ToFloat(kw["value"], parseText).Failure?) ==> r == Failure(ToFloat(kw["value"], parseText).error)
    ensures r.Success? <==>
      && NewField(kw).Success?
      && Hashable(KwGet(kw, "number_style", JString("decimal")))
      && ToFloat(kw["value"], parseText).Success?
    ensures r.Success? ==>
      && r.value.kind.Number?
      && r.value.value == JFloat(ToFloat(kw["value"], parseText).value)
      && r.value.(value := kw["value"], kind := Text) == NewField(kw).value
      && NumberStyleOf(KwGet(kw, "number_style", JString("decimal")), r.value.kind.numberStyle)
  {
    NumberStyleLookup(KwGet(kw, "number_style", JString("decimal")));
    var f :- NewField(kw);
    AsNumberField(f, kw, parseText)
  }

  /** The part of `NumberField.__init__` after the text-field constructor. */
  function AsNumberField(f: Field, kw: Kwargs, parseText: string -> Option<real>): Result<Field, Error> {
    var styleArg := KwGet(kw, "number_style", JString("decimal"));
    if !Hashable(styleArg) then Failure(Unhashable)
    else
      var style := Lookup(NumberStyleTable, styleArg, JNull).value;
      var x :- ToFloat(f.value, parseText);
      Success(f.(kind := Number(style), value := JFloat(x)))
  }

  /** `CurrencyField(**kw)`: a text field with a required `currency_code`
      whose value is converted with `float()` in place. */
  function NewCurrencyField(kw: Kwargs, parseText: string -> Option<real>): (r: Result<Field, Error>)
    ensures NewField(kw).Failure? ==> r == Failure(NewField(kw).error)
    ensures NewField(kw).Success? && "currency_code" !in kw ==>
      r == Failure(MissingArgument("currency_code"))
    ensures NewField(kw).Success? && "currency_code" in kw && ToFloat(kw["value"], parseText).Failure? ==>
      r == Failure(ToFloat(kw["value"], parseText).error)
    ensures r.Success? <==>
      NewField(kw).Success? && "currency_code" in kw && ToFloat(kw["value"], parseText).Success?
    ensures r.Success? ==>
      && r.value.kind == Currency(kw["currency_code"])
      && r.value.value == JFloat(ToFloat(kw["value"], parseText).value)
      && r.value.(value := kw["value"], kind := Text) == NewField(kw).value
  {
    var f :- NewField(kw);
    AsCurrencyField(f, kw, parseText)
  }

  /** The part of `CurrencyField.__init__` after the text-field constructor. */
  function AsCurrencyField(f: Field, kw: Kwargs, parseText: string -> Option<real>): Result<Field, Error> {
    if "currency_code" !in kw then Failure(MissingArgument("currency_code"))
    else
      var x :- ToFloat(f.value, parseText);
      Success(f.(kind := Currency(kw["currency_code"]), value := JFloat(x)))
  }

  /** The attributes every field sets, in the order the constructor sets them. */
  function BaseMembers(f: Field): OMap<string, Json> {
    [("key", f.key)] + OptMember("attributedValue", f.attributedValue)
    + [("value", f.value), ("label", f.labelText)]
    + OptMember("changeMessage", f.changeMessage)
    + [("textAlignment", f.textAlignment)]
  }

  /** The attributes a variant's constructor adds after the text field's. */
  function KindMembers(k: Kind): OMap<string, Json> {
    match k
    case Text => []
    case Date(dateStyle, timeStyle, isRelative) =>
      [("dateStyle", dateStyle), ("timeStyle", timeStyle), ("isRelative", isRelative)]
    case Number(numberStyle) => [("numberStyle", numberStyle)]
    case Currency(currencyCode) => [("currencyCode", currencyCode)]
  }

  /** `field.json_dict()`: the attribute dictionary of the field. */
  function FieldJson(f: Field): Json {
    JObject(BaseMembers(f) + KindMembers(f.kind))
  }

  /** The dictionary repeats no key and holds every attribute under its
      attribute name; the optional attributes and the date styles are
      present exactly when the field has them. */
  lemma FieldJsonMembers(f: Field)
    ensures var r := FieldJson(f);
      && r.JObject? && UniqueKeys(r.members)
      && Member(r, "key") == Some(f.key)
      && Member(r, "attributedValue") == f.attributedValue
      && Member(r, "value") == Some(f.value)
      && Member(r, "label") == Some(f.labelText)
      && Member(r, "changeMessage") == f.changeMessage
      && Member(r, "textAlignment") == Some(f.textAlignment)
      && Member(r, "dateStyle") == (if f.kind.Date? then Some(f.kind.dateStyle) else None)
      && Member(r, "timeStyle") == (if f.kind.Date? then Some(f.kind.timeStyle) else None)
      && Member(r, "isRelative") == (if f.kind.Date? then Some(f.kind.isRelative) else None)
      && Member(r, "numberStyle") == (if f.kind.Number? then Some(f.kind.numberStyle) else None)
      && Member(r, "currencyCode") == (if f.kind.Currency? then Some(f.kind.currencyCode) else None)
  {
    FieldLookups(f);
  }

  lemma FieldLookups(f: Field)
    ensures UniqueKeys(BaseMembers(f) + KindMembers(f.kind))
    ensures var m := BaseMembers(f) + KindMembers(f.kind);
      && Get(m, "key") == Some(f.key)
      && Get(m, "attributedValue") == f.attributedValue
      && Get(m, "value") == Some(f.value)
      && Get(m, "label") == Some(f.labelText)
      && Get(m, "changeMessage") == f.changeMessage
      && Get(m, "textAlignment") == Some(f.textAlignment)
      && Get(m, "dateStyle") == (if f.kind.Date? then Some(f.kind.dateStyle) else None)
      && Get(m, "timeStyle") == (if f.kind.Date? then Some(f.kind.timeStyle) else None)
      && Get(m, "isRelative") == (if f.kind.Date? then Some(f.kind.isRelative) else None)
      && Get(m, "numberStyle") == (if f.kind.Number? then Some(f.kind.numberStyle) else None)
      && Get(m, "currencyCode") == (if f.kind.Currency? then Some(f.kind.currencyCode) else None)
  {
    var m := BaseMembers(f) + KindMembers(f.kind);
    FieldKeys(f);
    BaseLookups(f, m);
    OptionalLookups(f, m);
    DateLookups(f, m);
    KindLookups(f, m);
  }

  lemma BaseLookups(f: Field, m: OMap<string, Json>)
    requires m == BaseMembers(f) + KindMembers(f.kind) && UniqueKeys(m)
    ensures Get(m, "key") == Some(f.key) && Get(m, "value") == Some(f.value)
    ensures Get(m, "label") == Some(f.labelText) && Get(m, "textAlignment") == Some(f.textAlignment)
  {
    GetMember(m, "key", f.key);
    GetMember(m, "value", f.value);
    GetMember(m, "label", f.labelText);
    GetMember(m, "textAlignment", f.textAlignment);
  }

  lemma OptionalLookups(f: Field, m: OMap<string, Json>)
    requires m == BaseMembers(f) + KindMembers(f.kind) && UniqueKeys(m)
    requires Keys(m) == BaseKeys(f) + KindKeys(f.kind)
    ensures Get(m, "attributedValue") == f.attributedValue
    ensures Get(m, "changeMessage") == f.changeMessage
  {
    KindKeysOf(f.kind);
    assert "attributedValue" !in KindKeys(f.kind) && "changeMessage" !in KindKeys(f.kind);
    if f.attributedValue.Some? {
      GetMember(m, "attributedValue", f.attributedValue.value);
    } else {
      assert "attributedValue" !in BaseKeys(f);
    }
    if f.changeMessage.Some? {
      GetMember(m, "changeMessage", f.changeMessage.value);
    } else {
      assert "changeMessage" !in BaseKeys(f);
    }
  }

  lemma DateLookups(f: Field, m: OMap<string, Json>)
    requires m == BaseMembers(f) + KindMembers(f.kind) && UniqueKeys(m)
    requires Keys(m) == BaseKeys(f) + KindKeys(f.kind)
    ensures Get(m, "dateStyle") == (if f.kind.Date? then Some(f.kind.dateStyle) else None)
    ensures Get(m, "timeStyle") == (if f.kind.Date? then Some(f.kind.timeStyle) else None)
  {
    var b := BaseMembers(f);
    if f.kind.Date? {
      assert m[|b|] == ("dateStyle", f.kind.dateStyle);
      assert m[|b| + 1] == ("timeStyle", f.kind.timeStyle);
      GetMember(m, "dateStyle", f.kind.dateStyle);
      GetMember(m, "timeStyle", f.kind.timeStyle);
    } else {
      assert "dateStyle" !in Keys(m) && "timeStyle" !in Keys(m);
    }
  }

  lemma KindLookups(f: Field, m: OMap<string, Json>)
    requires m == BaseMembers(f) + KindMembers(f.kind) && UniqueKeys(m)
    requires Keys(m) == BaseKeys(f) + KindKeys(f.kind)
    ensures Get(m, "isRelative") == (if f.kind.Date? then Some(f.kind.isRelative) else None)
    ensures Get(m, "numberStyle") == (if f.kind.Number? then Some(f.kind.numberStyle) else None)
    ensures Get(m, "currencyCode") == (if f.kind.Currency? then Some(f.kind.currencyCode) else None)
  {
    KindLookup(f, m, "isRelative");
    KindLookup(f, m, "numberStyle");
    KindLookup(f, m, "currencyCode");
    var k := KindMembers(f.kind);
    match f.kind
    case Text =>
    case Date(_, _, _) =>
      assert Keys(k) == ["dateStyle", "timeStyle", "isRelative"];
      GetAt(k, 2);
    case Number(_) =>
      GetAt(k, 0);
    case Currency(_) =>
      GetAt(k, 0);
  }

  /** A name the variant adds is found in the variant's own members. */
  lemma KindLookup(f: Field, m: OMap<string, Json>, name: string)
    requires m == BaseMembers(f) + KindMembers(f.kind)
    requires name in ["isRelative", "numberStyle", "currencyCode"]
    ensures Get(m, name) == Get(KindMembers(f.kind), name)
  {
    BaseKeysOf(f);
    assert name !in BaseKeys(f);
    GetAppend(BaseMembers(f), KindMembers(f.kind), name);
  }

  /** The keys the variant's constructor adds. */
  function KindKeys(k: Kind): seq<string> {
    match k
    case Text => []
    case Date(_, _, _) => ["dateStyle", "timeStyle", "isRelative"]
    case Number(_) => ["numberStyle"]
    case Currency(_) => ["currencyCode"]
  }

  /** The keys of the text field's attributes. */
  function BaseKeys(f: Field): seq<string> {
    ["key"] + (if f.attributedValue.Some? then ["attributedValue"] else [])
    + ["value", "label"]
    + (if f.changeMessage.Some? then ["changeMessage"] else [])
    + ["textAlignment"]
  }

  lemma BaseKeysOf(f: Field)
    ensures Keys(BaseMembers(f)) == BaseKeys(f)
    ensures Distinct(BaseKeys(f))
  {
    BaseKeysDistinct(f.attributedValue.Some?, f.changeMessage.Some?);
    var a := OptMember("attributedValue", f.attributedValue);
    var c := OptMember("changeMessage", f.changeMessage);
    var vl := [("value", f.value), ("label", f.labelText)];
    KeysAppend([("key", f.key)], a);
    KeysAppend([("key", f.key)] + a, vl);
    KeysAppend([("key", f.key)] + a + vl, c);
    KeysAppend([("key", f.key)] + a + vl + c, [("textAlignment", f.textAlignment)]);
  }

  lemma BaseKeysDistinct(attributed: bool, changed: bool)
    ensures Distinct(["key"] + (if attributed then ["attributedValue"] else []) + ["value", "label"]
                     + (if changed then ["changeMessage"] else []) + ["textAlignment"])
  {
  }

  lemma KindKeysOf(k: Kind)
    ensures Keys(KindMembers(k)) == KindKeys(k)
    ensures Distinct(KindKeys(k))
    ensures forall x :: x in KindKeys(k) ==> x !in BaseKeyNames
  {
  }

  /** Every key a text field can have. */
  const BaseKeyNames: set<string> :=
    {"key", "attributedValue", "value", "label", "changeMessage", "textAlignment"}

  lemma FieldKeys(f: Field)
    ensures Keys(BaseMembers(f) + KindMembers(f.kind)) == BaseKeys(f) + KindKeys(f.kind)
    ensures Distinct(BaseKeys(f) + KindKeys(f.kind))
  {
    BaseKeysOf(f);
    KindKeysOf(f.kind);
    KeysAppend(BaseMembers(f), KindMembers(f.kind));
    assert forall x :: x in BaseKeys(f) ==> x in BaseKeyNames;
    DistinctAppend(BaseKeys(f), KindKeys(f.kind));
  }

  /** The keys, in order, of a text field built from `kw`: the optional
      ones appear exactly when their keyword was given. */
  function TextFieldKeys(kw: Kwargs): seq<string> {
    ["key"] + (if "attributed_value" in kw then ["attributedValue"] else [])
    + ["value", "label"]
    + (if "change_message" in kw then ["changeMessage"] else [])
    + ["textAlignment"]
  }

  /** A field whose optional attributes match the keywords has the text
      field's keys followed by its variant's keys. */
  lemma VariantKeys(f: Field, kw: Kwargs)
    requires f.attributedValue.Some? <==> "attributed_value" in kw
    requires f.changeMessage.Some? <==> "change_message" in kw
    ensures ObjectKeys(FieldJson(f)) == TextFieldKeys(kw) + KindKeys(f.kind)
  {
    FieldKeys(f);
    assert BaseKeys(f) == TextFieldKeys(kw);
  }

  lemma NewFieldLayout(kw: Kwargs)
    requires NewField(kw).Success?
    ensures ObjectKeys(FieldJson(NewField(kw).value)) == TextFieldKeys(kw)
  {
    VariantKeys(NewField(kw).value, kw);
  }

  /** A date field has the text field's keys followed by its three style keys. */
  lemma NewDateFieldLayout(kw: Kwargs)
    requires NewDateField(kw).Success?
    ensures ObjectKeys(FieldJson(NewDateField(kw).value))
         == TextFieldKeys(kw) + ["dateStyle", "timeStyle", "isRelative"]
  {
    var g := NewDateField(kw).value;
    var t := NewField(kw).value;
    assert g.(kind := Text) == t;
    assert g.attributedValue == t.attributedValue && g.changeMessage == t.changeMessage;
    VariantKeys(g, kw);
  }

  /** A number field keeps `value` where the text field had it, now holding
      the float, and appends `numberStyle`. */
  lemma NewNumberFieldLayout(kw: Kwargs, parseText: string -> Option<real>)
    requires NewNumberField(kw, parseText).Success?
    ensures ObjectKeys(FieldJson(NewNumberField(kw, parseText).value)) == TextFieldKeys(kw) + ["numberStyle"]
    ensures Member(FieldJson(NewNumberField(kw, parseText).value), "value")
         == Some(JFloat(ToFloat(kw["value"], parseText).value))
  {
    var g := NewNumberField(kw, parseText).value;
    var t := NewField(kw).value;
    assert g.(value := kw["value"], kind := Text) == t;
    assert g.attributedValue == t.attributedValue && g.changeMessage == t.changeMessage;
    VariantKeys(g, kw);
    FieldJsonMembers(g);
  }

  /** A currency field has the text field's keys followed by `currencyCode`. */
  lemma NewCurrencyFieldLayout(kw: Kwargs, parseText: string -> Option<real>)
    requires NewCurrencyField(kw, parseText).Success?
    ensures ObjectKeys(FieldJson(NewCurrencyField(kw, parseText).value)) == TextFieldKeys(kw) + ["currencyCode"]
    ensures Member(FieldJson(NewCurrencyField(kw, parseText).value), "value")
         == Some(JFloat(ToFloat(kw["value"], parseText).value))
  {
    var g := NewCurrencyField(kw, parseText).value;
    var t := NewField(kw).value;
    assert g.(value := kw["value"], kind := Text) == t;
    assert g.attributedValue == t.attributedValue && g.changeMessage == t.changeMessage;
    VariantKeys(g, kw);
    FieldJsonMembers(g);
  }
}
