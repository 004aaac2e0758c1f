/** The content checks of the legacy module (wallet/models.py):
    `check_subfields` and `field_checks`. */
module LegacyChecks {
  import opened Wrappers
  import opened Errors
  import opened OrderedMaps
  import opened Values
  import opened Fields
  import opened PassInfo

  const HttpsPrefix := "https://"

  /** `field.get(name)` is truthy. */
  predicate StyleSet(field: Json, name: string) {
    Member(field, name).Some? && Truthy(Member(field, name).value)
  }

  /** The check `check_subfields` makes of one field dictionary: a field
      with a truthy `dateStyle` or `timeStyle` must hold a value `strptime`
      accepts. `isDate` says whether a string parses with `IsoDateFormat`. */
  function SubfieldError(field: Json, isDate: string -> bool): Option<Error> {
    if !field.JObject? then Some(WrongType)
    else if !(StyleSet(field, "dateStyle") || StyleSet(field, "timeStyle")) then None
    else match Member(field, "value")
      case None => Some(MissingArgument("value"))
      case Some(v) =>
        if !v.JString? then Some(WrongType)
        else if isDate(v.s) then None
        else Some(PassParameter(BadDateFormat))
  }

  /** `check_subfields(fields)`: the first field that fails, in list order. */
  function CheckSubfields(fields: seq<Json>, isDate: string -> bool): Option<Error>
    decreases |fields|
  {
    if |fields| == 0 then None
    else match SubfieldError(fields[0], isDate)
      case Some(e) => Some(e)
      case None => CheckSubfields(fields[1..], isDate)
  }

  /** `field_checks(field_name, field_data)`. Only list data reaches the
      group branches. */
  function FieldChecks(name: string, data: Json, isDate: string -> bool): Option<Error> {
    if name == "webServiceURL" then
      if !data.JString? then Some(WrongType)
      else if HttpsPrefix <= data.s then None
      else Some(PassParameter(InsecureWebService))
    else if name == "headerFields" then
      if !data.JArray? then Some(WrongType)
      else if |data.items| > 3 then Some(PassParameter(TooManyHeaderFields))
      else CheckSubfields(data.items, isDate)
    else if name == "primaryFields" || name == "secondaryFields" || name == "auxiliaryFields" then
      if !data.JArray? then Some(WrongType)
      else CheckSubfields(data.items, isDate)
    else None
  }

  // ---------------------------------------------------------------------
  // The checks in terms of the fields themselves.

  /** Whether a constructed field passes the date check: only a date field
      can have a style, and a truthy style demands an ISO timestamp string. */
  function FieldDateError(f: Field, isDate: string -> bool): Option<Error> {
    if !f.kind.Date? || !(Truthy(f.kind.dateStyle) || Truthy(f.kind.timeStyle)) then None
    else if !f.value.JString? then Some(WrongType)
    else if isDate(f.value.s) then None
    else Some(PassParameter(BadDateFormat))
  }

  /** The first field of a list whose date check fails. */
  function FirstFieldError(fs: seq<Field>, isDate: string -> bool): (r: Option<Error>)
    decreases |fs|
  {
    if |fs| == 0 then None
    else if FieldDateError(fs[0], isDate).Some? then FieldDateError(fs[0], isDate)
    else FirstFieldError(fs[1..], isDate)
  }

  /** Checking a field's dictionary is checking the field. */
  lemma SubfieldOfField(f: Field, isDate: string -> bool)
    ensures SubfieldError(FieldJson(f), isDate) == FieldDateError(f, isDate)
  {
    FieldJsonMembers(f);
    var j := FieldJson(f);
    if f.kind.Date? {
      assert StyleSet(j, "dateStyle") == Truthy(f.kind.dateStyle);
      assert StyleSet(j, "timeStyle") == Truthy(f.kind.timeStyle);
    } else {
      assert !StyleSet(j, "dateStyle") && !StyleSet(j, "timeStyle");
    }
  }

  /** Checking the serialised list finds the first field whose date check fails. */
  lemma {:induction false} CheckSubfieldsOfFields(fs: seq<Field>, isDate: string -> bool)
    ensures CheckSubfields(FieldsJson(fs), isDate)
         == FirstFieldError(fs, isDate)
    decreases |fs|
  {
    if |fs| > 0 {
      SubfieldOfField(fs[0], isDate);
      assert FieldsJson(fs)[1..] == FieldsJson(fs[1..]);
      CheckSubfieldsOfFields(fs[1..], isDate);
    }
  }

  /** A list passes exactly when every field passes; a failure reports the
      first failing field. */
  lemma {:induction false} FirstFieldErrorSpec(fs: seq<Field>, isDate: string -> bool)
    ensures FirstFieldError(fs, isDate).None? <==> forall i :: 0 <= i < |fs| ==> FieldDateError(fs[i], isDate).None?
    ensures FirstFieldError(fs, isDate).Some? ==>
      exists i :: 0 <= i < |fs| && FirstFieldError(fs, isDate) == FieldDateError(fs[i], isDate)
                  && forall j :: 0 <= j < i ==> FieldDateError(fs[j], isDate).None?
    decreases |fs|
  {
    if |fs| > 0 {
      FirstFieldErrorSpec(fs[1..], isDate);
      if FieldDateError(fs[0], isDate).None? {
        assert forall i :: 1 <= i < |fs| ==> fs[i] == fs[1..][i - 1];
        if FirstFieldError(fs, isDate).Some? {
          var k :| 0 <= k < |fs[1..]| && FirstFieldError(fs[1..], isDate) == FieldDateError(fs[1..][k], isDate)
                   && forall j :: 0 <= j < k ==> FieldDateError(fs[1..][j], isDate).None?;
          assert fs[k + 1] == fs[1..][k];
          assert forall j :: 1 <= j < k + 1 ==> FieldDateError(fs[j], isDate).None? by {
            forall j | 1 <= j < k + 1 ensures FieldDateError(fs[j], isDate).None? {
              assert fs[j] == fs[1..][j - 1];
            }
          }
        }
      }
    }
  }

  /** `PKDateStyleNone` is a non-empty string, so a date field styled
      "none" is still checked. */
  lemma DateStyleNoneIsChecked(f: Field, isDate: string -> bool)
    requires f.kind.Date? && f.kind.dateStyle == JString(DateStyleNone)
    requires f.value.JString? && !isDate(f.value.s)
    ensures SubfieldError(FieldJson(f), isDate) == Some(PassParameter(BadDateFormat))
  {
    SubfieldOfField(f, isDate);
  }

  /** A text field, or a date field with both styles unset, is never checked. */
  lemma UnstyledNotChecked(f: Field, isDate: string -> bool)
    requires !f.kind.Date? || (!Truthy(f.kind.dateStyle) && !Truthy(f.kind.timeStyle))
    ensures SubfieldError(FieldJson(f), isDate) == None
  {
    SubfieldOfField(f, isDate);
  }

  // ---------------------------------------------------------------------
  // field_checks by name.

  /** The web-service URL passes exactly when it is a string that starts
      with `https://`. */
  lemma WebServiceCheck(data: Json, isDate: string -> bool)
    ensures FieldChecks("webServiceURL", data, isDate).None? <==> data.JString? && HttpsPrefix <= data.s
    ensures FieldChecks("webServiceURL", data, isDate).Some? && data.JString? ==>
      FieldChecks("webServiceURL", data, isDate) == Some(PassParameter(InsecureWebService))
  {
  }

  /** More than three header fields are refused before any field is looked
      at; three or fewer are checked field by field. */
  lemma HeaderCheck(fs: seq<Field>, isDate: string -> bool)
    ensures var data := JArray(FieldsJson(fs));
      FieldChecks("headerFields", data, isDate)
      == if |fs| > 3 then Some(PassParameter(TooManyHeaderFields)) else FirstFieldError(fs, isDate)
  {
    CheckSubfieldsOfFields(fs, isDate);
  }

  /** Primary, secondary and auxiliary lists are checked field by field. */
  lemma BodyGroupCheck(name: string, fs: seq<Field>, isDate: string -> bool)
    requires name == "primaryFields" || name == "secondaryFields" || name == "auxiliaryFields"
    ensures FieldChecks(name, JArray(FieldsJson(fs)), isDate)
         == FirstFieldError(fs, isDate)
  {
    CheckSubfieldsOfFields(fs, isDate);
  }

  /** Back fields are never checked, whatever they hold. */
  lemma BackFieldsUnchecked(data: Json, isDate: string -> bool)
    ensures FieldChecks("backFields", data, isDate) == None
  {
  }

  /** Any other name passes unchecked. */
  lemma OtherNamesUnchecked(name: string, data: Json, isDate: string -> bool)
    requires name != "webServiceURL" && name != "headerFields" && name != "primaryFields"
    requires name != "secondaryFields" && name != "auxiliaryFields"
    ensures FieldChecks(name, data, isDate) == None
  {
  }
}
