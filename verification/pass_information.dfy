/** The five field groups of a pass
    (wallet/PassInformation/PassInformation.py). */
module PassInfo {
  import opened Wrappers
  import opened Errors
  import opened OrderedMaps
  import opened Values
  import opened Fields
  import opened PassStyles

  datatype Group = Header | Primary | Secondary | Back | Auxiliary

  /** The groups are public lists in the source, so a group may hold fields
      of any variant, not only the text fields the `add_*_field` methods build. */
  datatype PassInformation = PassInformation(
    style: Style,
    headerFields: seq<Field>,
    primaryFields: seq<Field>,
    secondaryFields: seq<Field>,
    backFields: seq<Field>,
    auxiliaryFields: seq<Field>)

  /** The attribute holding a group. */
  function GroupName(g: Group): string {
    match g
    case Header => "headerFields"
    case Primary => "primaryFields"
    case Secondary => "secondaryFields"
    case Back => "backFields"
    case Auxiliary => "auxiliaryFields"
  }

  /** The order in which `json_dict` visits the groups. */
  const GroupOrder: seq<Group> := [Header, Primary, Secondary, Back, Auxiliary]

  function GroupFields(pi: PassInformation, g: Group): seq<Field> {
    match g
    case Header => pi.headerFields
    case Primary => pi.primaryFields
    case Secondary => pi.secondaryFields
    case Back => pi.backFields
    case Auxiliary => pi.auxiliaryFields
  }

  /** A style's constructor: every group starts empty. */
  function NewPassInformation(style: Style): (r: PassInformation)
    ensures r.style == style
    ensures forall g :: GroupFields(r, g) == []
  {
    PassInformation(style, [], [], [], [], [])
  }

  /** `getattr(self, group).append(f)` */
  function Append(pi: PassInformation, g: Group, f: Field): (r: PassInformation)
    ensures GroupFields(r, g) == GroupFields(pi, g) + [f]
    ensures forall g' :: g' != g ==> GroupFields(r, g') == GroupFields(pi, g')
    ensures r.style == pi.style
  {
    match g
    case Header => pi.(headerFields := pi.headerFields + [f])
    case Primary => pi.(primaryFields := pi.primaryFields + [f])
    case Secondary => pi.(secondaryFields := pi.secondaryFields + [f])
    case Back => pi.(backFields := pi.backFields + [f])
    case Auxiliary => pi.(auxiliaryFields := pi.auxiliaryFields + [f])
  }

  /** `add_header_field(**kw)` and its four siblings: builds a text field and
      appends it, whatever the group already holds. A constructor error
      leaves nothing appended. */
  function AddField(pi: PassInformation, g: Group, kw: Kwargs): (r: Result<PassInformation, Error>)
    ensures r.Success? <==> NewField(kw).Success?
    ensures r.Failure? ==> r.error == NewField(kw).error
    ensures r.Success? ==>
      && GroupFields(r.value, g) == GroupFields(pi, g) + [NewField(kw).value]
      && |GroupFields(r.value, g)| == |GroupFields(pi, g)| + 1
      && (forall g' :: g' != g ==> GroupFields(r.value, g') == GroupFields(pi, g'))
      && r.value.style == pi.style
  {
    var f :- NewField(kw);
    Success(Append(pi, g, f))
  }

  /** `[f.json_dict() for f in fields]` */
  function FieldsJson(fs: seq<Field>): (r: seq<Json>)
    ensures |r| == |fs|
    ensures forall i :: 0 <= i < |fs| ==> r[i] == FieldJson(fs[i])
  {
    if |fs| == 0 then [] else [FieldJson(fs[0])] + FieldsJson(fs[1..])
  }

  /** Serialising a longer list serialises the added fields after the old ones. */
  lemma {:induction false} FieldsJsonAppend(a: seq<Field>, b: seq<Field>)
    ensures FieldsJson(a + b) == FieldsJson(a) + FieldsJson(b)
    decreases |a|
  {
    if |a| > 0 {
      assert (a + b)[0] == a[0];
      assert (a + b)[1..] == a[1..] + b;
      FieldsJsonAppend(a[1..], b);
    } else {
      assert a + b == b;
    }
  }

  /** The entry `json_dict` makes for one group. */
  function GroupEntry(pi: PassInformation, g: Group): (string, Json) {
    (GroupName(g), JArray(FieldsJson(GroupFields(pi, g))))
  }

  /** `PassInformation.json_dict()`: one entry per group, added in `GroupOrder`;
      every group is present, an empty one as `[]`. */
  function GroupsJson(pi: PassInformation): OMap<string, Json> {
    [GroupEntry(pi, Header), GroupEntry(pi, Primary), GroupEntry(pi, Secondary),
     GroupEntry(pi, Back), GroupEntry(pi, Auxiliary)]
  }

  /** The group map has exactly the five group names, in visiting order. */
  lemma GroupsJsonKeys(pi: PassInformation)
    ensures Keys(GroupsJson(pi)) == ["headerFields", "primaryFields", "secondaryFields",
                                     "backFields", "auxiliaryFields"]
  {
  }

  lemma GroupsJsonUnique(pi: PassInformation)
    ensures UniqueKeys(GroupsJson(pi))
  {
    GroupsJsonKeys(pi);
  }

  lemma GroupNamesPresent(pi: PassInformation)
    ensures forall g :: GroupName(g) in Keys(GroupsJson(pi))
  {
    GroupsJsonKeys(pi);
    var ks := Keys(GroupsJson(pi));
    forall g ensures GroupName(g) in ks {
      match g
      case Header => assert ks[0] == GroupName(g);
      case Primary => assert ks[1] == GroupName(g);
      case Secondary => assert ks[2] == GroupName(g);
      case Back => assert ks[3] == GroupName(g);
      case Auxiliary => assert ks[4] == GroupName(g);
    }
  }

  /** Each group name maps to the serialised fields of its group. */
  lemma GroupsJsonLayout(pi: PassInformation)
    ensures forall g :: Get(GroupsJson(pi), GroupName(g)) == Some(JArray(FieldsJson(GroupFields(pi, g))))
  {
    var m := GroupsJson(pi);
    GroupsJsonKeys(pi);
    GroupsJsonUnique(pi);
    forall g ensures Get(m, GroupName(g)) == Some(JArray(FieldsJson(GroupFields(pi, g)))) {
      match g
      case Header => GetAt(m, 0);
      case Primary => GetAt(m, 1);
      case Secondary => GetAt(m, 2);
      case Back => GetAt(m, 3);
      case Auxiliary => GetAt(m, 4);
    }
  }

  /** Appending a field to group X changes the group map only in group X,
      whose list gains the field's dictionary at its end. */
  lemma AppendJson(pi: PassInformation, g: Group, f: Field)
    ensures var after := GroupsJson(Append(pi, g, f));
      && Keys(after) == Keys(GroupsJson(pi))
      && Get(after, GroupName(g)) == Some(JArray(FieldsJson(GroupFields(pi, g)) + [FieldJson(f)]))
      && forall g' :: g' != g ==> Get(after, GroupName(g')) == Get(GroupsJson(pi), GroupName(g'))
  {
    var pi' := Append(pi, g, f);
    GroupsJsonKeys(pi);
    GroupsJsonKeys(pi');
    GroupsJsonLayout(pi);
    GroupsJsonLayout(pi');
    FieldsJsonAppend(GroupFields(pi, g), [f]);
    assert FieldsJson([f]) == [FieldJson(f)];
    assert FieldsJson(GroupFields(pi', g)) == FieldsJson(GroupFields(pi, g)) + [FieldJson(f)];
  }

  /** After a successful `add_X_field`, the group map differs only in group X,
      whose list gains the new field's dictionary at its end. */
  lemma AddFieldJson(pi: PassInformation, g: Group, kw: Kwargs)
    requires AddField(pi, g, kw).Success?
    ensures var after := GroupsJson(AddField(pi, g, kw).value);
      && Keys(after) == Keys(GroupsJson(pi))
      && Get(after, GroupName(g))
         == Some(JArray(FieldsJson(GroupFields(pi, g)) + [FieldJson(NewField(kw).value)]))
      && forall g' :: g' != g ==> Get(after, GroupName(g')) == Get(GroupsJson(pi), GroupName(g'))
  {
    var f := NewField(kw).value;
    assert AddField(pi, g, kw).value == Append(pi, g, f);
    AppendJson(pi, g, f);
  }
}
