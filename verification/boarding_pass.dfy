/** The boarding-pass style (wallet/PassStyles/BoardingPass.py). */
module BoardingPasses {
  import opened Wrappers
  import opened OrderedMaps
  import opened Values
  import opened PassStyles
  import opened PassInfo

  /** `BoardingPass(transitType=TransitType.AIR)` */
  function NewBoardingPass(transitType: TransitType := Air): (r: PassInformation)
    ensures r.style.BoardingPass? && r.style.transitType == transitType
    ensures JsonName(r.style) == "boardingPass"
    ensures forall g :: GroupFields(r, g) == []
  {
    NewPassInformation(BoardingPass(transitType))
  }

  /** `BoardingPass.json_dict()`: the group map, updated with the transit type. */
  function BoardingPassJson(pi: PassInformation, transitType: TransitType): Json {
    JObject(Put(GroupsJson(pi), "transitType", JString(TransitTypeName(transitType))))
  }

  /** The entry `json_dict` adds for the transit type. */
  function TransitEntry(transitType: TransitType): OMap<string, Json> {
    [("transitType", JString(TransitTypeName(transitType)))]
  }

  /** No group is named `transitType`, so the update appends. */
  lemma BoardingPassMembers(pi: PassInformation, transitType: TransitType)
    ensures BoardingPassJson(pi, transitType).members == GroupsJson(pi) + TransitEntry(transitType)
  {
    GroupsJsonKeys(pi);
    assert "transitType" !in Keys(GroupsJson(pi));
  }

  /** The boarding pass serialises as the five group names followed by
      `transitType` as the last key. */
  lemma BoardingPassJsonKeys(pi: PassInformation, transitType: TransitType)
    ensures ObjectKeys(BoardingPassJson(pi, transitType)) == Keys(GroupsJson(pi)) + ["transitType"]
  {
    BoardingPassMembers(pi, transitType);
    KeysAppend(GroupsJson(pi), TransitEntry(transitType));
  }

  /** The groups carry exactly the base `json_dict` contents, and
      `transitType` the transit type's constant. */
  lemma BoardingPassJsonValues(pi: PassInformation, transitType: TransitType)
    ensures forall g :: Member(BoardingPassJson(pi, transitType), GroupName(g))
                     == Get(GroupsJson(pi), GroupName(g))
    ensures Member(BoardingPassJson(pi, transitType), "transitType")
         == Some(JString(TransitTypeName(transitType)))
  {
    var m := GroupsJson(pi);
    var extra := TransitEntry(transitType);
    BoardingPassMembers(pi, transitType);
    GroupNamesPresent(pi);
    GroupsJsonKeys(pi);
    GetAppend(m, extra, "transitType");
    forall g ensures Get(m + extra, GroupName(g)) == Get(m, GroupName(g)) {
      GetAppend(m, extra, GroupName(g));
    }
  }

  /** Without an argument, a boarding pass is an air boarding pass. */
  lemma DefaultIsAir()
    ensures NewBoardingPass().style == BoardingPass(Air)
    ensures TransitTypeName(NewBoardingPass().style.transitType) == "PKTransitTypeAir"
  {
  }
}
