/** The pass styles: which top-level key of `pass.json` holds the field
    groups (wallet/PassStyles/BoardingPass.py and the style classes of
    wallet/models.py), and the transit types a boarding pass may carry. */
module PassStyles {
  datatype TransitType = Air | Train | Bus | Boat | GenericTransit

  /** The `PKTransitType…` constant of a transit type. */
  function TransitTypeName(t: TransitType): string {
    match t
    case Air => "PKTransitTypeAir"
    case Train => "PKTransitTypeTrain"
    case Bus => "PKTransitTypeBus"
    case Boat => "PKTransitTypeBoat"
    case GenericTransit => "PKTransitTypeGeneric"
  }

  datatype Style = Generic | StoreCard | Coupon | EventTicket | BoardingPass(transitType: TransitType)

  /** The style's `jsonname` attribute. */
  function JsonName(s: Style): string {
    match s
    case Generic => "generic"
    case StoreCard => "storeCard"
    case Coupon => "coupon"
    case EventTicket => "eventTicket"
    case BoardingPass(_) => "boardingPass"
  }

  /** Different styles and different transit types emit different names, so
      the style key of a document identifies the style. */
  lemma NamesIdentify(s: Style, s': Style)
    ensures JsonName(s) == JsonName(s') <==> s.BoardingPass? == s'.BoardingPass? && (!s.BoardingPass? ==> s == s')
    ensures s.BoardingPass? && s'.BoardingPass? ==>
      (TransitTypeName(s.transitType) == TransitTypeName(s'.transitType) <==> s == s')
  {
  }
}
