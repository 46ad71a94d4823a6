/** The three kinds of record the record store keeps, one per table
    (farmers, crop_reports, livestock_reports). The auto-assigned id and the
    creation timestamp are filled in by the store, not by the handler, and
    are not part of the model. Every field is free text. */
module Records {

  datatype Record =
    | Farmer(phone: string, name: string, location: string, farmSize: string, crops: string, livestock: string)
    | CropReport(phone: string, crop: string, quantity: string)
    | LivestockReport(phone: string, animal: string, count: string)

  /** The fields the user typed, in column order (everything but the phone). */
  function Entered(r: Record): seq<string>
  {
    match r
    case Farmer(_, name, location, farmSize, crops, livestock) => [name, location, farmSize, crops, livestock]
    case CropReport(_, crop, quantity) => [crop, quantity]
    case LivestockReport(_, animal, count) => [animal, count]
  }
}
