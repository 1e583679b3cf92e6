/**
 * The shapes of the catalogue data the hero card receives: the movie record of the
 * detail page and the entries of a user's purchased-movie list.
 */
module Catalog {

  /** The raw `payment_type` field of a movie record, as the JavaScript code sees it. */
  datatype RawPaymentType =
    | Null                 // `null`: a free title
    | Undefined            // the field is absent
    | Code(code: string)   // any string, of which "PT", "DO" and "DV" are meaningful

  /** The fields of a movie record that the hero card reads; the price is in minor units (cents of a sol). */
  datatype Movie = Movie(id: nat, slug: string, priceCents: nat, paymentType: RawPaymentType)

  /** One entry of the user's purchased-movie list (`MovieUserList`). */
  datatype MovieEntry = MovieEntry(id: nat, slug: string)
}
