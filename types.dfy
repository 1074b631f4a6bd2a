/** The shapes of the booking widget's data (types.ts). */
module Types {

  /** A value that may be absent: a TypeScript optional property. */
  datatype Option<+T> = None | Some(value: T)

  /** The closed set of attraction identifiers: exactly three values. */
  datatype AttractionType = Orangutan | SunBear | Combo

  /** The unit price table of an attraction: exactly the two visitor categories. */
  datatype Prices = Prices(adult: int, child: int)

  /** A bookable experience. `externalUrl` is the only optional field. */
  datatype Attraction = Attraction(
    id: AttractionType,
    name: string,
    description: string,
    image: string,
    externalUrl: Option<string>,
    prices: Prices)

  /** The in-progress booking record. Its attraction can only be one of the three ids. */
  datatype BookingDetails = BookingDetails(
    attractionId: AttractionType,
    date: string,
    timeSlot: string,
    adultCount: int,
    childCount: int)
}
