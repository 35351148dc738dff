/**
  The trip (order) record shared by the browser and the API, with its stops.
  The browser's `Trip` is the API's `Order` response under another name.
 */
module Trips {
  import opened Wrappers
  import opened Numbers

  /** The optional free-text columns of an order; a missing key stands for null/undefined. */
  datatype OptText =
    | Dimensions | VehicleType | ContactPerson | ContactPhone | ContactEmail
    | BillOfLading | ContainerNumber | SealNumber | Carrier
    | ReferenceNumber | PoNumber | CustomerReference
    | SpecialInstructions | InternalNotes

  /** A stop of a route, as the creation form edits it and the API stores it. */
  datatype Stop = Stop(
    location: string,
    stopType: string,
    scheduledTime: string,
    contactPerson: string,
    contactPhone: string,
    sequence: int)

  /**
    A stored order. Timestamps `createdAt` and `updatedAt` are milliseconds
    since the epoch; `pickupDate` and `deliveryDate` are kept as the text the
    API sends.
   */
  datatype Trip = Trip(
    id: nat,
    customerId: int,
    pickupLocation: string,
    deliveryLocation: string,
    pickupDate: string,
    deliveryDate: string,
    cargoType: string,
    weight: real,
    optional: map<OptText, string>,
    quoteAmount: Option<real>,
    status: string,
    createdAt: int,
    updatedAt: int,
    stops: seq<Stop>)

  /** The value of an optional text column, None when it is null. */
  function TextOf(t: Trip, f: OptText): Option<string> {
    if f in t.optional then Some(t.optional[f]) else None
  }

  /**
    The `quote_amount` key of a create request: left out (the schema's default
    0.0 applies), sent as null, or sent as a number.
   */
  datatype SentQuote = QuoteAbsent | QuoteNull | QuoteSent(amount: real)

  /**
    The body of a create request. `weight` is what the form's number input
    produced, NaN when it was cleared (sent as JSON null).
   */
  datatype TripCreate = TripCreate(
    customerId: int,
    pickupLocation: string,
    deliveryLocation: string,
    pickupDate: string,
    deliveryDate: string,
    cargoType: string,
    weight: Num,
    optional: map<OptText, string>,
    quoteAmount: SentQuote,
    status: string,
    stops: seq<Stop>)
}
