/** The Cursor-on-Target event that the bridge builds for each aircraft.
    Times are UTC instants in whole seconds since 1970-01-01T00:00:00Z;
    latitude, longitude and height are copied through unchanged, so they are
    kept as plain reals. */
module CursorOnTarget {

  datatype Point = Point(lat: real, lon: real, hae: real)

  datatype Contact = Contact(callsign: string)

  datatype Detail = Detail(contact: Contact)

  /** `eventType` is the event's `type` attribute (a CoT type code). */
  datatype Event = Event(
    version: string,
    uid: string,
    how: string,
    eventType: string,
    time: int,
    start: int,
    stale: int,
    point: Point,
    detail: Detail)

  /** The message handed to the TAK client; its XML encoding is not modelled. */
  datatype Message = Message(event: Event)
}
