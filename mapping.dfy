/** The pure part of the OpenSky worker: turning one OpenSky state vector into
    one Cursor-on-Target message, and a polled batch into the messages sent
    for it. */
module OpenSkyMapping {
  import opened Wrappers
  import opened DotNet
  import opened CursorOnTarget

  /** One OpenSky state vector, reduced to the fields the bridge reads.
      `timePosition` is the time of the last position report, in seconds since
      the Unix epoch; the coordinates and the altitude are in degrees and
      metres and are only copied. */
  datatype StateVector = StateVector(
    icao24: string,
    callSign: Option<string>,
    timePosition: Option<Int32>,
    latitude: Option<real>,
    longitude: Option<real>,
    altitude: Option<real>)

  /** Why a state vector produced no message. The first two are exceptions
      thrown while computing the event time and the last the exception of the
      stale time; all three are caught per record. `MissingPosition` is the
      explicit `continue`. */
  datatype SkipReason =
    | NoTimePosition    // `(int)` cast of a null `TimePosition`
    | TimeOutOfRange    // `AddSeconds` leaves the DateTime range
    | MissingPosition   // latitude or longitude is null
    | StaleOutOfRange   // `AddSeconds(_interval)` leaves the DateTime range

  const CotVersion := "2.0"
  const UidPrefix := "opensky-"
  const HowMachineGps := "m-p"
  /** Friendly-unknown civil fixed-wing aircraft. */
  const AircraftType := "a-n-A-C-F"
  /** Height above ellipsoid reported when the altitude is unknown. */
  const UnknownHeight: real := 9999999.0

  /** The CoT type of an aircraft; a placeholder for a lookup by ICAO 24-bit
      address that does not exist yet. */
  function LookupType(icao24: string): string {
    AircraftType
  }

  /** Whether `MapState` yields a message: every record with a position time
      and both coordinates does. */
  predicate Usable(sv: StateVector) {
    sv.timePosition.Some? && sv.latitude.Some? && sv.longitude.Some?
  }

  /** The contact callsign: the trimmed callsign, or the trimmed ICAO address
      when the callsign is null. */
  function CallsignOf(sv: StateVector): string {
    Trim(sv.callSign.GetOr(sv.icao24))
  }

  /** The body of the per-record `try` block, up to the send: the message for
      `sv`, or why there is none. `interval` is the configured poll interval,
      used here as a number of seconds. */
  function MapState(sv: StateVector, interval: Int32): (r: Result<Message, SkipReason>)
    ensures r.Success? <==> Usable(sv)
    ensures sv.timePosition.None? ==> r == Failure(NoTimePosition)
    ensures sv.timePosition.Some? && (sv.latitude.None? || sv.longitude.None?) ==>
              r == Failure(MissingPosition)
  {
    match sv.timePosition
    case None => Failure(NoTimePosition)
    case Some(seconds) =>
      match AddSeconds(Epoch, seconds as int)
      case None => Failure(TimeOutOfRange)
      case Some(time) =>
        if sv.latitude.None? || sv.longitude.None? then Failure(MissingPosition)
        else
          match AddSeconds(time, interval as int)
          case None => Failure(StaleOutOfRange)
          case Some(stale) =>
            Success(Message(Event(
              version := CotVersion,
              uid := UidPrefix + sv.icao24,
              how := HowMachineGps,
              eventType := LookupType(sv.icao24),
              time := time,
              start := time,
              stale := stale,
              point := Point(sv.latitude.value, sv.longitude.value, sv.altitude.GetOr(UnknownHeight)),
              detail := Detail(Contact(CallsignOf(sv))))))
  }

  /** The fields of the event built for a usable record: constant version,
      `how` and type; a uid derived from the ICAO address alone; the position
      time as both `time` and `start`; a stale time `interval` seconds later;
      the coordinates copied; the altitude or the unknown-height sentinel; and
      the trimmed callsign. */
  lemma MapStateFields(sv: StateVector, interval: Int32)
    requires Usable(sv)
    ensures var e := MapState(sv, interval).value.event;
            && e.version == CotVersion
            && e.uid == UidPrefix + sv.icao24
            && e.how == HowMachineGps
            && e.eventType == AircraftType
            && e.time == e.start == Epoch + sv.timePosition.value as int
            && e.stale - e.start == interval as int
            && e.point.lat == sv.latitude.value
            && e.point.lon == sv.longitude.value
            && e.point.hae == (if sv.altitude.Some? then sv.altitude.value else UnknownHeight)
            && e.detail.contact.callsign == CallsignOf(sv)
  {
  }

  /** What one record contributes to the batch: its message, or nothing. */
  function Emitted(sv: StateVector, interval: Int32): seq<Message> {
    match MapState(sv, interval)
    case Success(m) => [m]
    case Failure(_) => []
  }

  /** The messages sent for a fetched batch, in the order of the batch. */
  function Messages(states: seq<StateVector>, interval: Int32): (ms: seq<Message>)
    ensures |ms| <= |states|
  {
    if states == [] then [] else Emitted(states[0], interval) + Messages(states[1..], interval)
  }

  // ---------------------------------------------------------------------
  // Properties of one record
  // ---------------------------------------------------------------------

  /** The event type does not depend on the aircraft. */
  lemma LookupTypeIsPlaceholder(a: string, b: string)
    ensures LookupType(a) == LookupType(b) == AircraftType
  {
  }

  /** The uid identifies the aircraft: two messages share a uid exactly when
      they come from the same ICAO address, whatever else differs. */
  lemma UidIdentifiesAircraft(a: StateVector, b: StateVector, interval: Int32)
    requires MapState(a, interval).Success? && MapState(b, interval).Success?
    ensures MapState(a, interval).value.event.uid == MapState(b, interval).value.event.uid
            <==> a.icao24 == b.icao24
  {
    MapStateFields(a, interval);
    MapStateFields(b, interval);
    var ua, ub := UidPrefix + a.icao24, UidPrefix + b.icao24;
    if ua == ub {
      assert a.icao24 == ua[|UidPrefix|..] == ub[|UidPrefix|..] == b.icao24;
    }
  }

  /** A null callsign falls back to the ICAO address; a non-null one is used
      even when it is blank, and then the contact callsign is empty. */
  lemma CallsignFallback(sv: StateVector)
    ensures sv.callSign.None? ==> CallsignOf(sv) == Trim(sv.icao24)
    ensures sv.callSign.Some? ==> CallsignOf(sv) == Trim(sv.callSign.value)
    ensures sv.callSign.Some? ==> (CallsignOf(sv) == [] <==> AllWhiteSpace(sv.callSign.value))
  {
    TrimBlank(sv.callSign.GetOr(sv.icao24));
  }

  /** The contact callsign carries no surrounding whitespace. */
  lemma CallsignTrimmed(sv: StateVector)
    ensures Trim(CallsignOf(sv)) == CallsignOf(sv)
  {
    TrimIdempotent(sv.callSign.GetOr(sv.icao24));
  }

  // ---------------------------------------------------------------------
  // Properties of a batch
  // ---------------------------------------------------------------------

  /** Processing a batch in two parts sends the messages of the first part,
      then those of the second. */
  lemma {:induction false} MessagesAppend(a: seq<StateVector>, b: seq<StateVector>, interval: Int32)
    ensures Messages(a + b, interval) == Messages(a, interval) + Messages(b, interval)
  {
    if a == [] {
      assert a + b == b;
    } else {
      var head := Emitted(a[0], interval);
      assert (a + b)[0] == a[0];
      assert (a + b)[1..] == a[1..] + b;
      assert Messages(a + b, interval) == head + Messages(a[1..] + b, interval);
      MessagesAppend(a[1..], b, interval);
      assert Messages(a, interval) == head + Messages(a[1..], interval);
    }
  }

  /** Processing one more record appends its message, if it has one. */
  lemma MessagesSnoc(states: seq<StateVector>, sv: StateVector, interval: Int32)
    ensures Messages(states + [sv], interval) ==
              Messages(states, interval) + (if Usable(sv) then [MapState(sv, interval).value] else [])
  {
    MessagesAppend(states, [sv], interval);
    assert [sv][1..] == [];
    assert Messages([sv], interval) == Emitted(sv, interval);
  }

  /** An unusable record contributes nothing and does not disturb the records
      after it. */
  lemma MessagesSkipUnusable(before: seq<StateVector>, sv: StateVector, after: seq<StateVector>, interval: Int32)
    requires !Usable(sv)
    ensures Messages(before + [sv] + after, interval) == Messages(before, interval) + Messages(after, interval)
  {
    assert Emitted(sv, interval) == [];
    assert [sv][1..] == [];
    assert Messages([sv], interval) == [];
    MessagesAppend(before, [sv], interval);
    MessagesAppend(before + [sv], after, interval);
  }

  /** A batch of usable records yields one message per record, in order. */
  lemma {:induction false} MessagesOfUsable(states: seq<StateVector>, interval: Int32)
    requires forall i :: 0 <= i < |states| ==> Usable(states[i])
    ensures |Messages(states, interval)| == |states|
    ensures forall i :: 0 <= i < |states| ==>
              Success(Messages(states, interval)[i]) == MapState(states[i], interval)
  {
    if states != [] {
      MessagesOfUsable(states[1..], interval);
      var ms := Messages(states, interval);
      forall i | 0 <= i < |states|
        ensures Success(ms[i]) == MapState(states[i], interval)
      {
        if i > 0 { assert states[1..][i - 1] == states[i]; }
      }
    }
  }

  /** Every message sent for a batch is the message of one of its records. */
  lemma {:induction false} MessagesFromBatch(states: seq<StateVector>, interval: Int32)
    ensures forall m :: m in Messages(states, interval) ==>
              exists i :: 0 <= i < |states| && MapState(states[i], interval) == Success(m)
  {
    if states != [] {
      MessagesFromBatch(states[1..], interval);
      forall m | m in Messages(states, interval)
        ensures exists i :: 0 <= i < |states| && MapState(states[i], interval) == Success(m)
      {
        if m in Emitted(states[0], interval) {
          assert MapState(states[0], interval) == Success(m);
        } else {
          var j :| 0 <= j < |states[1..]| && MapState(states[1..][j], interval) == Success(m);
          assert states[1..][j] == states[j + 1];
        }
      }
    }
  }

  /** A batch without a single usable record sends nothing. */
  lemma {:induction false} MessagesNoneUsable(states: seq<StateVector>, interval: Int32)
    requires forall i :: 0 <= i < |states| ==> !Usable(states[i])
    ensures Messages(states, interval) == []
  {
    if states != [] {
      assert forall i :: 0 <= i < |states[1..]| ==> states[1..][i] == states[i + 1];
      MessagesNoneUsable(states[1..], interval);
    }
  }
}
