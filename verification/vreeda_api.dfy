/**
  The shapes of the device API that the control component reads and writes:
  the device snapshot it is mounted with and the partial state it requests.
  Only the fields the component touches are modelled.
 */
module VreedaApi {
  import opened Wrappers

  /** The `states` part of a device snapshot; each entry may be missing. */
  datatype SnapshotStates = SnapshotStates(
    on: Option<bool>,
    v: Option<real>,
    h: Option<real>,
    s: Option<real>)

  /** A device as the API reports it; `states` itself may be missing. */
  datatype DeviceSnapshot = DeviceSnapshot(states: Option<SnapshotStates>)

  /** Optional chaining `model.states?.x`: a missing `states` reads as all entries missing. */
  function PresentStates(model: DeviceSnapshot): (r: SnapshotStates)
    ensures model.states.None? ==> r.on.None? && r.v.None? && r.h.None? && r.s.None?
    ensures model.states.Some? ==> r == model.states.value
  {
    match model.states
    case Some(st) => st
    case None => SnapshotStates(None, None, None, None)
  }

  /** A partial state change; an absent field is not sent. */
  datatype RequestStates = RequestStates(
    on: Option<bool>,
    v: Option<real>,
    h: Option<real>,
    s: Option<real>,
    program: Option<string>)

  /** The request with no field set (`{}`). */
  const NoChange := RequestStates(None, None, None, None, None)

  /** The request model `{ states }`. */
  datatype DeviceRequest = DeviceRequest(states: RequestStates)

  /** The body of one PATCH to the device gateway: `{ deviceId, request }`. */
  datatype PatchBody = PatchBody(deviceId: string, request: DeviceRequest)

  /** The names of the fields a request can carry. */
  datatype Field = OnField | VField | HField | SField | ProgramField

  /** The set of fields present in a request. */
  function Carried(st: RequestStates): set<Field>
  {
    (if st.on.Some? then {OnField} else {}) +
    (if st.v.Some? then {VField} else {}) +
    (if st.h.Some? then {HField} else {}) +
    (if st.s.Some? then {SField} else {}) +
    (if st.program.Some? then {ProgramField} else {})
  }

  /**
    A colour channel (hue or saturation) is present exactly when the
    request is tagged with the program "color".
   */
  predicate ColourTagged(st: RequestStates)
  {
    (st.h.Some? || st.s.Some?) <==> st.program == Some("color")
  }
}
