/**
  The per-device control: a cached view of one device (`isOn` and the
  brightness, hue and saturation channels), the gateway that sends one
  partial state change per call, and the two handlers that drive it
  (`toggleDevice` and `handleSliderChange`).

  The network is not modelled: each call receives the `Exchange` that the
  fetch would have produced, and the component records every request body
  it sends in a ghost outbox.
 */
module DeviceControl {
  import opened Wrappers
  import opened VreedaApi

  // ---------------------------------------------------------------------
  // Gateway (`updateDevice`)
  // ---------------------------------------------------------------------

  /** The decoded acknowledgement of a successful PATCH, kept opaque. */
  type Payload = string

  /** What one fetch produced: a response (whose body may fail to decode) or a thrown error. */
  datatype Exchange =
    | Responded(status: int, body: Option<Payload>)
    | Failed(cause: string)

  /** Why `updateDevice` threw. */
  datatype GatewayError =
    | NotOk(status: int)      // "Failed to update device"
    | BadBody                 // the response body was not JSON
    | Transport(cause: string)

  /** `response.ok` of the Fetch standard: a status in 200..299. */
  predicate IsOk(status: int)
  {
    200 <= status <= 299
  }

  /**
    The result of `updateDevice` for one exchange: the decoded payload when
    the status is ok and the body decodes, otherwise an error.
   */
  function GatewayOutcome(x: Exchange): (r: Result<Payload, GatewayError>)
    ensures r.Success? <==> x.Responded? && IsOk(x.status) && x.body.Some?
    ensures r.Success? ==> r.value == x.body.value
    ensures x.Responded? && !IsOk(x.status) ==> r.Failure? && r.error == NotOk(x.status)
    ensures x.Failed? ==> r.Failure? && r.error == Transport(x.cause)
  {
    match x
    case Failed(cause) => Failure(Transport(cause))
    case Responded(status, body) =>
      if !IsOk(status) then Failure(NotOk(status))
      else if body.None? then Failure(BadBody)
      else Success(body.value)
  }

  // ---------------------------------------------------------------------
  // Local state and its seed
  // ---------------------------------------------------------------------

  /** The component's local state as a value. */
  datatype DeviceView = DeviceView(isOn: Option<bool>, brightness: real, hue: real, saturation: real)

  /** The three slider channels, by their API names. */
  datatype Channel = V | H | S

  /** The local value of one channel. */
  function ChannelOf(view: DeviceView, c: Channel): real
  {
    match c
    case V => view.brightness
    case H => view.hue
    case S => view.saturation
  }

  /** JavaScript `x || 0` on an optional number: a falsy value (absent or zero) gives 0. */
  function OrZero(x: Option<real>): (r: real)
    ensures x.Some? ==> r == x.value
    ensures x.None? ==> r == 0.0
  {
    if x.Some? && x.value != 0.0 then x.value else 0.0
  }

  /** The state the component starts with for a device snapshot. */
  function InitialView(model: DeviceSnapshot): (r: DeviceView)
    ensures r.isOn == PresentStates(model).on
    ensures model.states.None? ==> r.isOn.None?
    ensures r.brightness == (if PresentStates(model).v.Some? then PresentStates(model).v.value else 0.0)
    ensures r.hue == (if PresentStates(model).h.Some? then PresentStates(model).h.value else 0.0)
    ensures r.saturation == (if PresentStates(model).s.Some? then PresentStates(model).s.value else 0.0)
  {
    var st := PresentStates(model);
    DeviceView(st.on, OrZero(st.v), OrZero(st.h), OrZero(st.s))
  }

  // ---------------------------------------------------------------------
  // Requests the handlers compose
  // ---------------------------------------------------------------------

  /** JavaScript truthiness of `isOn`: only a defined `true` is truthy. */
  function Truthy(isOn: Option<bool>): bool
  {
    isOn == Some(true)
  }

  /** The states of a toggle request, `{ on: !isOn }`. */
  function ToggleStates(isOn: Option<bool>): (r: RequestStates)
    ensures Carried(r) == {OnField}
    ensures r.on.Some? && r.on.value != Truthy(isOn)
    ensures isOn.None? ==> r.on == Some(true)
    ensures isOn.Some? ==> r.on == Some(!isOn.value)
  {
    NoChange.(on := Some(!Truthy(isOn)))
  }

  /** The field a channel is sent under. */
  function ChannelField(c: Channel): Field
  {
    match c
    case V => VField
    case H => HField
    case S => SField
  }

  /** The value a request carries for one channel. */
  function ChannelValue(st: RequestStates, c: Channel): Option<real>
  {
    match c
    case V => st.v
    case H => st.h
    case S => st.s
  }

  /**
    The states of a slider request: the one channel moved, tagged with
    program "color" for hue and saturation and untagged for brightness.
   */
  function SliderStates(c: Channel, value: real): (r: RequestStates)
    ensures Carried(r) == if c == V then {VField} else {ChannelField(c), ProgramField}
    ensures ChannelValue(r, c) == Some(value)
    ensures r.program.Some? ==> r.program.value == "color"
    ensures ColourTagged(r)
  {
    match c
    case V => NoChange.(v := Some(value))
    case H => NoChange.(h := Some(value), program := Some("color"))
    case S => NoChange.(s := Some(value), program := Some("color"))
  }

  // ---------------------------------------------------------------------
  // Local transitions
  // ---------------------------------------------------------------------

  /** The local state after a toggle whose gateway call succeeded or failed. */
  function AfterToggle(view: DeviceView, succeeded: bool): (r: DeviceView)
    ensures r.brightness == view.brightness && r.hue == view.hue && r.saturation == view.saturation
    ensures succeeded ==> r.isOn.Some? && Truthy(r.isOn) != Truthy(view.isOn)
    ensures !succeeded ==> r == view
  {
    if succeeded then view.(isOn := Some(!Truthy(view.isOn))) else view
  }

  /** The local state after a slider moves one channel to `value`, whatever the gateway says. */
  function AfterSlide(view: DeviceView, c: Channel, value: real): (r: DeviceView)
    ensures ChannelOf(r, c) == value
    ensures forall d :: d != c ==> ChannelOf(r, d) == ChannelOf(view, d)
    ensures r.isOn == view.isOn
  {
    match c
    case V => view.(brightness := value)
    case H => view.(hue := value)
    case S => view.(saturation := value)
  }

  /** Two successful toggles restore a defined `isOn` and leave the channels alone. */
  lemma ToggleTwiceRestores(view: DeviceView)
    requires view.isOn.Some?
    ensures AfterToggle(AfterToggle(view, true), true) == view
  {
    var once := AfterToggle(view, true);
    assert once.isOn == Some(!view.isOn.value);
  }

  /** From an unknown `isOn`, two successful toggles end at a defined `false`, not at unknown. */
  lemma ToggleTwiceFromUnknown(view: DeviceView)
    requires view.isOn.None?
    ensures AfterToggle(AfterToggle(view, true), true) == view.(isOn := Some(false))
  {
  }

  /** One user interaction with the component, with the exchange its gateway call meets. */
  datatype Event =
    | Toggle(exchange: Exchange)
    | Slide(channel: Channel, value: real, exchange: Exchange)

  /** One interaction: the new local state and the body it sends. */
  function Step(id: string, view: DeviceView, e: Event): (r: (DeviceView, PatchBody))
    ensures r.1.deviceId == id
    ensures e.Toggle? ==> r.1.request.states == ToggleStates(view.isOn)
    ensures e.Toggle? ==> Carried(r.1.request.states) == {OnField}
    ensures e.Slide? ==> r.1.request.states == SliderStates(e.channel, e.value)
  {
    match e
    case Toggle(x) =>
      (AfterToggle(view, GatewayOutcome(x).Success?), PatchBody(id, DeviceRequest(ToggleStates(view.isOn))))
    case Slide(c, value, _) =>
      (AfterSlide(view, c, value), PatchBody(id, DeviceRequest(SliderStates(c, value))))
  }

  // ---------------------------------------------------------------------
  // The mounted component
  // ---------------------------------------------------------------------

  /** One mounted control for the device `id`, with its four pieces of local state. */
  class Component {
    const id: string
    var isOn: Option<bool>
    var brightness: real
    var hue: real
    var saturation: real
    /** Every request body sent so far, oldest first. */
    ghost var sent: seq<PatchBody>

    /** The local state as a value. */
    function View(): DeviceView
      reads this
    {
      DeviceView(isOn, brightness, hue, saturation)
    }

    /** Mounting: the state is seeded from the snapshot and nothing has been sent. */
    constructor (id: string, model: DeviceSnapshot)
      ensures this.id == id
      ensures View() == InitialView(model)
      ensures sent == []
    {
      this.id := id;
      var st := PresentStates(model);
      isOn := st.on;
      brightness := OrZero(st.v);
      hue := OrZero(st.h);
      saturation := OrZero(st.s);
      sent := [];
    }

    /** `updateDevice`: sends one body and reports the exchange's outcome. */
    method UpdateDevice(deviceId: string, request: DeviceRequest, exchange: Exchange)
      returns (r: Result<Payload, GatewayError>)
      modifies this`sent
      ensures sent == old(sent) + [PatchBody(deviceId, request)]
      ensures r == GatewayOutcome(exchange)
    {
      sent := sent + [PatchBody(deviceId, request)];
      match exchange
      case Failed(cause) =>
        r := Failure(Transport(cause));
      case Responded(status, body) =>
        if !IsOk(status) {
          r := Failure(NotOk(status));
        } else if body.None? {
          r := Failure(BadBody);
        } else {
          r := Success(body.value);
        }
    }

    /**
      `toggleDevice`: sends `{on: !isOn}` and commits the flipped value only
      after the gateway succeeds; a failure is swallowed.
     */
    method ToggleDevice(exchange: Exchange)
      modifies this`isOn, this`sent
      ensures sent == old(sent) + [PatchBody(id, DeviceRequest(ToggleStates(old(isOn))))]
      ensures View() == AfterToggle(old(View()), GatewayOutcome(exchange).Success?)
      ensures Step(id, old(View()), Toggle(exchange)) == (View(), sent[|sent| - 1])
    {
      var r := UpdateDevice(id, DeviceRequest(NoChange.(on := Some(!Truthy(isOn)))), exchange);
      if r.Success? {
        isOn := Some(!Truthy(isOn));
      }
    }

    /**
      `handleSliderChange`: fills the request branch by branch, updates the
      local channel first, then sends; the gateway's result is swallowed.
     */
    method HandleSliderChange(channel: Channel, value: real, exchange: Exchange)
      modifies this`brightness, this`hue, this`saturation, this`sent
      ensures sent == old(sent) + [PatchBody(id, DeviceRequest(SliderStates(channel, value)))]
      ensures View() == AfterSlide(old(View()), channel, value)
      ensures Step(id, old(View()), Slide(channel, value, exchange)) == (View(), sent[|sent| - 1])
    {
      var newState := NoChange;
      if channel == V {
        newState := newState.(v := Some(value));
        brightness := value;
      } else if channel == H {
        newState := newState.(h := Some(value));
        newState := newState.(program := Some("color"));
        hue := value;
      } else if channel == S {
        newState := newState.(s := Some(value));
        newState := newState.(program := Some("color"));
        saturation := value;
      }
      var _ := UpdateDevice(id, DeviceRequest(newState), exchange);
    }
  }
}
