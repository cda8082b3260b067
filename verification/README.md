# Device control state machine

This project models the control logic of `DeviceControl`, the component that shows and drives one lighting device through the device API. Each mounted control keeps a local copy of four things: whether the device is on (`isOn`, which may be unknown), and the `brightness`, `hue` and `saturation` channels. Two handlers change that state:

- `toggleDevice` sends `{on: !isOn}` through the gateway. It flips the local `isOn` only after the gateway call succeeds.
- `handleSliderChange` builds a partial request for one channel. Hue and saturation are tagged with `program = "color"`; brightness has no tag. It sets the local channel before sending and never rolls it back.

The gateway `updateDevice` sends one PATCH body `{deviceId, request}`. It returns the decoded acknowledgement on an ok status and fails on anything else.

Files:

- `wrappers.dfy` (module `Wrappers`): `Option` and `Result`.
- `vreeda_api.dfy` (module `VreedaApi`): the shapes the component uses. These are the device snapshot it is mounted with, the partial request states, the PATCH body, and `Carried`, the set of fields a request contains.
- `device_control.dfy` (module `DeviceControl`): the gateway outcome, the initial state, the request each handler composes, and the local transitions as functions. It also holds the class `Component`, whose fields are the four pieces of local state. Its methods `UpdateDevice`, `ToggleDevice` and `HandleSliderChange` are proved against those functions. A ghost field `sent` records every request body the component sends.
- `control_session.dfy` (module `ControlSession`): a control's lifetime as a sequence of interactions, each finishing before the next begins. The lemmas are proved by induction over that sequence.

The network is a parameter. Each call receives an `Exchange`: either the response (a status and a body that may fail to decode) or the error the fetch threw. "ok" means a status from 200 to 299, as the Fetch standard defines it.

The code follows three rules that a reader might not expect:

- A channel change sends only the moved channel, never the full hue, saturation and brightness triple.
- A slider change is never rolled back when the gateway fails.
- A toggle commits the new `isOn` only after the gateway succeeds.

## Model

| member | source | states |
|---|---|---|
| `VreedaApi.PresentStates` | src/components/DeviceControl.tsx:6-9 | Optional chaining on `model.states`: when `states` is missing, every entry reads as missing. |
| `DeviceControl.GatewayOutcome` | src/components/DeviceControl.tsx:11-32 | The call succeeds exactly when the status is ok and the body decodes, and then yields that body. A non-ok status fails with `NotOk`, and a thrown fetch fails with the transport cause. |
| `DeviceControl.OrZero` | src/components/DeviceControl.tsx:7-9 | JavaScript `x \|\| 0` on an optional channel equals the value when present and 0 when absent. |
| `DeviceControl.InitialView` | src/components/DeviceControl.tsx:6-9 | The seeded `brightness`, `hue` and `saturation` are the snapshot's `v`, `h` and `s` when present, else 0. `isOn` is the snapshot's `on` with no default, so it stays absent when the snapshot has none. |
| `DeviceControl.ToggleStates` | src/components/DeviceControl.tsx:36-38 | A toggle request carries exactly the field `on`. Its value is the negation of the truthy `isOn`, so an unknown `isOn` sends `on = true`. |
| `DeviceControl.SliderStates` | src/components/DeviceControl.tsx:45-61 | A brightness request carries exactly `v`. A hue or saturation request carries exactly that channel plus `program`. The channel holds the new value, the program is "color", and the colour tag rule holds. |
| `DeviceControl.AfterToggle` | src/components/DeviceControl.tsx:34-43 | A toggle never touches the channels. On success `isOn` becomes defined with its truthiness flipped. On failure the whole local state is unchanged. |
| `DeviceControl.AfterSlide` | src/components/DeviceControl.tsx:49-61 | A slider sets its own channel to the new value and leaves the other two channels and `isOn` unchanged. The gateway outcome is not an input, so nothing is rolled back. |
| `DeviceControl.ToggleTwiceRestores` | src/components/DeviceControl.tsx:37-39 | Two successful toggles restore a defined `isOn` and the whole local state. |
| `DeviceControl.ToggleTwiceFromUnknown` | src/components/DeviceControl.tsx:37-39 | From an unknown `isOn`, two successful toggles end at a defined `false`, not at unknown. |
| `DeviceControl.Step` | src/components/DeviceControl.tsx:34-70 | One interaction sends a body for this device. A toggle's body is exactly `{on: !isOn}` for the current `isOn`, and a slider's body is exactly the slider request. |
| `DeviceControl.Component.constructor` | src/components/DeviceControl.tsx:5-9 | Mounting seeds the local state with `InitialView` of the snapshot and sends nothing. |
| `DeviceControl.Component.UpdateDevice` | src/components/DeviceControl.tsx:11-32 | Appends exactly one body `{deviceId, request}` to the sent requests and returns `GatewayOutcome` of the exchange. |
| `DeviceControl.Component.ToggleDevice` | src/components/DeviceControl.tsx:34-43 | Sends exactly one body `{id, {on: !isOn}}`. The new local state is `AfterToggle` of the old state and the gateway's success, and it agrees with `Step`. |
| `DeviceControl.Component.HandleSliderChange` | src/components/DeviceControl.tsx:45-70 | Sends exactly one body `{id, SliderStates(channel, value)}`. The new local state is `AfterSlide` whatever the gateway returns, and it agrees with `Step`. |
| `ControlSession.Run` | src/components/DeviceControl.tsx:34-70 | A session of interactions sends exactly one body per interaction. |
| `ControlSession.RunSendsOnePerEvent` | src/components/DeviceControl.tsx:34-70 | The i-th body of a session is for this device's `id`. For a toggle it is exactly `{on: !isOn}`, where `isOn` is the starting value flipped once per successful toggle before it. For a slider it is exactly the slider request. |
| `ControlSession.StepFlips` | src/components/DeviceControl.tsx:34-70 | One interaction flips `isOn` exactly when it is a toggle whose gateway call succeeded. Otherwise `isOn` is unchanged. |
| `ControlSession.OnlyOnIsTagged` | src/components/DeviceControl.tsx:36-38 | A body carrying only `on` changes one field and has no colour channel and no program. |
| `ControlSession.SliderIsTagged` | src/components/DeviceControl.tsx:46-61 | A slider body changes exactly one channel and follows the colour tag rule. |
| `ControlSession.RunRequestsTagged` | src/components/DeviceControl.tsx:36-66 | Every body a session sends changes exactly one of `on`, `v`, `h` and `s`. Hue or saturation appears exactly when `program` is "color". |
| `ControlSession.RunChannelIsLastSet` | src/components/DeviceControl.tsx:45-70 | Each channel ends at the last value a slider set on it, or at its starting value. Gateway failures play no part (no rollback). |
| `ControlSession.RunIsOnFlipsPerSuccessfulToggle` | src/components/DeviceControl.tsx:34-43 | The final `isOn` is the starting one flipped once per successful toggle. Failed toggles and slider moves never change it. |
| `ControlSession.RunWithoutSuccessfulToggleKeepsIsOn` | src/components/DeviceControl.tsx:34-70 | A session without a successful toggle ends with the `isOn` it started with. |

## Left out

- Rendering with JSX and MUI (src/components/DeviceControl.tsx:77-165) is presentation.
- The `disabled` attribute on the switch (line 103) is left out. It is a UI attribute that the handlers do not check, and the sliders are never disabled. No operation requires `connected`.
- The slider `min`, `max` and `step` (lines 121-161) are input constraints of the widgets. The handlers do not clamp, so channels are unconstrained `real`s.
- `handleSelectionChange` (lines 72-75) only forwards to the parent's callback.
- The fetch itself, JSON serialisation and `console.log` are I/O. The fetch is replaced by the `Exchange` parameter. Logging has no effect on state.
- The acknowledgement payload is kept as opaque text, because its contents are never inspected.
- Asynchrony is not modelled: no interleaving of in-flight calls, no out-of-order completion, and no stale `isOn` captured by a closure. Every call completes before the next interaction starts.
- Each snapshot entry such as `states.v.value` is modelled as one optional value. An entry that exists but has no `value` is the same as a missing entry.
- `InitialView`: JavaScript `||` also maps `NaN` to 0. Channels are reals without `NaN`, so that case is not modelled.
- `HandleSliderChange`: the channel type is `'v' | 'h' | 's'`, so the case of another string is not modelled. In the code that case would send `{}` and change nothing.
- Sign-in, session tokens and per-user token storage are not part of this model. `src/app/api/auth/[...nextauth]/route.ts` is not part of this model.
