/**
  A mounted control over its lifetime: a sequence of interactions, each
  completing before the next starts. The lemmas state what every such
  session keeps: one request per interaction, the colour tag rule, no
  rollback of slider values, and `isOn` changing only by successful toggles.
 */
module ControlSession {
  import opened Wrappers
  import opened VreedaApi
  import opened DeviceControl

  /** The final local state and the bodies sent, in order. */
  datatype Trace = Trace(view: DeviceView, sent: seq<PatchBody>)

  /** Runs the interactions one after the other from `view`. */
  function Run(id: string, view: DeviceView, events: seq<Event>): (r: Trace)
    ensures |r.sent| == |events|
    decreases |events|
  {
    if events == [] then Trace(view, [])
    else
      var (next, body) := Step(id, view, events[0]);
      var rest := Run(id, next, events[1..]);
      Trace(rest.view, [body] + rest.sent)
  }

  /** The last value a slider set on channel `c`, or `initial` if none did. */
  function LastSet(events: seq<Event>, c: Channel, initial: real): real
    decreases |events|
  {
    if events == [] then initial
    else
      var e := events[0];
      LastSet(events[1..], c, if e.Slide? && e.channel == c then e.value else initial)
  }

  /** 1 for a toggle whose gateway call succeeded, otherwise 0. */
  function Flips(e: Event): nat
  {
    if e.Toggle? && GatewayOutcome(e.exchange).Success? then 1 else 0
  }

  /** The number of toggles whose gateway call succeeded. */
  function SuccessfulToggles(events: seq<Event>): nat
    decreases |events|
  {
    if events == [] then 0 else Flips(events[0]) + SuccessfulToggles(events[1..])
  }

  /** `isOn` after `k` flips: unchanged for none, otherwise the truthy value flipped `k` times. */
  function FlipTimes(isOn: Option<bool>, k: nat): Option<bool>
  {
    if k == 0 then isOn else Some(Truthy(isOn) != (k % 2 == 1))
  }

  /** One interaction flips `isOn` exactly when it is a successful toggle. */
  lemma StepFlips(id: string, view: DeviceView, e: Event, k: nat)
    ensures FlipTimes(Step(id, view, e).0.isOn, k) == FlipTimes(view.isOn, Flips(e) + k)
  {
    var next := Step(id, view, e).0;
    if Flips(e) == 1 {
      assert next.isOn == Some(!Truthy(view.isOn));
    } else {
      assert next.isOn == view.isOn;
    }
  }

  /**
    Every interaction sends exactly one body, for this device. A toggle's
    body is `{on: !isOn}` for the `isOn` reached by the toggles before it;
    a slider's is exactly the slider request.
   */
  lemma {:induction false} RunSendsOnePerEvent(id: string, view: DeviceView, events: seq<Event>)
    ensures |Run(id, view, events).sent| == |events|
    ensures forall i :: 0 <= i < |events| ==>
      Run(id, view, events).sent[i].deviceId == id &&
      (events[i].Toggle? ==> Run(id, view, events).sent[i].request.states
                               == ToggleStates(FlipTimes(view.isOn, SuccessfulToggles(events[..i])))) &&
      (events[i].Toggle? ==> Carried(Run(id, view, events).sent[i].request.states) == {OnField}) &&
      (events[i].Slide? ==> Run(id, view, events).sent[i].request.states == SliderStates(events[i].channel, events[i].value))
    decreases |events|
  {
    if events != [] {
      var (next, body) := Step(id, view, events[0]);
      var rest := events[1..];
      RunSendsOnePerEvent(id, next, rest);
      var sent := Run(id, view, events).sent;
      assert sent == [body] + Run(id, next, rest).sent;
      assert events[..0] == [];
      forall i | 1 <= i < |events|
        ensures sent[i] == Run(id, next, rest).sent[i - 1] && events[i] == rest[i - 1]
        ensures SuccessfulToggles(events[..i]) == Flips(events[0]) + SuccessfulToggles(rest[..i - 1])
      {
        assert events[..i][1..] == rest[..i - 1];
        assert events[..i][0] == events[0];
      }
      forall i | 1 <= i < |events| && events[i].Toggle?
        ensures sent[i].request.states == ToggleStates(FlipTimes(view.isOn, SuccessfulToggles(events[..i])))
      {
        StepFlips(id, view, events[0], SuccessfulToggles(rest[..i - 1]));
      }
    }
  }

  /** A body that carries only `on` is untagged and changes exactly one field. */
  lemma OnlyOnIsTagged(st: RequestStates)
    requires Carried(st) == {OnField}
    ensures ColourTagged(st) && |Carried(st) - {ProgramField}| == 1
  {
    assert HField !in Carried(st) && SField !in Carried(st) && ProgramField !in Carried(st);
    assert Carried(st) - {ProgramField} == {OnField};
  }

  /** A slider body changes exactly its own channel and follows the colour tag rule. */
  lemma SliderIsTagged(c: Channel, value: real)
    ensures ColourTagged(SliderStates(c, value))
    ensures |Carried(SliderStates(c, value)) - {ProgramField}| == 1
  {
    assert Carried(SliderStates(c, value)) - {ProgramField} == {ChannelField(c)};
  }

  /**
    Every body a session sends changes exactly one of `on`, `v`, `h`, `s`,
    and a hue or saturation is never sent without program "color".
   */
  lemma RunRequestsTagged(id: string, view: DeviceView, events: seq<Event>)
    ensures forall i :: 0 <= i < |Run(id, view, events).sent| ==>
      ColourTagged(Run(id, view, events).sent[i].request.states) &&
      |Carried(Run(id, view, events).sent[i].request.states) - {ProgramField}| == 1
  {
    RunSendsOnePerEvent(id, view, events);
    var sent := Run(id, view, events).sent;
    forall i | 0 <= i < |sent|
      ensures ColourTagged(sent[i].request.states)
      ensures |Carried(sent[i].request.states) - {ProgramField}| == 1
    {
      if events[i].Toggle? {
        OnlyOnIsTagged(sent[i].request.states);
      } else {
        SliderIsTagged(events[i].channel, events[i].value);
      }
    }
  }

  /** No rollback: each channel ends at the last value a slider set, whatever the gateway said. */
  lemma {:induction false} RunChannelIsLastSet(id: string, view: DeviceView, events: seq<Event>, c: Channel)
    ensures ChannelOf(Run(id, view, events).view, c) == LastSet(events, c, ChannelOf(view, c))
    decreases |events|
  {
    if events != [] {
      var (next, body) := Step(id, view, events[0]);
      RunChannelIsLastSet(id, next, events[1..], c);
      var e := events[0];
      assert ChannelOf(next, c) == if e.Slide? && e.channel == c then e.value else ChannelOf(view, c);
    }
  }

  /** `isOn` changes only by successful toggles, each flipping it; failures and sliders leave it. */
  lemma {:induction false} RunIsOnFlipsPerSuccessfulToggle(id: string, view: DeviceView, events: seq<Event>)
    ensures Run(id, view, events).view.isOn == FlipTimes(view.isOn, SuccessfulToggles(events))
    decreases |events|
  {
    if events != [] {
      var (next, body) := Step(id, view, events[0]);
      RunIsOnFlipsPerSuccessfulToggle(id, next, events[1..]);
      StepFlips(id, view, events[0], SuccessfulToggles(events[1..]));
    }
  }

  /** A session with no successful toggle ends with the `isOn` it started with. */
  lemma RunWithoutSuccessfulToggleKeepsIsOn(id: string, view: DeviceView, events: seq<Event>)
    requires SuccessfulToggles(events) == 0
    ensures Run(id, view, events).view.isOn == view.isOn
  {
    RunIsOnFlipsPerSuccessfulToggle(id, view, events);
  }
}
