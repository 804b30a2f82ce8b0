/**
 * The button toggle server (`js-servers/button-toggle.js`): a push button
 * on a GPIO pin published as an observable `oic.r.button` resource whose
 * value toggles on every press, with an observer-counted notify loop.
 */
module ButtonToggle {
  import opened Wrappers
  import opened Scheduling

  const ResourceType := "oic.r.button"

  /** Delay of every notify tick, first or re-armed, in milliseconds. */
  const NotifyDelay: nat := 200

  /** The resource payload `{rt, id, value}`. */
  datatype Properties = Properties(rt: string, id: string, value: bool)

  function Payload(value: bool): Properties {
    Properties(ResourceType, "button", value)
  }

  /** The three module globals `getProperties` updates. */
  datatype ToggleState = ToggleState(prevState: bool, sensorState: bool, hasUpdate: bool)

  /** A press that the previous sample had not yet seen. */
  predicate Rising(prev: bool, pressed: bool) {
    pressed && !prev
  }

  /**
   * One call of `getProperties`: with the GPIO module present, the edge
   * detector on the level `pressed` just read; without it, the simulated
   * toggle.
   */
  function Sample(hardware: bool, s: ToggleState, pressed: bool): (r: ToggleState)
    ensures hardware ==> r.prevState == pressed
    ensures hardware ==> (r.sensorState != s.sensorState <==> Rising(s.prevState, pressed))
    ensures hardware ==> (r.hasUpdate <==> s.hasUpdate || Rising(s.prevState, pressed))
    ensures !hardware ==> r.sensorState == !s.sensorState && r.hasUpdate && r.prevState == s.prevState
  {
    if hardware then
      if pressed != s.prevState then
        var s1 := s.(prevState := pressed);
        if pressed && !s1.sensorState then s1.(sensorState := true, hasUpdate := true)
        else if pressed && s1.sensorState then s1.(sensorState := false, hasUpdate := true)
        else s1
      else s
    else
      s.(sensorState := !s.sensorState, hasUpdate := true)
  }

  /** Hardware samples of `levels`, in order. */
  function Run(s: ToggleState, levels: seq<bool>): ToggleState
    decreases |levels|
  {
    if levels == [] then s else Run(Sample(true, s, levels[0]), levels[1..])
  }

  /** The number of rising edges in `levels` after a previous level `prev`. */
  function RisingEdges(prev: bool, levels: seq<bool>): nat
    decreases |levels|
  {
    if levels == [] then 0
    else (if Rising(prev, levels[0]) then 1 else 0) + RisingEdges(levels[0], levels[1..])
  }

  /**
   * Over any sequence of hardware samples the published state is its start
   * value flipped once per rising edge, `prevState` is the last level read,
   * and `hasUpdate` is set exactly when it was set before or some edge rose.
   */
  lemma {:induction false} RunToggleParity(s: ToggleState, levels: seq<bool>)
    ensures Run(s, levels).sensorState == (s.sensorState != (RisingEdges(s.prevState, levels) % 2 == 1))
    ensures Run(s, levels).hasUpdate == (s.hasUpdate || RisingEdges(s.prevState, levels) > 0)
    ensures Run(s, levels).prevState == if levels == [] then s.prevState else levels[|levels| - 1]
    decreases |levels|
  {
    if levels != [] {
      RunToggleParity(Sample(true, s, levels[0]), levels[1..]);
    }
  }

  class ButtonServer {
    /** Whether the `mraa` GPIO module loaded. */
    const hardware: bool
    var prevState: bool
    var sensorState: bool
    var hasUpdate: bool
    /** The count of observe registrations minus deregistrations; no floor. */
    var observerCount: int
    /** `notifyObserversTimeoutId`: the one timer handle the server keeps. */
    var timeoutId: Option<nat>
    /** Every timer pending in the runtime, the untracked ones included. */
    var timers: TimerQueue
    /** `buttonResource.properties`. */
    var properties: Properties
    /** The payloads handed to `notify()`, in order. */
    var pushes: seq<Properties>
    /** The payloads sent back by `request.respond`, in order. */
    var responses: seq<Properties>
    /** Notifications whose rejection may still arrive. */
    var inFlight: nat

    /**
     * The stored handle, when set, names a pending timer; every pending
     * timer was armed with the 200 ms delay. Nothing bounds the number of
     * pending timers.
     */
    ghost predicate Valid()
      reads this
    {
      timers.Valid()
      && (timeoutId.Some? ==> timeoutId.value in timers.pending)
      && (forall id :: id in timers.pending ==> timers.pending[id] == NotifyDelay)
      && inFlight <= |pushes|
    }

    ghost function Sampled(): ToggleState
      reads this
    {
      ToggleState(prevState, sensorState, hasUpdate)
    }

    /** Module load followed by registration, whose payload is sampled with the level `raw`. */
    constructor (hardware: bool, raw: int)
      ensures Valid() && this.hardware == hardware
      ensures Sampled() == Sample(hardware, ToggleState(false, false, false), raw == 1)
      ensures observerCount == 0 && timeoutId == None && timers == NoTimers
      ensures properties == Payload(sensorState)
      ensures pushes == [] && responses == [] && inFlight == 0
    {
      this.hardware := hardware;
      prevState, sensorState, hasUpdate := false, false, false;
      observerCount := 0;
      timeoutId := None;
      timers := NoTimers;
      properties := Payload(false);
      pushes, responses, inFlight := [], [], 0;
      new;
      properties := GetProperties(raw);
    }

    /** `getProperties`; `raw` is what `sensorPin.read()` returns. */
    method GetProperties(raw: int) returns (p: Properties)
      modifies this`prevState, this`sensorState, this`hasUpdate
      ensures Sampled() == Sample(hardware, old(Sampled()), raw == 1)
      ensures p == Payload(sensorState)
    {
      if hardware {
        var buttonState := raw == 1;
        if buttonState != prevState {
          prevState := buttonState;
          if buttonState && !sensorState {
            sensorState := true;
            hasUpdate := true;
          } else if buttonState && sensorState {
            sensorState := false;
            hasUpdate := true;
          }
        }
      } else {
        sensorState := !sensorState;
        hasUpdate := true;
      }
      p := Payload(sensorState);
    }

    /**
     * `notifyObservers`, run when the pending timer `fired` goes off; `raw`
     * is the level the sample reads.
     */
    method NotifyObservers(fired: nat, raw: int)
      requires Valid() && fired in timers.pending
      modifies this
      ensures Valid()
      ensures var s := Sample(hardware, old(Sampled()), raw == 1);
        Sampled() == s.(hasUpdate := false)
        && pushes == old(pushes) + (if s.hasUpdate then [Payload(s.sensorState)] else [])
        && properties == (if s.hasUpdate then Payload(s.sensorState) else old(properties))
      ensures inFlight == old(inFlight) + (|pushes| - |old(pushes)|)
      ensures observerCount == old(observerCount) && responses == old(responses)
      ensures var (rearmed, id) := old(timers).Cancel(fired).SetTimeout(NotifyDelay);
        if observerCount > 0 then timers == rearmed && timeoutId == Some(id)
        else timers == old(timers).Cancel(fired) && timeoutId == None
    {
      ghost var s := Sample(hardware, Sampled(), raw == 1);
      timers := timers.Cancel(fired);
      var p := GetProperties(raw);
      assert Sampled() == s && p == Payload(s.sensorState);
      timeoutId := None;
      Publish(p);
      Rearm();
    }

    /** The `if (hasUpdate)` step of `notifyObservers`: publish `p` and push it. */
    method Publish(p: Properties)
      modifies this`properties, this`hasUpdate, this`pushes, this`inFlight
      ensures !hasUpdate
      ensures pushes == old(pushes) + (if old(hasUpdate) then [p] else [])
      ensures properties == (if old(hasUpdate) then p else old(properties))
      ensures inFlight == old(inFlight) + (if old(hasUpdate) then 1 else 0)
    {
      if hasUpdate {
        properties := p;
        hasUpdate := false;
        pushes := pushes + [properties];
        inFlight := inFlight + 1;
      }
    }

    /** The `if (observerCount > 0)` step of `notifyObservers`: arm the next tick and keep its handle. */
    method Rearm()
      requires timers.Valid()
      modifies this`timers, this`timeoutId
      ensures var (rearmed, id) := old(timers).SetTimeout(NotifyDelay);
        if observerCount > 0 then timers == rearmed && timeoutId == Some(id)
        else timers == old(timers) && timeoutId == old(timeoutId)
    {
      if observerCount > 0 {
        var (q, id) := timers.SetTimeout(NotifyDelay);
        timers, timeoutId := q, Some(id);
      }
    }

    /**
     * The rejection handler of a notification: `observersLeft` is the length
     * of `error.observers`.
     */
    method OnNotifyFailure(observersLeft: nat)
      requires Valid() && inFlight > 0
      modifies this
      ensures Valid() && inFlight == old(inFlight) - 1
      ensures Sampled() == old(Sampled()) && properties == old(properties)
      ensures pushes == old(pushes) && responses == old(responses)
      ensures observersLeft == 0 ==>
        observerCount == 0 && timeoutId == None
        && timers == (if old(timeoutId).Some? then old(timers).Cancel(old(timeoutId).value) else old(timers))
      ensures observersLeft != 0 ==>
        observerCount == old(observerCount) && timeoutId == old(timeoutId) && timers == old(timers)
    {
      inFlight := inFlight - 1;
      if observersLeft == 0 {
        observerCount := 0;
        if timeoutId.Some? {
          timers := timers.Cancel(timeoutId.value);
          timeoutId := None;
        }
      }
    }

    /**
     * `retrieveHandler`: `observe` is `request.observe` when the request
     * carries one, and `raw` the level the sample reads.
     */
    method Retrieve(observe: Option<bool>, raw: int)
      requires Valid()
      modifies this
      ensures Valid()
      ensures var s := Sample(hardware, old(Sampled()), raw == 1);
        prevState == s.prevState && sensorState == s.sensorState
        && hasUpdate == (s.hasUpdate || observe.Some?)
        && properties == Payload(s.sensorState)
      ensures responses == old(responses) + [properties]
      ensures pushes == old(pushes) && inFlight == old(inFlight) && timeoutId == old(timeoutId)
      ensures observerCount == old(observerCount) + (if observe == Some(true) then 1 else if observe == Some(false) then -1 else 0)
      ensures if observe.Some? && old(timeoutId).None? && observerCount > 0
        then timers == old(timers).SetTimeout(NotifyDelay).0
        else timers == old(timers)
    {
      var p := GetProperties(raw);
      properties := p;
      responses := responses + [properties];
      if observe.Some? {
        Observe(observe.value);
      }
    }

    /**
     * The `'observe' in request` step of `retrieveHandler`: count the
     * registration or deregistration and arm a first tick when none is
     * stored.
     */
    method Observe(register: bool)
      requires timers.Valid()
      modifies this`hasUpdate, this`observerCount, this`timers
      ensures hasUpdate
      ensures observerCount == old(observerCount) + (if register then 1 else -1)
      ensures if timeoutId.None? && observerCount > 0
        then timers == old(timers).SetTimeout(NotifyDelay).0
        else timers == old(timers)
    {
      hasUpdate := true;
      observerCount := observerCount + (if register then 1 else -1);
      if timeoutId.None? && observerCount > 0 {
        // the handle of this first tick is not stored
        var (q, _) := timers.SetTimeout(NotifyDelay);
        timers := q;
      }
    }
  }

  /**
   * From `prevState = sensorState = false`, the levels 0,1,1,0,1 publish
   * `true` after the second read and `false` after the fifth.
   */
  method ExampleTrace() returns (afterSecond: bool, afterFifth: bool)
    ensures afterSecond && !afterFifth
  {
    var b := new ButtonServer(true, 0);
    var p := b.GetProperties(0);
    p := b.GetProperties(1);
    afterSecond := p.value;
    p := b.GetProperties(1);
    p := b.GetProperties(0);
    p := b.GetProperties(1);
    afterFifth := p.value;
  }

  /**
   * Two observe requests before the first tick each arm an untracked timer:
   * two notify chains are then pending at once.
   */
  method DoubleArming() returns (pending: nat)
    ensures pending == 2
  {
    var b := new ButtonServer(false, 0);
    b.Retrieve(Some(true), 0);
    b.Retrieve(Some(true), 0);
    assert b.timers.pending == map[0 := NotifyDelay, 1 := NotifyDelay];
    pending := |b.timers.pending.Keys|;
  }

  /** A deregistration without a registration drives the count below zero. */
  method NegativeObserverCount() returns (count: int)
    ensures count == -1
  {
    var b := new ButtonServer(false, 0);
    b.Retrieve(Some(false), 0);
    count := b.observerCount;
  }
}
