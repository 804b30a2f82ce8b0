/**
 * The illuminance server (`soletta-servers/ambient_light.js`) in its
 * simulated mode: an observable `oic.r.sensor.illuminance` resource whose
 * reading drifts upward by 0.1 lux per sample, quantised to two decimals,
 * with a notify loop gated by a `noObservers` flag.
 *
 * Illuminance is kept in integer hundredths of a lux; the rounding of
 * `Math.round(temp * 100) / 100` is computed exactly over the reals.
 */
module AmbientLight {
  import opened Wrappers
  import opened Scheduling

  const ResourceType := "oic.r.sensor.illuminance"

  /** Delay of the first tick an observe request arms, in milliseconds. */
  const FirstTickDelay: nat := 200

  /** Delay of every re-armed tick, in milliseconds. */
  const NotifyDelay: nat := 2000

  /** The resource payload `{rt, id, illuminance}`, illuminance in hundredths. */
  datatype Properties = Properties(rt: string, id: string, illuminance: int)

  function Payload(lux: int): Properties {
    Properties(ResourceType, "illuminance", lux)
  }

  /** `Math.round(x * 100)`: the nearest integer, halves rounded up. */
  function RoundHundredths(x: real): (r: int)
    ensures r as real - 0.5 <= x * 100.0 < r as real + 0.5
  {
    (x * 100.0 + 0.5).Floor
  }

  /** The globals `lux` (in hundredths) and `hasUpdate`. */
  datatype Reading = Reading(lux: int, hasUpdate: bool)

  /**
   * The change detector of `getProperties`: `temp` rounded to two decimals
   * becomes the reading, and only a rounded value that differs from the
   * last one marks the resource dirty.
   */
  function Quantise(s: Reading, temp: real): (r: Reading)
    ensures r.lux == RoundHundredths(temp)
    ensures r.hasUpdate <==> s.hasUpdate || r.lux != s.lux
  {
    var illuminance := RoundHundredths(temp);
    if s.lux != illuminance then Reading(illuminance, true) else s
  }

  /** The simulated sensor: the last reading plus 0.1. */
  function SimulatedTemp(lux: int): real {
    lux as real / 100.0 + 0.1
  }

  /** A simulated sample raises the reading by exactly 0.1 and is always a change. */
  function SimulatedSample(s: Reading): (r: Reading)
    ensures r.lux == s.lux + 10 && r.hasUpdate
  {
    Quantise(s, SimulatedTemp(s.lux))
  }

  /** `n` simulated samples in a row. */
  function SampleTimes(s: Reading, n: nat): Reading
    decreases n
  {
    if n == 0 then s else SampleTimes(SimulatedSample(s), n - 1)
  }

  /** After `n` samples the reading has drifted by exactly `n` tenths of a lux. */
  lemma {:induction false} SampleTimesDrift(s: Reading, n: nat)
    ensures SampleTimes(s, n).lux == s.lux + 10 * n
    ensures SampleTimes(s, n).hasUpdate == (s.hasUpdate || n > 0)
    decreases n
  {
    if n > 0 {
      SampleTimesDrift(SimulatedSample(s), n - 1);
    }
  }

  /**
   * Two-decimal quantisation absorbs sensor noise: 3.14159 and 3.144 are
   * the same reading, 3.14 and 3.15 are not.
   */
  lemma QuantiseExamples()
    ensures !Quantise(Reading(RoundHundredths(3.14159), false), 3.144).hasUpdate
    ensures Quantise(Reading(314, false), 3.15).hasUpdate
  {
  }

  class IlluminanceServer {
    /** The last published reading, in hundredths of a lux. */
    var lux: int
    var hasUpdate: bool
    /** The `noObservers` flag of the last failed notification. */
    var noObservers: bool
    /** `notifyObserversTimeoutId`: the one timer handle the server keeps. */
    var timeoutId: Option<nat>
    /** Every timer pending in the runtime, the untracked ones included. */
    var timers: TimerQueue
    /** `illuminanceResource.properties`. */
    var properties: Properties
    /** The payloads handed to `device.notify`, in order. */
    var pushes: seq<Properties>
    /** The payloads sent back by `request.sendResponse`, in order. */
    var responses: seq<Properties>
    /** Notifications whose rejection may still arrive. */
    var inFlight: nat

    /**
     * Handles are issued by the runtime, every pending timer has one of the
     * two delays, and with `noObservers` set no handle is stored.
     */
    ghost predicate Bookkeeping()
      reads this
    {
      timers.Valid()
      && (timeoutId.Some? ==> timeoutId.value < timers.next)
      && (forall id :: id in timers.pending ==>
            timers.pending[id] == FirstTickDelay || timers.pending[id] == NotifyDelay)
      && (noObservers ==> timeoutId.None?)
      && inFlight <= |pushes|
    }

    /** Between callbacks, moreover, the stored handle names a pending timer. */
    ghost predicate Valid()
      reads this
    {
      Bookkeeping() && (timeoutId.Some? ==> timeoutId.value in timers.pending)
    }

    ghost function Current(): Reading
      reads this
    {
      Reading(lux, hasUpdate)
    }

    /** Module load followed by registration, whose payload takes one sample. */
    constructor ()
      ensures Valid()
      ensures lux == 10 && hasUpdate && !noObservers
      ensures timeoutId == None && timers == NoTimers
      ensures properties == Payload(10)
      ensures pushes == [] && responses == [] && inFlight == 0
    {
      lux, hasUpdate, noObservers := 0, false, false;
      timeoutId := None;
      timers := NoTimers;
      properties := Payload(0);
      pushes, responses, inFlight := [], [], 0;
      new;
      properties := GetProperties();
    }

    /** `getProperties`, simulated path. */
    method GetProperties() returns (p: Properties)
      modifies this`lux, this`hasUpdate
      ensures Current() == Quantise(old(Current()), SimulatedTemp(old(lux)))
      ensures lux == old(lux) + 10 && hasUpdate
      ensures p == Payload(lux)
    {
      var temp := lux as real / 100.0 + 0.1;
      var illuminance := RoundHundredths(temp);
      if lux != illuminance {
        lux := illuminance;
        hasUpdate := true;
      }
      p := Payload(lux);
    }

    /** `sendDeviceNotify`: push if dirty, then re-arm unless no observers are left. */
    method SendDeviceNotify()
      requires Bookkeeping()
      modifies this
      ensures Valid()
      ensures !hasUpdate && lux == old(lux) && noObservers == old(noObservers)
      ensures pushes == old(pushes) + (if old(hasUpdate) then [properties] else [])
      ensures inFlight == old(inFlight) + (if old(hasUpdate) then 1 else 0)
      ensures properties == old(properties) && responses == old(responses)
      ensures var (rearmed, id) := old(timers).SetTimeout(NotifyDelay);
        if noObservers then timers == old(timers) && timeoutId == old(timeoutId)
        else timers == rearmed && timeoutId == Some(id)
    {
      if hasUpdate {
        hasUpdate := false;
        pushes := pushes + [properties];
        inFlight := inFlight + 1;
      }
      if !noObservers {
        // the handle stored before is overwritten, not cleared
        var (q, id) := timers.SetTimeout(NotifyDelay);
        timers, timeoutId := q, Some(id);
      }
    }

    /** `notifyObservers`, run when the pending timer `fired` goes off. */
    method NotifyObservers(fired: nat)
      requires Valid() && fired in timers.pending
      modifies this
      ensures Valid()
      ensures lux == old(lux) + 10 && !hasUpdate && noObservers == old(noObservers)
      ensures properties == Payload(lux)
      ensures pushes == old(pushes) + [Payload(lux)] && inFlight == old(inFlight) + 1
      ensures responses == old(responses)
      ensures var (rearmed, id) := old(timers).Cancel(fired).SetTimeout(NotifyDelay);
        if noObservers then timers == old(timers).Cancel(fired) && timeoutId == old(timeoutId)
        else timers == rearmed && timeoutId == Some(id)
    {
      timers := timers.Cancel(fired);
      var p := GetProperties();
      properties := p;
      SendDeviceNotify();
    }

    /** The rejection handler of a notification carrying `error.noObservers`. */
    method OnNotifyFailure(errorNoObservers: bool)
      requires Valid() && inFlight > 0
      modifies this
      ensures Valid() && inFlight == old(inFlight) - 1
      ensures noObservers == errorNoObservers
      ensures Current() == old(Current()) && properties == old(properties)
      ensures pushes == old(pushes) && responses == old(responses)
      ensures if errorNoObservers && old(timeoutId).Some?
        then timeoutId == None && timers == old(timers).Cancel(old(timeoutId).value)
        else timeoutId == old(timeoutId) && timers == old(timers)
    {
      inFlight := inFlight - 1;
      noObservers := errorNoObservers;
      if noObservers {
        if timeoutId.Some? {
          timers := timers.Cancel(timeoutId.value);
          timeoutId := None;
        }
      }
    }

    /** `observeHandler`: sample, respond, and arm a first tick if no handle is stored. */
    method ObserveHandler()
      requires Valid()
      modifies this
      ensures Valid()
      ensures lux == old(lux) + 10 && hasUpdate && !noObservers
      ensures properties == Payload(lux) && responses == old(responses) + [Payload(lux)]
      ensures pushes == old(pushes) && inFlight == old(inFlight)
      ensures timeoutId == old(timeoutId)
      ensures timers == if timeoutId.None? then old(timers).SetTimeout(FirstTickDelay).0 else old(timers)
    {
      var p := GetProperties();
      properties := p;
      responses := responses + [properties];
      noObservers := false;
      if timeoutId.None? {
        // the handle of this first tick is not stored
        var (q, _) := timers.SetTimeout(FirstTickDelay);
        timers := q;
      }
    }

    /** `retrieveHandler`: sample and respond; the scheduler is left alone. */
    method RetrieveHandler()
      requires Valid()
      modifies this
      ensures Valid()
      ensures lux == old(lux) + 10 && hasUpdate
      ensures properties == Payload(lux) && responses == old(responses) + [Payload(lux)]
      ensures noObservers == old(noObservers) && timeoutId == old(timeoutId) && timers == old(timers)
      ensures pushes == old(pushes) && inFlight == old(inFlight)
    {
      var p := GetProperties();
      properties := p;
      responses := responses + [properties];
    }
  }

  /**
   * Register, observe, let the first tick fire, then learn that no observer
   * is left: the first push carries 0.3 lux (one sample each for
   * registration, the observe request and the tick) and afterwards no timer
   * is pending, so no further push can happen.
   */
  method ObserveThenStop() returns (firstPush: int, pendingAfter: nat)
    ensures firstPush == 30 && pendingAfter == 0
  {
    var s := new IlluminanceServer();
    s.ObserveHandler();
    assert s.timers.pending == map[0 := FirstTickDelay];
    s.NotifyObservers(0);
    firstPush := s.pushes[0].illuminance;
    s.OnNotifyFailure(true);
    assert s.timers.pending == map[];
    pendingAfter := |s.timers.pending.Keys|;
  }
}
