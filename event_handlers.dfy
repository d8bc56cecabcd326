/**
 * The native-event side of the component: the per-type throttle that
 * `_onObjectDetected` wraps around the detector callbacks, and the tap
 * dispatch of `_onTouch`.
 */
module EventHandlers {
  import opened JsValues
  import PropTranslation

  /** Window, in milliseconds, within which an identical event is not delivered again. */
  const EventThrottleMs: int := 500

  /**
   * `_lastEvents` and `_lastEventsTimes`: per event type, the serialised form of the
   * last delivered event and the time (ms) it was delivered. All four detector
   * handlers share them, keyed by `nativeEvent.type`.
   */
  datatype History = History(lastEvents: map<string, string>, lastEventsTimes: map<string, int>)

  const NoHistory := History(map[], map[])

  /**
   * A native detection event: its `type`, its serialised form, the time (ms) it
   * arrives, and the time (ms) the clock reads once the callback has returned,
   * which is the time a delivered event is recorded under.
   */
  datatype DetectionEvent = DetectionEvent(eventType: string, payload: string, now: int, recordedAt: int)

  /**
   * The early return of `_onObjectDetected`: a serialised event is recorded for the
   * type and is non-empty (truthy), a time is recorded (a `Date` is always truthy),
   * the event serialises to the recorded string, and less than the window has passed.
   */
  predicate Suppresses(h: History, e: DetectionEvent)
    ensures Suppresses(h, e) ==> e.payload != "" && Recorded(h, e.eventType).Some?
    ensures Suppresses(h, e) ==> Recorded(h, e.eventType).value.0 == e.payload
    ensures Suppresses(h, e) ==> e.now < Recorded(h, e.eventType).value.1 + EventThrottleMs
  {
    && e.eventType in h.lastEvents && h.lastEvents[e.eventType] != ""
    && e.eventType in h.lastEventsTimes
    && e.payload == h.lastEvents[e.eventType]
    && e.now - h.lastEventsTimes[e.eventType] < EventThrottleMs
  }

  /** Whether the handler calls its callback: it has one and the event is not suppressed. */
  predicate Delivers(h: History, hasCallback: bool, e: DetectionEvent) {
    hasCallback && !Suppresses(h, e)
  }

  /**
   * The history after the handler has seen `e`: a delivered event is recorded
   * under its own type, with the time read after its callback; a suppressed
   * event, or one without a callback, changes nothing; every other type's
   * record is untouched.
   */
  function After(h: History, hasCallback: bool, e: DetectionEvent): (r: History)
    ensures !Delivers(h, hasCallback, e) ==> r == h
    ensures Delivers(h, hasCallback, e) ==> Recorded(r, e.eventType) == Some((e.payload, e.recordedAt))
    ensures forall t | t != e.eventType :: Recorded(r, t) == Recorded(h, t)
  {
    if Delivers(h, hasCallback, e) then
      History(h.lastEvents[e.eventType := e.payload], h.lastEventsTimes[e.eventType := e.recordedAt])
    else
      h
  }

  /** Feeds `events` to one handler in order; yields the final history and the delivered events. */
  function Run(h: History, hasCallback: bool, events: seq<DetectionEvent>): (r: (History, seq<DetectionEvent>))
    ensures |r.1| <= |events|
    ensures forall i | 0 <= i < |r.1| :: r.1[i] in events
    decreases |events|
  {
    if events == [] then (h, [])
    else
      var rest := Run(After(h, hasCallback, events[0]), hasCallback, events[1..]);
      (rest.0, (if Delivers(h, hasCallback, events[0]) then [events[0]] else []) + rest.1)
  }

  /** What the history records for `t`, as a (payload, time) pair, if anything. */
  function Recorded(h: History, t: string): Option<(string, int)> {
    if t in h.lastEvents && t in h.lastEventsTimes then Some((h.lastEvents[t], h.lastEventsTimes[t])) else None
  }

  /** Event types do not interfere: an event of one type never changes whether another type's event is delivered. */
  lemma TypesAreIndependent(h: History, hasCallback: bool, e: DetectionEvent, other: DetectionEvent)
    requires other.eventType != e.eventType
    ensures Suppresses(After(h, hasCallback, e), other) == Suppresses(h, other)
  {
  }

  /**
   * Right after `e` was delivered: the same event again within the window is
   * suppressed, and it is delivered again once the window has passed.
   */
  lemma RepeatWithinWindowSuppressed(h: History, e: DetectionEvent, later: int)
    requires Delivers(h, true, e) && e.payload != ""
    ensures Suppresses(After(h, true, e), e.(now := later)) <==> later - e.recordedAt < EventThrottleMs
  {
  }

  /** A changed payload is never suppressed, however soon it follows. */
  lemma ChangedPayloadDelivered(h: History, e: DetectionEvent, next: DetectionEvent)
    requires Delivers(h, true, e) && next.eventType == e.eventType && next.payload != e.payload
    ensures Delivers(After(h, true, e), true, next)
  {
  }

  /** Without a callback nothing is ever delivered and nothing is ever recorded. */
  lemma {:induction false} NoCallbackRecordsNothing(h: History, events: seq<DetectionEvent>)
    ensures Run(h, false, events) == (h, [])
    decreases |events|
  {
    if events != [] {
      assert After(h, false, events[0]) == h;
      NoCallbackRecordsNothing(h, events[1..]);
      var rest := Run(After(h, false, events[0]), false, events[1..]);
      assert rest == (h, []);
      assert Run(h, false, events).0 == h;
      assert Run(h, false, events).1 == [];
    }
  }

  /** Every event of `events` has type `t` and serialises to `p`. */
  predicate Burst(events: seq<DetectionEvent>, t: string, p: string) {
    forall i | 0 <= i < |events| :: events[i].eventType == t && events[i].payload == p
  }

  /** Each event of `ds` after the first arrives at least the window after the previous one was recorded. */
  predicate Spaced(ds: seq<DetectionEvent>) {
    forall i | 0 <= i < |ds| - 1 :: ds[i + 1].now >= ds[i].recordedAt + EventThrottleMs
  }

  /** The first event of `ds`, if any, arrives at `from` or later. */
  predicate StartsFrom(ds: seq<DetectionEvent>, from: int) {
    |ds| > 0 ==> ds[0].now >= from
  }

  /** Prepending an event recorded a full window before a spaced sequence keeps it spaced. */
  lemma PrependSpaced(e: DetectionEvent, ds: seq<DetectionEvent>)
    requires Spaced(ds) && StartsFrom(ds, e.recordedAt + EventThrottleMs)
    ensures Spaced([e] + ds)
  {
  }

  /**
   * A burst of one unchanging event is collapsed to a bounded rate: each
   * delivery arrives at least the window after the previous one was recorded,
   * and the first one at least the window after the matching delivery recorded
   * before the burst, if any.
   */
  lemma {:induction false} BurstIsRateLimited(h: History, hasCallback: bool, events: seq<DetectionEvent>, t: string, p: string)
    requires Burst(events, t, p) && p != ""
    ensures Spaced(Run(h, hasCallback, events).1)
    ensures Recorded(h, t).Some? && Recorded(h, t).value.0 == p ==>
              StartsFrom(Run(h, hasCallback, events).1, Recorded(h, t).value.1 + EventThrottleMs)
    decreases |events|
  {
    if events != [] {
      var e := events[0];
      var h1 := After(h, hasCallback, e);
      assert Burst(events[1..], t, p);
      BurstIsRateLimited(h1, hasCallback, events[1..], t, p);
      var rest := Run(h1, hasCallback, events[1..]).1;
      if Delivers(h, hasCallback, e) {
        assert Recorded(h1, t) == Some((p, e.recordedAt));
        assert Run(h, hasCallback, events).1 == [e] + rest;
        PrependSpaced(e, rest);
      } else {
        assert Run(h, hasCallback, events).1 == [] + rest == rest;
      }
    }
  }

  /** The callback `_onTouch` calls. */
  datatype TouchCallback = OnTap | OnDoubleTap

  /**
   * `_onTouch`: `onTap` for a single tap, `onDoubleTap` for a double tap, each only
   * when the configuration has it.
   */
  function OnTouch(props: JsObject, isDoubleTap: Value): (called: Option<TouchCallback>)
    ensures called == Some(OnTap) <==> Truthy(Get(props, "onTap")) && !Truthy(isDoubleTap)
    ensures called == Some(OnDoubleTap) <==> Truthy(Get(props, "onDoubleTap")) && Truthy(isDoubleTap)
  {
    if Truthy(Get(props, "onTap")) && !Truthy(isDoubleTap) then Some(OnTap)
    else if Truthy(Get(props, "onDoubleTap")) && Truthy(isDoubleTap) then Some(OnDoubleTap)
    else None
  }

  /**
   * A touch reaches a callback only if the translated configuration enabled touch
   * detection on the native view.
   */
  lemma TouchNeedsTouchDetector(tables: PropTranslation.ConversionTables, props: JsObject,
                                platform: Platform, isDoubleTap: Value)
    requires OnTouch(props, isDoubleTap).Some?
    ensures Get(PropTranslation.ConvertNativeProps(tables, props, platform), "touchDetectorEnabled") == Bool(true)
  {
  }
}
