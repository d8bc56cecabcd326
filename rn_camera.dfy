/**
 * The `Camera` component itself: the fields its methods update in place, and
 * the methods that read and change them, each tied to the pure definitions of
 * the other modules.
 */
module RNCamera {
  import opened JsValues
  import opened PropTranslation
  import opened EventHandlers
  import opened Authorization
  import opened CaptureOptions

  /** A plain options object a caller hands in and the component edits in place. */
  class OptionsObject {
    var fields: JsObject

    constructor (fields: JsObject)
      ensures this.fields == fields
    {
      this.fields := fields;
    }
  }

  /** What `render` returns: the native camera view with its props, or a view taken from the props. */
  datatype Element = NativeCameraView(nativeProps: JsObject) | PropView(view: Value)

  /** `hasFaCC`: the children are a function. */
  predicate HasFaCC(props: JsObject)
    ensures HasFaCC(props) ==> "children" in props && Truthy(props["children"])
  {
    Get(props, "children").Func?
  }

  class Camera {
    var isAuthorized: bool
    var isAuthorizationChecked: bool
    var isMounted: bool
    var cameraHandle: Option<int>
    var lastEvents: map<string, string>
    var lastEventsTimes: map<string, int>

    /** The object invariant: access is never granted before the request is answered. */
    ghost predicate Valid()
      reads this
    {
      Consistent(GateState())
    }

    function GateState(): Gate
      reads this
    {
      Gate(isAuthorized, isAuthorizationChecked, isMounted)
    }

    function EventHistory(): History
      reads this
    {
      History(lastEvents, lastEventsTimes)
    }

    /** `constructor`: not authorized, not checked, mounted, no events seen, no handle yet. */
    constructor ()
      ensures Valid()
      ensures GateState() == Initial && EventHistory() == NoHistory && cameraHandle == None
    {
      isAuthorized, isAuthorizationChecked, isMounted := false, false, true;
      cameraHandle := None;
      lastEvents, lastEventsTimes := map[], map[];
    }

    /** `componentWillUnmount`: clears `_isMounted` and nothing else. */
    method ComponentWillUnmount()
      requires Valid()
      modifies this
      ensures Valid()
      ensures GateState() == Step(old(GateState()), Unmount)
      ensures EventHistory() == old(EventHistory()) && cameraHandle == old(cameraHandle)
    {
      isMounted := false;
    }

    /**
     * The continuation of `componentDidMount` once the permission request has
     * resolved to `granted`: stores the answer, unless unmounted meanwhile.
     */
    method PermissionResolved(granted: bool)
      requires Valid()
      modifies this
      ensures Valid()
      ensures GateState() == Step(old(GateState()), LifecycleEvent.PermissionResolved(granted))
      ensures old(isAuthorizationChecked) ==> isAuthorizationChecked
      ensures EventHistory() == old(EventHistory()) && cameraHandle == old(cameraHandle)
    {
      if isMounted == false {
        return;
      }
      isAuthorized, isAuthorizationChecked := granted, true;
    }

    /**
     * `_setReference`: an attached view stores the node handle found for it
     * (`nodeHandle`), a detached one clears the handle.
     */
    method SetReference(attached: bool, nodeHandle: Option<int>)
      requires Valid()
      modifies this
      ensures Valid()
      ensures cameraHandle == if attached then nodeHandle else None
      ensures GateState() == old(GateState()) && EventHistory() == old(EventHistory())
    {
      if attached {
        cameraHandle := nodeHandle;
      } else {
        cameraHandle := None;
      }
    }

    /** `getStatus`, on the component's state. */
    function Status(): (s: Authorization.Status)
      reads this
      ensures s == PendingAuthorization <==> !isAuthorizationChecked
      ensures s == Ready <==> isAuthorizationChecked && isAuthorized
      ensures s == NotAuthorized <==> isAuthorizationChecked && !isAuthorized
    {
      GetStatus(isAuthorized, isAuthorizationChecked)
    }

    /**
     * `render`: the native camera view with the translated props when authorized
     * or given a function as child; otherwise the pending view until the request
     * is answered and the not-authorized view after.
     */
    function Render(tables: ConversionTables, props: JsObject, platform: Platform): (e: Element)
      reads this
      ensures e.NativeCameraView? <==> isAuthorized || HasFaCC(props)
      ensures e.NativeCameraView? ==> e.nativeProps == ConvertNativeProps(tables, props, platform)
      ensures !e.NativeCameraView? && !isAuthorizationChecked ==> e == PropView(Get(props, "pendingAuthorizationView"))
      ensures !e.NativeCameraView? && isAuthorizationChecked ==> e == PropView(Get(props, "notAuthorizedView"))
      ensures Valid() && !HasFaCC(props) ==> (e.NativeCameraView? <==> Status() == Ready)
    {
      var nativeProps := ConvertNativeProps(tables, props, platform);
      match RenderChoice(isAuthorized, isAuthorizationChecked, HasFaCC(props))
      case LiveCamera => NativeCameraView(nativeProps)
      case PendingAuthorizationView => PropView(Get(props, "pendingAuthorizationView"))
      case NotAuthorizedView => PropView(Get(props, "notAuthorizedView"))
    }

    /**
     * The handler `_onObjectDetected(callback)` returns, on one native event:
     * drops a repeat of the type's last event within the window, otherwise calls
     * the callback if there is one and records the event with the time read
     * after the callback returned. Returns whether the callback was called.
     */
    method OnObjectDetected(hasCallback: bool, e: DetectionEvent) returns (called: bool)
      requires Valid()
      modifies this
      ensures Valid()
      ensures called == Delivers(old(EventHistory()), hasCallback, e)
      ensures EventHistory() == After(old(EventHistory()), hasCallback, e)
      ensures GateState() == old(GateState()) && cameraHandle == old(cameraHandle)
    {
      var t := e.eventType;
      if && t in lastEvents && lastEvents[t] != ""
         && t in lastEventsTimes
         && e.payload == lastEvents[t]
         && e.now - lastEventsTimes[t] < EventThrottleMs
      {
        return false;
      }
      called := false;
      if hasCallback {
        called := true;
        lastEventsTimes := lastEventsTimes[t := e.recordedAt];
        lastEvents := lastEvents[t := e.payload];
      }
    }

    /**
     * `takePictureAsync`: normalizes the options in place (a fresh object when
     * none is given), then fails with `NullHandle` if no handle is attached, and
     * otherwise calls the native `takePicture` with the normalized options.
     */
    method TakePictureAsync(options: OptionsObject?, orientations: map<string, int>)
      returns (result: Result<NativeCall>, sent: OptionsObject)
      modifies options
      ensures options != null ==> sent == options
      ensures options == null ==> fresh(sent)
      ensures sent.fields == NormalizePictureOptions(if options == null then map[] else old(options.fields), orientations)
      ensures result.Ok? <==> HandleSet(cameraHandle)
      ensures result.Ok? ==> result.value == TakePicture(sent.fields, cameraHandle.value)
      ensures result.Err? ==> result.error == NullHandle
    {
      if options == null {
        sent := new OptionsObject(map[]);
      } else {
        sent := options;
      }
      if !Truthy(Get(sent.fields, "quality")) {
        sent.fields := sent.fields["quality" := Num(1.0)];
      }
      if Truthy(Get(sent.fields, "orientation")) {
        sent.fields := sent.fields["orientation" := OrientationCode(orientations, Get(sent.fields, "orientation"))];
      }
      if Get(sent.fields, "pauseAfterCapture") == Undefined {
        sent.fields := sent.fields["pauseAfterCapture" := Bool(false)];
      }
      if !HandleSet(cameraHandle) {
        return Err(NullHandle), sent;
      }
      result := Ok(TakePicture(sent.fields, cameraHandle.value));
    }

    /**
     * `recordAsync`: a missing options argument becomes a fresh empty object; the
     * quality and orientation names of a given one are replaced in place by their
     * codes. The native `record` is called whether or not a handle is attached.
     */
    method RecordAsync(options: OptionsObject?, videoQualities: map<string, int>, orientations: map<string, int>)
      returns (call: NativeCall, sent: OptionsObject)
      modifies options
      ensures options != null ==> sent == options
      ensures options == null ==> fresh(sent)
      ensures sent.fields ==
        if options == null then map[] else NormalizeRecordOptions(old(options.fields), videoQualities, orientations)
      ensures call == Record(sent.fields, cameraHandle)
    {
      if options == null {
        sent := new OptionsObject(map[]);
      } else {
        sent := options;
        var quality := Get(sent.fields, "quality");
        if quality.Str? {
          sent.fields := sent.fields["quality" := Code(videoQualities, quality.s)];
        }
      }
      var orientation := Get(sent.fields, "orientation");
      if orientation.Str? {
        sent.fields := sent.fields["orientation" := Code(orientations, orientation.s)];
      }
      call := Record(sent.fields, cameraHandle);
    }

    /** `getSupportedRatiosAsync`, with the component's handle. */
    method GetSupportedRatiosAsync(platform: Platform) returns (r: Result<NativeCall>)
      ensures r.Ok? <==> platform == Android
      ensures r.Ok? ==> r.value == GetSupportedRatios(cameraHandle)
      ensures r.Err? ==> r.error == Unsupported(RatioUnsupported)
    {
      r := SupportedRatios(platform, cameraHandle);
    }

    /** `getSupportedPreviewFpsRange`, with the component's handle. */
    method GetSupportedPreviewFpsRangeAsync(platform: Platform) returns (r: Result<NativeCall>)
      ensures r.Ok? <==> platform == Android
      ensures r.Ok? ==> r.value == GetSupportedPreviewFpsRange(cameraHandle)
      ensures r.Err? ==> r.error == Unsupported(PreviewFpsRangeUnsupported)
    {
      r := SupportedPreviewFpsRange(platform, cameraHandle);
    }

    /** `getCameraIdsAsync`, with the component's handle on Android. */
    method GetCameraIdsAsync(platform: Platform) returns (call: NativeCall)
      ensures call == GetCameraIds(if platform == Android then cameraHandle else None)
    {
      call := CameraIds(platform, cameraHandle);
    }
  }

  /**
   * The scenario of a capture without a view: a fresh component has no handle,
   * so `takePictureAsync` fails with `NullHandle` and no native call is made.
   */
  method TakePictureWithoutView(orientations: map<string, int>) returns (result: Result<NativeCall>)
    ensures result == Err(NullHandle)
  {
    var camera := new Camera();
    var sent;
    result, sent := camera.TakePictureAsync(null, orientations);
  }

  /**
   * The authorization scenario: pending view before the answer, then the
   * not-authorized view on refusal or the camera, with the translated props, on
   * grant.
   */
  method AuthorizationScenario(tables: ConversionTables, props: JsObject, platform: Platform, granted: bool)
    returns (before: Element, after: Element)
    requires !HasFaCC(props)
    ensures before == PropView(Get(props, "pendingAuthorizationView"))
    ensures granted ==> after == NativeCameraView(ConvertNativeProps(tables, props, platform))
    ensures !granted ==> after == PropView(Get(props, "notAuthorizedView"))
  {
    var camera := new Camera();
    before := camera.Render(tables, props, platform);
    camera.PermissionResolved(granted);
    after := camera.Render(tables, props, platform);
  }
}
