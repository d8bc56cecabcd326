/**
 * The option normalization `takePictureAsync` and `recordAsync` apply before
 * they reach the native module, and the native calls the component's
 * operations end in.
 */
module CaptureOptions {
  import opened JsValues

  /** Why an operation fails before reaching the native module. */
  datatype CaptureError =
    | NullHandle                  // 'Camera handle cannot be null'
    | Unsupported(message: string) // an `Error` for an operation the platform lacks

  datatype Result<T> = Ok(value: T) | Err(error: CaptureError)

  /** A call into the native camera module, with the arguments it receives. */
  datatype NativeCall =
    | TakePicture(options: JsObject, tag: int)
    | Record(options: JsObject, handle: Option<int>)
    | GetSupportedRatios(handle: Option<int>)
    | GetSupportedPreviewFpsRange(handle: Option<int>)
    | GetCameraIds(handle: Option<int>)

  const RatioUnsupported := "Ratio is not supported on iOS"
  const PreviewFpsRangeUnsupported := "getSupportedPreviewFpsRange is not supported on iOS"

  /** `this._cameraHandle` is truthy: a handle is attached and it is not 0. */
  predicate HandleSet(handle: Option<int>)
    ensures HandleSet(handle) <==> handle.Some? && Truthy(Num(handle.value as real))
  {
    handle.Some? && handle.value != 0
  }

  /**
   * `CameraManager.Orientation[v]`: the code of an orientation name. Any other
   * value names no entry of the table.
   */
  function OrientationCode(orientations: map<string, int>, v: Value): (r: Value)
    ensures r.Num? <==> v.Str? && v.s in orientations
    ensures r.Num? || r.Undefined?
  {
    if v.Str? then Code(orientations, v.s) else Undefined
  }

  /** The three properties `takePictureAsync` may set. */
  const PictureDefaults: set<string> := {"quality", "orientation", "pauseAfterCapture"}

  /**
   * The fields of the picture options after `takePictureAsync`'s three steps:
   * a falsy `quality` becomes 1, a truthy `orientation` becomes its code (or
   * `undefined`), an undefined `pauseAfterCapture` becomes false.
   */
  function NormalizePictureOptions(options: JsObject, orientations: map<string, int>): (r: JsObject)
    ensures r.Keys == options.Keys + {"quality", "pauseAfterCapture"}
    ensures Truthy(Get(r, "quality"))
    ensures Get(r, "quality") == if Truthy(Get(options, "quality")) then Get(options, "quality") else Num(1.0)
    ensures Get(r, "pauseAfterCapture") != Undefined
    ensures Get(r, "pauseAfterCapture") ==
      if Get(options, "pauseAfterCapture") == Undefined then Bool(false) else Get(options, "pauseAfterCapture")
    ensures Get(r, "orientation") ==
      if Truthy(Get(options, "orientation")) then OrientationCode(orientations, Get(options, "orientation"))
      else Get(options, "orientation")
    ensures forall k | k in r && k !in PictureDefaults :: r[k] == options[k]
  {
    var o1 := if !Truthy(Get(options, "quality")) then options["quality" := Num(1.0)] else options;
    var o2 := if Truthy(Get(o1, "orientation")) then o1["orientation" := OrientationCode(orientations, Get(o1, "orientation"))] else o1;
    if Get(o2, "pauseAfterCapture") == Undefined then o2["pauseAfterCapture" := Bool(false)] else o2
  }

  /**
   * The fields of the recording options after `recordAsync`, for an options
   * object: a string `quality` becomes its `VideoQuality` code, a string
   * `orientation` its `Orientation` code, either one `undefined` when unknown.
   */
  function NormalizeRecordOptions(options: JsObject, videoQualities: map<string, int>,
                                  orientations: map<string, int>): (r: JsObject)
    ensures r.Keys == options.Keys
    ensures !Get(r, "quality").Str? && !Get(r, "orientation").Str?
    ensures Get(options, "quality").Str? ==> Get(r, "quality") == Code(videoQualities, Get(options, "quality").s)
    ensures !Get(options, "quality").Str? ==> Get(r, "quality") == Get(options, "quality")
    ensures Get(options, "orientation").Str? ==> Get(r, "orientation") == Code(orientations, Get(options, "orientation").s)
    ensures !Get(options, "orientation").Str? ==> Get(r, "orientation") == Get(options, "orientation")
    ensures forall k | k in r && k != "quality" && k != "orientation" :: r[k] == options[k]
  {
    var q := Get(options, "quality");
    var o1 := if q.Str? then options["quality" := Code(videoQualities, q.s)] else options;
    var orientation := Get(o1, "orientation");
    if orientation.Str? then o1["orientation" := Code(orientations, orientation.s)] else o1
  }

  /**
   * `recordAsync` can be handed the same options object again: the second call
   * sends exactly what the first one did.
   */
  lemma RecordOptionsReusable(options: JsObject, videoQualities: map<string, int>, orientations: map<string, int>)
    ensures var once := NormalizeRecordOptions(options, videoQualities, orientations);
      NormalizeRecordOptions(once, videoQualities, orientations) == once
  {
  }

  /**
   * `takePictureAsync` edits the caller's object and looks up every truthy
   * orientation, codes included: the same object handed in again sends the same
   * options exactly when the first call left a falsy orientation. In particular
   * a named orientation with a non-zero code is lost on the second call.
   */
  lemma PictureOptionsReusableIff(options: JsObject, orientations: map<string, int>)
    ensures var once := NormalizePictureOptions(options, orientations);
      NormalizePictureOptions(once, orientations) == once <==> !Truthy(Get(once, "orientation"))
  {
  }

  /** A named orientation with a non-zero code survives one call and is gone after the second. */
  lemma ReusedPictureOptionsLoseOrientation(options: JsObject, orientations: map<string, int>, name: string)
    requires Get(options, "orientation") == Str(name) && name != ""
    requires name in orientations && orientations[name] != 0
    ensures Get(NormalizePictureOptions(options, orientations), "orientation") == Num(orientations[name] as real)
    ensures Get(NormalizePictureOptions(NormalizePictureOptions(options, orientations), orientations), "orientation") == Undefined
  {
  }

  /** `getSupportedRatiosAsync`: Android only; anywhere else it fails before any native call. */
  function SupportedRatios(platform: Platform, handle: Option<int>): (r: Result<NativeCall>)
    ensures r.Ok? <==> platform == Android
    ensures r.Ok? ==> r.value == GetSupportedRatios(handle)
    ensures r.Err? ==> r.error == Unsupported(RatioUnsupported)
  {
    if platform == Android then Ok(GetSupportedRatios(handle)) else Err(Unsupported(RatioUnsupported))
  }

  /** `getSupportedPreviewFpsRange`: Android only; anywhere else it fails before any native call. */
  function SupportedPreviewFpsRange(platform: Platform, handle: Option<int>): (r: Result<NativeCall>)
    ensures r.Ok? <==> platform == Android
    ensures r.Ok? ==> r.value == GetSupportedPreviewFpsRange(handle)
    ensures r.Err? ==> r.error == Unsupported(PreviewFpsRangeUnsupported)
  {
    if platform == Android then Ok(GetSupportedPreviewFpsRange(handle)) else Err(Unsupported(PreviewFpsRangeUnsupported))
  }

  /** `getCameraIdsAsync`: Android passes the camera instance, every other platform asks without one. */
  function CameraIds(platform: Platform, handle: Option<int>): (call: NativeCall)
    ensures call.GetCameraIds?
    ensures platform == Android ==> call.handle == handle
    ensures platform != Android ==> call.handle == None
  {
    if platform == Android then GetCameraIds(handle) else GetCameraIds(None)
  }
}
