/**
 * The prop translator: the component's configuration object, with friendly
 * string values replaced by the native codes of `Camera.ConversionTables`, the
 * detector-enabled flags derived from the callbacks present, and `ratio` dropped
 * on iOS.
 */
module PropTranslation {
  import opened JsValues

  /**
   * `Camera.ConversionTables`: option name to {friendly name to native code}. An
   * option whose table is missing or falsy has no entry here.
   */
  type ConversionTables = map<string, map<string, int>>

  /** The option names `Camera.ConversionTables` is declared with. */
  const ConvertedKeys: set<string> := {
    "type", "flashMode", "exposure", "autoFocus", "whiteBalance",
    "faceDetectionMode", "faceDetectionLandmarks", "faceDetectionClassifications",
    "googleVisionBarcodeType", "googleVisionBarcodeMode", "videoStabilizationMode"
  }

  /** Tables built from the native constants only ever cover the declared option names. */
  predicate WellFormed(tables: ConversionTables) {
    tables.Keys <= ConvertedKeys
  }

  /**
   * `_convertProp`: a string under an option that has a table becomes that
   * table's code for it, and `undefined` when the table has no such entry;
   * every other value is returned as it is.
   */
  function ConvertProp(tables: ConversionTables, value: Value, key: string): (r: Value)
    ensures !value.Str? || key !in tables ==> r == value
    ensures value.Str? && key in tables ==> !r.Str? && (r.Undefined? <==> value.s !in tables[key])
    ensures value.Str? && key in tables && value.s in tables[key] ==> r == Num(tables[key][value.s] as real)
  {
    if value.Str? && key in tables then Code(tables[key], value.s) else value
  }

  /**
   * Whether the derived flag `flag` is switched on by a callback present in
   * `props`; false for every name that is not one of the five flags.
   */
  predicate FlagRequested(props: JsObject, flag: string) {
    if flag == "barCodeScannerEnabled" then Truthy(Get(props, "onBarCodeRead"))
    else if flag == "googleVisionBarcodeDetectorEnabled" then Truthy(Get(props, "onGoogleVisionBarcodesDetected"))
    else if flag == "faceDetectorEnabled" then Truthy(Get(props, "onFacesDetected"))
    else if flag == "touchDetectorEnabled" then Truthy(Get(props, "onTap")) || Truthy(Get(props, "onDoubleTap"))
    else if flag == "textRecognizerEnabled" then Truthy(Get(props, "onTextRecognized"))
    else false
  }

  /** The five detector-enabled flags `_convertNativeProps` may add. */
  const FlagNames: set<string> := {
    "barCodeScannerEnabled", "googleVisionBarcodeDetectorEnabled", "faceDetectorEnabled",
    "touchDetectorEnabled", "textRecognizerEnabled"
  }

  /** The flags set to `true` after `mapValues`, one `if` per flag. */
  function DerivedFlags(props: JsObject): (flags: JsObject)
    ensures forall f :: f in flags <==> FlagRequested(props, f)
    ensures forall f :: f in flags ==> flags[f] == Bool(true)
  {
    map f | f in FlagNames && FlagRequested(props, f) :: Bool(true)
  }

  /**
   * `_convertNativeProps`: a fresh object whose keys are the input's keys and the
   * requested flags, less `ratio` on iOS; a requested flag is `true`, every other
   * key holds its input value passed through `ConvertProp`.
   */
  function ConvertNativeProps(tables: ConversionTables, props: JsObject, platform: Platform): (r: JsObject)
    ensures forall k :: k in r <==> (k in props || FlagRequested(props, k)) && !(platform == Ios && k == "ratio")
    ensures forall k :: k in r ==>
      r[k] == if FlagRequested(props, k) then Bool(true) else ConvertProp(tables, props[k], k)
  {
    var converted := map k | k in props :: ConvertProp(tables, props[k], k);
    var withFlags := converted + DerivedFlags(props);
    if platform == Ios then withFlags - {"ratio"} else withFlags
  }

  /** Converting an already converted value changes nothing. */
  lemma ConvertPropIdempotent(tables: ConversionTables, value: Value, key: string)
    ensures ConvertProp(tables, ConvertProp(tables, value, key), key) == ConvertProp(tables, value, key)
  {
  }

  /** The callbacks whose presence switches the flags on. */
  const CallbackNames: set<string> := {
    "onBarCodeRead", "onGoogleVisionBarcodesDetected", "onFacesDetected",
    "onTap", "onDoubleTap", "onTextRecognized"
  }

  /** `FlagRequested` reads nothing of the configuration but the six callbacks. */
  lemma FlagsFollowCallbacks(p: JsObject, q: JsObject, flag: string)
    requires forall c | c in CallbackNames :: Get(p, c) == Get(q, c)
    ensures FlagRequested(p, flag) == FlagRequested(q, flag)
  {
  }

  /** A callback is neither a flag, nor `ratio`, nor an option the tables convert. */
  lemma CallbackIsPlainOption(tables: ConversionTables, c: string)
    requires WellFormed(tables) && c in CallbackNames
    ensures c !in FlagNames && c != "ratio" && c !in tables
  {
  }

  /** The callbacks come out of the translation unchanged, in the translated props. */
  lemma CallbacksPassThrough(tables: ConversionTables, props: JsObject, platform: Platform)
    requires WellFormed(tables)
    ensures forall c | c in CallbackNames :: Get(ConvertNativeProps(tables, props, platform), c) == Get(props, c)
  {
    var r := ConvertNativeProps(tables, props, platform);
    forall c | c in CallbackNames ensures Get(r, c) == Get(props, c) {
      CallbackIsPlainOption(tables, c);
      assert !FlagRequested(props, c);
    }
  }

  /**
   * With tables over the declared option names only, translating an already
   * translated configuration again yields the same object.
   */
  lemma ConvertNativePropsIdempotent(tables: ConversionTables, props: JsObject, platform: Platform)
    requires WellFormed(tables)
    ensures ConvertNativeProps(tables, ConvertNativeProps(tables, props, platform), platform)
         == ConvertNativeProps(tables, props, platform)
  {
    var once := ConvertNativeProps(tables, props, platform);
    var twice := ConvertNativeProps(tables, once, platform);
    CallbacksPassThrough(tables, props, platform);
    forall k ensures FlagRequested(once, k) == FlagRequested(props, k) {
      FlagsFollowCallbacks(once, props, k);
    }
    forall k | k in once ensures k in twice && twice[k] == once[k] {
      if !FlagRequested(props, k) {
        ConvertPropIdempotent(tables, props[k], k);
      }
    }
    assert twice.Keys == once.Keys;
  }

  /**
   * The platforms differ only in `ratio`: iOS gets the Android object without it,
   * every other platform gets the Android object.
   */
  lemma OnlyRatioDependsOnPlatform(tables: ConversionTables, props: JsObject)
    ensures ConvertNativeProps(tables, props, Ios) == ConvertNativeProps(tables, props, Android) - {"ratio"}
    ensures ConvertNativeProps(tables, props, OtherPlatform) == ConvertNativeProps(tables, props, Android)
  {
  }

  /**
   * A configuration whose only callback is `onFacesDetected`, and that sets none
   * of the flags itself, comes out with `faceDetectorEnabled` true and no other flag.
   */
  lemma OnlyFaceCallbackEnablesOnlyFaceDetector(tables: ConversionTables, props: JsObject, platform: Platform)
    requires Truthy(Get(props, "onFacesDetected"))
    requires forall c | c in {"onBarCodeRead", "onGoogleVisionBarcodesDetected", "onTap", "onDoubleTap", "onTextRecognized"} :: c !in props
    requires forall f | f in FlagNames :: f !in props
    ensures Get(ConvertNativeProps(tables, props, platform), "faceDetectorEnabled") == Bool(true)
    ensures forall f | f in FlagNames - {"faceDetectorEnabled"} :: f !in ConvertNativeProps(tables, props, platform)
  {
  }
}
