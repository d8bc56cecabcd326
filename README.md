# RNCamera component logic, in Dafny

A model of the logic inside the React Native camera component `Camera`
(`src/RNCamera.js`). Native calls, JSX and type declarations are left out. Four
pieces of the component are modelled, each with proofs:

- **Prop translator** (`PropTranslation`). `_convertProp` and `_convertNativeProps`:
  - each option's string value is mapped through `Camera.ConversionTables`;
  - a detector-enabled flag is derived from each detector callback that is present;
  - `ratio` is dropped on iOS.
- **Event throttle** (`EventHandlers`). `_onObjectDetected` keeps two dictionaries,
  `_lastEvents` and `_lastEventsTimes`, keyed by `nativeEvent.type`. It uses them to
  drop an identical event of the same type that arrives within 500 ms. `_onTouch`
  dispatches taps.
- **Authorization gate** (`Authorization`). It covers `isAuthorized`,
  `isAuthorizationChecked` and `_isMounted`, and how the constructor,
  `componentDidMount` and `componentWillUnmount` change them. It also covers
  `getStatus` and the three-way choice `render` makes.
- **Capture options** (`CaptureOptions`). This is the option normalization of
  `takePictureAsync` and `recordAsync`, the null-handle failure, and the platform
  guards of `getSupportedRatiosAsync`, `getSupportedPreviewFpsRange` and
  `getCameraIdsAsync`.

`RNCamera.Camera` is the component as a class. Its fields are the ones its methods
update in place. Each method's postcondition ties the new state or the result to
the pure definitions above. Options objects that `takePictureAsync` and
`recordAsync` edit in place are objects of `RNCamera.OptionsObject`.

Parameters stand in for everything outside the component:

- `Platform.OS` is a `Platform`.
- The conversion tables and the `Orientation` and `VideoQuality` constants are maps.
- The answer of `requestPermissions` is the argument of `PermissionResolved`.
- `findNodeHandle`'s result is the argument of `SetReference`.
- `JSON.stringify(nativeEvent)` is an event's `payload` string.
- `new Date()` is an event's `now` (ms) when it arrives, and its `recordedAt` (ms) when read again after the callback returns.
- Whether a detector callback is present is a boolean.

JavaScript values are a datatype with explicit truthiness: `undefined`, `null`,
`false`, `0` and `""` are falsy. An absent property reads as `undefined`. Native
calls are values of `CaptureOptions.NativeCall`, so "no native call" is an error
result that carries none.

A string missing from a conversion table is not passed through:
`Camera.ConversionTables[key][value]` (`src/RNCamera.js:696`) is `undefined` on
a miss, and `ConvertProp` yields `Undefined` there.

Two consequences of the code are proved and worth knowing:

- `takePictureAsync` edits the caller's options object. It looks up every truthy
  `orientation`, codes included. So an options object handed in twice loses a
  named orientation with a non-zero code on the second call: the code is looked
  up as a name and reads `undefined`.
- `recordAsync` converts only string values, so reusing its options is harmless.

## Model

| member | source | states |
|---|---|---|
| PropTranslation.ConvertProp | src/RNCamera.js:694-700 | A non-string value, or a key without a table, is returned unchanged. A string under a key with a table becomes that table's code, and `undefined` exactly when the table lacks it. It is never a string afterwards. |
| PropTranslation.DerivedFlags | src/RNCamera.js:667-685 | Holds exactly the flags whose callback is present (`touchDetectorEnabled` for `onTap` or `onDoubleTap`), each `true`. |
| PropTranslation.ConvertNativeProps | src/RNCamera.js:664-692 | The output's keys are the input's keys plus the requested flags, minus `ratio` on iOS only. A requested flag is `true`. Every other key holds its input value passed through `ConvertProp`. The input is a value and is not changed. |
| PropTranslation.ConvertPropIdempotent | src/RNCamera.js:694-700 | Converting a converted value again changes nothing. |
| PropTranslation.FlagsFollowCallbacks | src/RNCamera.js:667-685 | Whether a flag is requested depends on the six callbacks only. |
| PropTranslation.CallbackIsPlainOption | src/RNCamera.js:303-315 | With tables over the declared option names, no callback name is a flag, `ratio` or a converted option. |
| PropTranslation.CallbacksPassThrough | src/RNCamera.js:664-692 | The callbacks reach the native props unchanged. |
| PropTranslation.ConvertNativePropsIdempotent | src/RNCamera.js:664-700 | With tables over the declared option names, translating the translated props again yields the same object. |
| PropTranslation.OnlyRatioDependsOnPlatform | src/RNCamera.js:687-689 | The iOS output is the Android output without `ratio`. Other platforms get the Android output. |
| PropTranslation.OnlyFaceCallbackEnablesOnlyFaceDetector | src/RNCamera.js:664-692 | If `onFacesDetected` is the only callback, `faceDetectorEnabled` is `true` and the other four flags are absent. |
| EventHandlers.Suppresses | src/RNCamera.js:561-568 | Only a repeat is dropped: the type has a non-empty recorded payload equal to the event's, and the event arrives less than 500 ms after the recorded time. |
| EventHandlers.After | src/RNCamera.js:559-575 | An event that is suppressed, or has no callback, leaves both dictionaries unchanged. A delivered event records its payload, and the time read after its callback returned, under its own type. Every other type's record is untouched. |
| EventHandlers.Run | src/RNCamera.js:559-575 | Feeding a sequence of events to one handler delivers at most as many events as it is given, each one of them. |
| EventHandlers.TypesAreIndependent | src/RNCamera.js:559-575 | An event of one type never changes whether an event of another type is suppressed. |
| EventHandlers.RepeatWithinWindowSuppressed | src/RNCamera.js:559-575 | Right after delivery, the same event is suppressed exactly when it comes back less than 500 ms after it was recorded. |
| EventHandlers.ChangedPayloadDelivered | src/RNCamera.js:559-575 | After a delivery, an event of the same type with a different payload is delivered, however soon it follows. |
| EventHandlers.NoCallbackRecordsNothing | src/RNCamera.js:570-574 | Without a callback, no event of any sequence is delivered and nothing is recorded. |
| EventHandlers.BurstIsRateLimited | src/RNCamera.js:559-575 | For a run of one unchanging event, each delivery arrives at least 500 ms after the previous one was recorded. The first delivery is at least 500 ms after a matching earlier delivery was recorded. |
| EventHandlers.OnTouch | src/RNCamera.js:539-546 | `onTap` is called exactly for a single tap when it is present. `onDoubleTap` is called exactly for a double tap when it is present. Never both. |
| EventHandlers.TouchNeedsTouchDetector | src/RNCamera.js:539-546 | A touch that reaches a callback implies the translated props set `touchDetectorEnabled` to `true`. |
| Authorization.GetStatus | src/RNCamera.js:613-619 | The status is pending exactly when not checked. Otherwise it is ready when authorized and not authorized when refused. |
| Authorization.RenderChoice | src/RNCamera.js:631-661 | The camera is rendered exactly when authorized or a function child is given. Otherwise the pending view is rendered if unchecked, and the not-authorized view if checked. |
| Authorization.Step | src/RNCamera.js:593-611 | One lifecycle event keeps the gate consistent, never clears `isAuthorizationChecked`, never remounts, and changes nothing once unmounted. An answer while mounted marks the request checked and stores the answer. |
| Authorization.RenderFollowsStatus | src/RNCamera.js:613-661 | Without a function child, in a consistent state, the rendered view is the one the status names. |
| Authorization.ResolveDecidesStatus | src/RNCamera.js:597-611 | An answer that arrives while mounted sets the status to ready or not authorized. One that arrives after unmounting leaves the state unchanged. |
| Authorization.ReplayKeepsConsistent | src/RNCamera.js:593-611 | No sequence of answers and unmounts can make `isAuthorized` true while `isAuthorizationChecked` is false. |
| Authorization.CheckedNeverReverts | src/RNCamera.js:593-611 | Once checked, the gate stays checked and never reports pending again. |
| Authorization.UnmountedStateIsFrozen | src/RNCamera.js:593-611 | After unmounting, no event changes the gate. |
| Authorization.UnmountBeforeResolveKeepsInitialState | src/RNCamera.js:593-611 | If unmount comes before the answer, the state stays (false, false) and pending. |
| CaptureOptions.HandleSet | src/RNCamera.js:454-456 | Holds exactly when a handle is attached and it is truthy, that is not 0. |
| CaptureOptions.OrientationCode | src/RNCamera.js:446-448 | An orientation name gives its code, and anything else gives `undefined`. |
| CaptureOptions.NormalizePictureOptions | src/RNCamera.js:438-452 | A falsy `quality` becomes 1, so `quality` is always truthy. An undefined `pauseAfterCapture` becomes false. A truthy `orientation` becomes its code. Both defaults are always present, and all other properties are unchanged. |
| CaptureOptions.NormalizeRecordOptions | src/RNCamera.js:490-498 | A string `quality` or `orientation` becomes its code (or `undefined`). Other values and properties are unchanged, and no key is added. |
| CaptureOptions.RecordOptionsReusable | src/RNCamera.js:490-498 | Normalizing recording options a second time changes nothing. |
| CaptureOptions.PictureOptionsReusableIff | src/RNCamera.js:438-452 | Normalizing picture options a second time changes nothing if and only if the first pass left a falsy orientation. |
| CaptureOptions.ReusedPictureOptionsLoseOrientation | src/RNCamera.js:446-448 | A named orientation with a non-zero code is sent as that code on the first call and as `undefined` on the second. |
| CaptureOptions.SupportedRatios | src/RNCamera.js:461-467 | Succeeds with the native ratio query on Android only. Anywhere else it fails with 'Ratio is not supported on iOS' and makes no native call. |
| CaptureOptions.SupportedPreviewFpsRange | src/RNCamera.js:477-483 | Succeeds with the native FPS-range query on Android only. Anywhere else it fails with its message and makes no native call. |
| CaptureOptions.CameraIds | src/RNCamera.js:469-475 | Android passes the camera handle, and every other platform passes none. |
| RNCamera.HasFaCC | src/RNCamera.js:621-622 | A function child is a present, truthy `children` prop. |
| RNCamera.Camera.constructor | src/RNCamera.js:427-436 | The new component is not authorized, not checked and mounted. It has empty event dictionaries and no handle. |
| RNCamera.Camera.ComponentWillUnmount | src/RNCamera.js:593-595 | Clears `_isMounted` and changes nothing else. |
| RNCamera.Camera.PermissionResolved | src/RNCamera.js:597-611 | Stores the answer and sets checked only if still mounted, and never clears checked. |
| RNCamera.Camera.SetReference | src/RNCamera.js:583-591 | An attached view stores its node handle, and a detached one clears the handle. Nothing else changes. |
| RNCamera.Camera.Status | src/RNCamera.js:613-619 | The component's status follows the same three cases as `getStatus`. |
| RNCamera.Camera.Render | src/RNCamera.js:621-662 | The native view, carrying `ConvertNativeProps` of the props, exactly when authorized or given a function child. Otherwise the pending view while unchecked and the not-authorized view after. In a valid state without a function child, the native view renders exactly when the status is ready. |
| RNCamera.Camera.OnObjectDetected | src/RNCamera.js:559-575 | Calls the callback exactly when it is present and the event is not suppressed. The dictionaries become the recorded history. Nothing else changes. |
| RNCamera.Camera.TakePictureAsync | src/RNCamera.js:438-459 | Normalizes the caller's object in place, or a fresh one. Fails with the null-handle error exactly when no truthy handle is attached, and never calls `takePicture` then. Otherwise it calls `takePicture` with the normalized options. |
| RNCamera.Camera.RecordAsync | src/RNCamera.js:490-500 | A missing argument becomes a fresh empty object, and a given one is normalized in place. `record` is always called with the options and the handle, attached or not. |
| RNCamera.Camera.GetSupportedRatiosAsync | src/RNCamera.js:461-467 | The platform guard of `SupportedRatios`, with the component's handle. |
| RNCamera.Camera.GetSupportedPreviewFpsRangeAsync | src/RNCamera.js:477-483 | The platform guard of `SupportedPreviewFpsRange`, with the component's handle. |
| RNCamera.Camera.GetCameraIdsAsync | src/RNCamera.js:469-475 | The component's handle on Android, and no handle elsewhere. |
| RNCamera.TakePictureWithoutView | src/RNCamera.js:438-459 | On a fresh component, without a view attached, a capture fails with the null-handle error. |
| RNCamera.AuthorizationScenario | src/RNCamera.js:597-661 | Without a function child, the pending view renders before the answer. After it, the camera with the translated props renders on grant, and the not-authorized view on refusal. |

## Left out

- Native module calls (`CameraManager.takePicture`, `record`, `getSupportedRatios`, `getCameraIds`, `getSupportedPreviewFpsRange`) are opaque foreign code. Each is modelled only as the `NativeCall` value it is invoked with.
- `stopRecording`, `pauseRecording`, `resumeRecording`, `pausePreview` and `resumePreview` only forward the handle to the native module. `getAvailablePictureSizes` forwards the `ratio` prop and the handle. None of them has logic of its own.
- `_onMountError`, `_onCameraReady`, `_onAudioInterrupted`, `_onAudioConnected`, `_onPictureSaved` and `_onSubjectAreaChanged` only call the matching callback when it is present.
- `requestPermissions` is a separate module, `src/handlePermissions`, and is not part of this model. The permission dialog's arguments (`captureAudio`, title, message) are therefore not modelled. Its answer is the argument of `PermissionResolved`.
- `async`/`await` scheduling is not modelled. Mount resolution, unmount and events are discrete sequential steps.
- React rendering is left out: JSX, `requireNativeComponent`, `StyleSheet`, `renderChildren` (calling the function child with camera and status) and the callback props handed to the native view. Only the branch `render` takes and the native props it passes are modelled.
- `findNodeHandle` is a framework call. Its result is a parameter of `SetReference`.
- `JSON.stringify` and `new Date()` are left out. The serialized event and the current time are event fields.
- PropTypes, Flow types, `defaultProps` and the stub `CameraManager` constants are declarations without behaviour. Without `defaultProps`, a missing `pendingAuthorizationView` or `notAuthorizedView` reads as `undefined`.
- JavaScript numbers are modelled as reals, so NaN (a falsy number) is not modelled.
- Prototype-chain lookups are not modelled: `table["constructor"]` on a plain object would find a function. Table lookups see only the table's own entries.
- A conversion table that is missing or falsy is modelled as an absent key of the tables map. An example is `(CameraManager.FaceDetection || {}).Mode` when undefined.
- CaptureOptions.OrientationCode: a non-string key (a number, a boolean) names no entry, assuming `CameraManager.Orientation` has only orientation names as keys. JavaScript would coerce such a key to a string.
- `CameraManager.Orientation` is assumed present. With the stubbed native module it is undefined, and a truthy orientation would raise a `TypeError`.
- RNCamera.Camera.RecordAsync: `null` stands for a missing or falsy options argument. A truthy non-object argument, which the code replaces by `{}`, is excluded by the declared `RecordingOptions` type and is not modelled.
- `Camera.Constants.VideoQuality` is assumed present. With the stubbed native module it is undefined, and a string `quality` would raise a `TypeError`.
- RNCamera.Camera.TakePictureAsync: `null` stands for a missing or falsy options argument. A truthy non-object argument is excluded by the declared `PictureOptions` type and is not modelled.
- Event handlers receive whether their callback is present, not the callback. A callback's own effects are outside the component. A callback that throws is not modelled: the event would then not be recorded.
- EventHandlers.After and RNCamera.Camera.OnObjectDetected: the payload recorded is the event's serialised form on arrival. The code serialises the event again after the callback returns, so a callback that mutates `nativeEvent` changes what is recorded; that is not modelled. The time recorded is the separate clock reading `recordedAt`, taken after the callback.
