# VideoPlayerRenderer, modelled in Dafny

This project models the Android renderer of the cross-platform `VideoPlayer` control
(`Xamarians.MediaPlayer.Droid/VideoPlayerRenderer.cs`). The renderer is a Xamarin.Forms
renderer. It binds a portable `VideoPlayer` element to an Android `VideoView`, a
`MediaController` and a busy `ProgressBar`. It loads the element's `Source` into the view and
gates the playback commands (`Play`, `Pause`, `Stop`, `Seek`) and the queries (`Duration`,
`CurrentPosition`) on one readiness flag, `_prepared`. It turns the view's native callbacks
(Prepared, Info, Completion, Error) into notifications on the element (`OnPrepare`,
`OnCompletion`, `OnError`), and it switches the host activity between portrait and immersive
landscape.

## Layout

- `platform.dfy`, module `Platform`: the .NET and Android pieces the renderer relies on.
  These are `string.IsNullOrWhiteSpace` with .NET's white-space table, C# `int` wrap-around,
  `Int32.ToString`, `MediaError.ToString`, `MediaInfo.BufferingStart` (701), and the
  activity's orientation and system-UI flags. `Android.Net.Uri.Parse` is an arbitrary
  function `string -> Result<Uri>`; a `Failure` is a thrown Java exception with its message.
- `backend.dfy`, module `Backend`: the native widgets as abstract state. The `VideoView`
  record holds its URI, what it was last told to do, its seek target, its focus, and the
  engine's readings (duration, position, `CanPause`). The module also holds the commands the
  renderer sends, the notifications it raises, and the log that records both in order.
- `renderer_model.dfy`, module `RendererModel`: the renderer's fields as a value (`State`)
  and one function per operation, giving the state the operation leaves behind. A null
  reference is `None`. An uncaught `NullReferenceException` is a `NullReferenceThrown` log
  entry, recorded after the writes that preceded it. This keeps every operation total.
- `renderer.dfy`, module `Droid`: the class `VideoPlayerRenderer`. Its fields match the
  renderer's, and its methods update them step by step as the C# does. Each method is proved
  to leave exactly the state that the matching `RendererModel` function gives. `Deliver` and
  `DeliverAll` route inputs to the methods. `PlaybackScenario` is a client of the class.
- `renderer_runs.dfy`, module `RendererRuns`: runs, meaning any sequence of calls and native
  callbacks (`Input`, `Step`, `Run`), and the properties that hold along every run.

The code keeps only the boolean `_prepared`, and so does the model. There are no Playing,
Paused or Stopped states, and Completion and Error leave `_prepared` alone. A Prepared
callback is not checked against the load it belongs to.
`RendererRuns.NoStaleSessionGuard` shows the consequence: a late Prepared callback readies the
renderer whatever load it belongs to.

Points of the code, each stated in the contracts:

- `SetScreen(true)` selects landscape with hidden, sticky-immersive chrome, and
  `SetScreen(false)` selects portrait with visible chrome. The parameter's name, `isPortrait`,
  says the opposite.
- `Seek(seconds)` computes `seconds * 1000` in C# `int`. It wraps around outside ±2147483 seconds;
  for example, 2147484 seconds gives a negative target and -2147484 a positive one.
- The Prepared callback reads `Element.AutoPlay` without a null check. With no element it
  throws after it has set `_prepared` and hidden the indicator, and sends neither `Start` nor
  `OnPrepare`.
- `OnElementChanged` builds the widgets and loads the source only when there was no previous
  element. Rebinding from one element to another loads nothing.

## Model

| member | source | states |
|---|---|---|
| `Platform.IsNullOrWhiteSpace` | Xamarians.MediaPlayer.Droid/VideoPlayerRenderer.cs:131-132 | the source guard holds exactly when the source is null or every character is .NET white space (so also for the empty string) |
| `Platform.Digits` | Xamarians.MediaPlayer.Droid/VideoPlayerRenderer.cs:226 | the decimal digits of a non-negative number, without leading zeros, spelling exactly that number |
| `Platform.MediaErrorText` | Xamarians.MediaPlayer.Droid/VideoPlayerRenderer.cs:226 | `e.What.ToString()` is the `MediaError` member's name, or the decimal code when no member has that value; it is never empty |
| `RendererModel.Initial` | Xamarians.MediaPlayer.Droid/VideoPlayerRenderer.cs:13-18 | a new renderer has no element and no widgets, keeps the given host activity, is not prepared and has logged nothing |
| `RendererModel.SetSource` | Xamarians.MediaPlayer.Droid/VideoPlayerRenderer.cs:127-143 | with no element it throws and changes nothing else; a blank source changes nothing; otherwise `_prepared` becomes false and the indicator visible. A source that fails to parse gives exactly one `OnError(message)` and no command. A parsed URI goes to the view (SetVideoUri, then RequestFocus), and a Java exception from either call gives exactly one `OnError` |
| `RendererModel.LoadParsed` | Xamarians.MediaPlayer.Droid/VideoPlayerRenderer.cs:135-141 | for each place a Java exception can interrupt loading: the exact log entries and the view's new state, with every other field unchanged |
| `RendererModel.ElementChanged` | Xamarians.MediaPlayer.Droid/VideoPlayerRenderer.cs:25-50 | a renderer that already had an element only takes the new one; binding null without a previous element throws in `SetNativeContext` and changes nothing else; the first element gets fresh, consistent widgets (indicator hidden, controller not shown), and then the result is exactly `SetSource` of that state |
| `RendererModel.PropertyChanged` | Xamarians.MediaPlayer.Droid/VideoPlayerRenderer.cs:53-59 | a change of the `Source` property is exactly `SetSource` of the renderer with the element's new values; any other property name, or a blank new source, leaves everything but the element's values unchanged; with no element bound, a `Source` change throws and any other change does nothing |
| `RendererModel.Duration` | Xamarians.MediaPlayer.Droid/VideoPlayerRenderer.cs:149-155 | 0 while not prepared, the view's duration once prepared |
| `RendererModel.CurrentPosition` | Xamarians.MediaPlayer.Droid/VideoPlayerRenderer.cs:157-163 | 0 while not prepared, the view's position once prepared |
| `RendererModel.IsNativeControlsVisible` | Xamarians.MediaPlayer.Droid/VideoPlayerRenderer.cs:165-173 | false when there is no media controller; otherwise whether the controller is shown |
| `RendererModel.Play` | Xamarians.MediaPlayer.Droid/VideoPlayerRenderer.cs:176-180 | not prepared: nothing changes; prepared: exactly one `Start` is sent and the view is started, nothing else changes |
| `RendererModel.Pause` | Xamarians.MediaPlayer.Droid/VideoPlayerRenderer.cs:182-187 | not prepared, or prepared but the view cannot pause: nothing changes; otherwise exactly one `Pause` is sent and the view is paused |
| `RendererModel.Stop` | Xamarians.MediaPlayer.Droid/VideoPlayerRenderer.cs:189-193 | not prepared: nothing changes; prepared: exactly one `StopPlayback` is sent and the view is stopped |
| `RendererModel.SeekMillis` | Xamarians.MediaPlayer.Droid/VideoPlayerRenderer.cs:198 | the target is `seconds * 1000` modulo 2^32 in C# `int`; it equals `seconds * 1000` for \|seconds\| <= 2147483 and is negative for 2147484 |
| `RendererModel.Seek` | Xamarians.MediaPlayer.Droid/VideoPlayerRenderer.cs:195-199 | not prepared: nothing changes; prepared: exactly one `SeekTo(SeekMillis(seconds))` is sent; the view's seek target is set and nothing else of the view (URI, playback state, focus, readings) changes |
| `RendererModel.Prepared` | Xamarians.MediaPlayer.Droid/VideoPlayerRenderer.cs:205-212 | hides the indicator and sets `_prepared`, then logs `Start` (only when AutoPlay holds), then `OnPrepare`, in that order: exactly one `OnPrepare`, with auto-play the view is started, without it no `Start` and the view unchanged; element, host activity and controller unchanged; with no element it throws after setting `_prepared` |
| `RendererModel.Info` | Xamarians.MediaPlayer.Droid/VideoPlayerRenderer.cs:214-217 | the indicator is visible exactly when `What` is BufferingStart; nothing else changes |
| `RendererModel.Completion` | Xamarians.MediaPlayer.Droid/VideoPlayerRenderer.cs:219-222 | exactly one `OnCompletion` when an element is bound, nothing without one; `_prepared` unchanged |
| `RendererModel.Error` | Xamarians.MediaPlayer.Droid/VideoPlayerRenderer.cs:224-227 | exactly one `OnError` carrying the non-empty `What.ToString()` when an element is bound, nothing without one; `_prepared` unchanged |
| `RendererModel.FullScreen` | Xamarians.MediaPlayer.Droid/VideoPlayerRenderer.cs:106-117 | landscape with LayoutStable, LayoutFullscreen, Fullscreen and ImmersiveSticky; throws without a host activity |
| `RendererModel.ExitFullScreen` | Xamarians.MediaPlayer.Droid/VideoPlayerRenderer.cs:119-124 | portrait with visible system UI; throws without a host activity |
| `RendererModel.SetScreen` | Xamarians.MediaPlayer.Droid/VideoPlayerRenderer.cs:94-104 | no host activity: nothing changes; `true` gives landscape and immersive chrome, `false` gives portrait and visible chrome |
| `RendererModel.HidePlayerController` | Xamarians.MediaPlayer.Droid/VideoPlayerRenderer.cs:229-235 | without a controller nothing changes; with one, one `HideController` is sent and the controls are no longer visible, whatever `isHide` says |
| `Droid.VideoPlayerRenderer.constructor` | Xamarians.MediaPlayer.Droid/VideoPlayerRenderer.cs:13-23 | a new renderer is in the initial state, with the registered host activity |
| `Droid.VideoPlayerRenderer.OnElementChanged` | Xamarians.MediaPlayer.Droid/VideoPlayerRenderer.cs:25-50 | the fields end as `RendererModel.ElementChanged` gives, and the widgets stay consistent |
| `Droid.VideoPlayerRenderer.OnElementPropertyChanged` | Xamarians.MediaPlayer.Droid/VideoPlayerRenderer.cs:53-59 | the fields end as `RendererModel.PropertyChanged` gives |
| `Droid.VideoPlayerRenderer.SetSource` | Xamarians.MediaPlayer.Droid/VideoPlayerRenderer.cs:127-143 | the try/catch body ends as `RendererModel.SetSource` gives |
| `Droid.VideoPlayerRenderer.Duration` | Xamarians.MediaPlayer.Droid/VideoPlayerRenderer.cs:149-155 | agrees with `RendererModel.Duration` |
| `Droid.VideoPlayerRenderer.CurrentPosition` | Xamarians.MediaPlayer.Droid/VideoPlayerRenderer.cs:157-163 | agrees with `RendererModel.CurrentPosition` |
| `Droid.VideoPlayerRenderer.IsNativeControlsVisible` | Xamarians.MediaPlayer.Droid/VideoPlayerRenderer.cs:165-173 | agrees with `RendererModel.IsNativeControlsVisible` |
| `Droid.VideoPlayerRenderer.Play` | Xamarians.MediaPlayer.Droid/VideoPlayerRenderer.cs:176-180 | ends as `RendererModel.Play` gives; not prepared, no field changes |
| `Droid.VideoPlayerRenderer.Pause` | Xamarians.MediaPlayer.Droid/VideoPlayerRenderer.cs:182-187 | ends as `RendererModel.Pause` gives; not prepared, no field changes |
| `Droid.VideoPlayerRenderer.Stop` | Xamarians.MediaPlayer.Droid/VideoPlayerRenderer.cs:189-193 | ends as `RendererModel.Stop` gives; not prepared, no field changes |
| `Droid.VideoPlayerRenderer.Seek` | Xamarians.MediaPlayer.Droid/VideoPlayerRenderer.cs:195-199 | ends as `RendererModel.Seek` gives; not prepared, no field changes |
| `Droid.VideoPlayerRenderer.VideoViewPrepared` | Xamarians.MediaPlayer.Droid/VideoPlayerRenderer.cs:205-212 | ends as `RendererModel.Prepared` gives, calling `Play` for auto-play |
| `Droid.VideoPlayerRenderer.VideoViewInfo` | Xamarians.MediaPlayer.Droid/VideoPlayerRenderer.cs:214-217 | ends as `RendererModel.Info` gives |
| `Droid.VideoPlayerRenderer.VideoViewCompletion` | Xamarians.MediaPlayer.Droid/VideoPlayerRenderer.cs:219-222 | ends as `RendererModel.Completion` gives |
| `Droid.VideoPlayerRenderer.VideoViewError` | Xamarians.MediaPlayer.Droid/VideoPlayerRenderer.cs:224-227 | ends as `RendererModel.Error` gives |
| `Droid.VideoPlayerRenderer.SetScreen` | Xamarians.MediaPlayer.Droid/VideoPlayerRenderer.cs:94-104 | ends as `RendererModel.SetScreen` gives; without a host activity no field changes |
| `Droid.VideoPlayerRenderer.FullScreen` | Xamarians.MediaPlayer.Droid/VideoPlayerRenderer.cs:106-117 | ends as `RendererModel.FullScreen` gives |
| `Droid.VideoPlayerRenderer.ExitFullScreen` | Xamarians.MediaPlayer.Droid/VideoPlayerRenderer.cs:119-124 | ends as `RendererModel.ExitFullScreen` gives |
| `Droid.VideoPlayerRenderer.HidePlayerController` | Xamarians.MediaPlayer.Droid/VideoPlayerRenderer.cs:229-235 | ends as `RendererModel.HidePlayerController` gives |
| `Droid.PlaybackScenario` | Xamarians.MediaPlayer.Droid/VideoPlayerRenderer.cs:176-222 | driving the class: bind "file://a.mp4", Prepared, the engine reporting its duration and that it can pause (a `BackendReports` input, not renderer code), Play, Pause, Play, Completion. The element sees exactly `[OnPrepare, OnCompletion]`, and the view gets the load, the focus and Start, Pause, Start |
| `RendererRuns.StepLogGrows` | Xamarians.MediaPlayer.Droid/VideoPlayerRenderer.cs:25-235 | no operation removes or rewrites anything already sent or raised |
| `RendererRuns.StepKeepsWellformed` | Xamarians.MediaPlayer.Droid/VideoPlayerRenderer.cs:63-92 | from consistent widgets, every input leaves the three widgets built together and `_prepared` implying a video view |
| `RendererRuns.StepInvariants` | Xamarians.MediaPlayer.Droid/VideoPlayerRenderer.cs:63-92 | every input only appends to the log and keeps the three widgets built together, with `_prepared` implying a video view |
| `RendererRuns.RunInvariants` | Xamarians.MediaPlayer.Droid/VideoPlayerRenderer.cs:63-92 | the same along every run |
| `RendererRuns.StepReadiness` | Xamarians.MediaPlayer.Droid/VideoPlayerRenderer.cs:205-212 | only the Prepared callback sets `_prepared`, and only reloading a source (binding, or a `Source` change) clears it |
| `RendererRuns.SetSourceGated` | Xamarians.MediaPlayer.Droid/VideoPlayerRenderer.cs:127-143 | loading a source sends no playback command |
| `RendererRuns.StepGated` | Xamarians.MediaPlayer.Droid/VideoPlayerRenderer.cs:176-199 | any input other than Prepared, taken while not prepared, sends no playback command |
| `RendererRuns.GatedRun` | Xamarians.MediaPlayer.Droid/VideoPlayerRenderer.cs:176-199 | along a run without Prepared, starting unprepared, no playback command is sent and the renderer stays unprepared |
| `RendererRuns.GatedUntilPrepared` | Xamarians.MediaPlayer.Droid/VideoPlayerRenderer.cs:149-199 | until the view reports Prepared, no Start, Pause, StopPlayback or SeekTo reaches the view, and `Duration` and `CurrentPosition` stay 0 |
| `RendererRuns.ScenarioBinding` | Xamarians.MediaPlayer.Droid/VideoPlayerRenderer.cs:25-50 | binding an element with source "file://a.mp4" sends exactly SetVideoUri and RequestFocus and raises nothing |
| `RendererRuns.ScenarioControlsEffect` | Xamarians.MediaPlayer.Droid/VideoPlayerRenderer.cs:176-222 | from any loaded renderer without auto-play: Prepared, the engine reporting its duration and that it can pause (a `BackendReports` input, not renderer code), Play, Pause, Play, Completion add exactly OnPrepare, OnCompletion and Start, Pause, Start; the view ends started and `Duration` reports the engine's value |
| `RendererRuns.PlaybackScenario` | Xamarians.MediaPlayer.Droid/VideoPlayerRenderer.cs:176-222 | the whole scenario (binding, then the inputs of `ScenarioControlsEffect`, engine report included) from a new renderer: notifications `[OnPrepare, OnCompletion]`, commands `[SetVideoUri, RequestFocus, Start, Pause, Start]` |
| `RendererRuns.NoStaleSessionGuard` | Xamarians.MediaPlayer.Droid/VideoPlayerRenderer.cs:205-212 | after two source changes, a late Prepared readies the renderer whichever load it belongs to |
| `RendererRuns.SetScreenLastWins` | Xamarians.MediaPlayer.Droid/VideoPlayerRenderer.cs:94-124 | two `SetScreen` calls leave what the second alone leaves |
| `RendererRuns.RunSnoc` | Xamarians.MediaPlayer.Droid/VideoPlayerRenderer.cs:11-241 | running one more input is one more step after the run (lets the class be checked against runs) |

## Left out

- Widget construction and layout in `OnElementChanged`, `InitVideoView`, `InitMediaController` and `InitProgressBar` (layout parameters, padding, colours, keep-screen-on, anchoring). These are UI plumbing. The model keeps only what they leave behind: a new view (`NEW_VIDEO_VIEW`), a hidden indicator and a controller that is not shown.
- The event subscriptions in `InitVideoView`. The callbacks are modelled as inputs that can arrive at any time. Before the widgets exist they would not arrive, and the model then only records the `NullReferenceException` a missing widget would cause.
- `Element.SetNativeContext(this)`: the model keeps only its null reference when the new element is null.
- `Init(Activity)` and the static `_context`: the host activity is given to the constructor. Sharing it between renderers through a static field is not modelled.
- `FullScreen` and `ExitFullScreen` set the orientation on `_context` but write the chrome to the window of the renderer's own `Context`. The model takes both to be the same activity. A `Context` that is not an activity (a null reference there) is not modelled.
- The real behaviour of `VideoView` and `MediaController` (decoding, buffering, `IsShown`). The view's readings and the controller's `IsShown` change only through the engine's own input (`BackendReports`), which is not renderer code, except that `HidePlayerController`'s `Hide()` leaves the controller not shown.
- What a native call that throws leaves in the view. The model logs the call and leaves the view record as it was.
- `Android.Net.Uri.Parse` semantics: any parser is allowed. A null exception message is not modelled, and neither are exceptions from `SetSource` other than Java exceptions and the null reference.
- `VideoPlayer.cs` is not part of this model. The `Source` property's name is taken to be `"Source"`, and the element is reduced to its `Source` and `AutoPlay` values.
- The names of Android's `MediaError` members in `Platform.MediaErrorName` come from the Android bindings, not from this repository.
- The system-UI flags are a set of the four flags `FullScreen` combines; `SystemUiFlags.Visible` (value 0) is the empty set. Their bit values and the cast to `StatusBarVisibility` are not modelled.
- The unused `fullScreenBtn` field, `Debug.WriteLine`, and the `ExportRenderer` attribute.
- Threading and marshalling of native callbacks: the model is sequential.
- `VideoPlayerDemo/VideoPlayerDemo/App.xaml.cs`: an application shell with no renderer logic.
