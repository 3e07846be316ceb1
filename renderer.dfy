/** The Android renderer of the portable `VideoPlayer` element, as a class
    whose methods update its fields the way the renderer's do. Each method is
    proved to leave the state the matching function of RendererModel gives. */
module Droid {
  import opened Platform
  import opened Backend
  import M = RendererModel
  import R = RendererRuns

  class VideoPlayerRenderer {
    /** `Element`: the bound element's configuration, `None` while unbound. */
    var element: Option<M.Element>
    /** `_videoView`, `progressBar` (its `Visibility`) and `mediaController`. */
    var videoView: Option<VideoView>
    var progressBar: Option<ViewStates>
    var mediaController: Option<MediaController>
    /** `_prepared`: the view has reported that it is ready. */
    var prepared: bool
    /** `_context`: the host activity registered through `Init`. */
    var context: Option<Activity>
    /** Every command sent to the widgets, notification raised on the
        element, and exception that escaped, in order. Ghost: the renderer
        keeps no such record; it is what an observer of its calls sees. */
    ghost var log: seq<Event>
    /** `Android.Net.Uri.Parse`. */
    const parseUri: UriParser

    ghost function Snapshot(): M.State
      reads this
    {
      M.State(element, videoView, progressBar, mediaController, prepared, context, log)
    }

    ghost predicate Valid()
      reads this
    {
      M.Wellformed(Snapshot())
    }

    constructor (parse: UriParser, host: Option<Activity>)
      ensures Valid() && parseUri == parse
      ensures Snapshot() == M.Initial(host)
    {
      element, videoView, progressBar, mediaController := None, None, None, None;
      prepared := false;
      context := host;
      log := [];
      parseUri := parse;
    }

    /** `OnElementChanged`: only the first element builds the widgets and loads its source. */
    method OnElementChanged(newElement: Option<M.Element>, fault: M.ViewFault)
      requires Valid()
      modifies this
      ensures Valid()
      ensures Snapshot() == M.ElementChanged(parseUri, old(Snapshot()), newElement, fault)
    {
      var oldElement := element;
      element := newElement;
      if oldElement.Some? {
        return;
      }
      if element.None? {
        // Element.SetNativeContext(this)
        log := log + [NullReferenceThrown];
        return;
      }
      videoView := Some(NEW_VIDEO_VIEW);
      mediaController := Some(MediaController(false));
      progressBar := Some(Invisible);
      SetSource(fault);
    }

    /** `OnElementPropertyChanged`, where `sender` is the bound element with its new values. */
    method OnElementPropertyChanged(name: string, sender: M.Element, fault: M.ViewFault)
      requires Valid()
      modifies this
      ensures Valid()
      ensures Snapshot() == M.PropertyChanged(parseUri, old(Snapshot()), name, sender, fault)
    {
      if element.Some? {
        element := Some(sender);
      }
      if name == M.SOURCE_PROPERTY {
        SetSource(fault);
      }
    }

    /** `SetSource`. A Java exception thrown while loading is caught and
        reported as one `OnError`. */
    method SetSource(fault: M.ViewFault)
      requires Valid()
      modifies this
      ensures Valid()
      ensures Snapshot() == M.SetSource(parseUri, old(Snapshot()), fault)
    {
      if element.None? {
        log := log + [NullReferenceThrown];
        return;
      }
      if IsNullOrWhiteSpace(element.value.source) {
        return;
      }
      prepared := false;
      if progressBar.None? {
        log := log + [NullReferenceThrown];
        return;
      }
      progressBar := Some(Visible);
      var thrown: Option<string> := None;
      match parseUri(element.value.source.value) {
        case Failure(msg) =>
          thrown := Some(msg);
        case Success(u) =>
          log := log + [Sent(SetVideoUri(u))];
          if fault.SetVideoUriThrows? {
            thrown := Some(fault.message);
          } else {
            videoView := Some(ApplyToView(videoView.value, SetVideoUri(u)));
            log := log + [Sent(RequestFocus)];
            if fault.RequestFocusThrows? {
              thrown := Some(fault.message);
            } else {
              videoView := Some(ApplyToView(videoView.value, RequestFocus));
            }
          }
      }
      if thrown.Some? {
        log := log + [Raised(OnError(thrown.value))];
      }
    }

    function Duration(): (d: Int32)
      requires Valid()
      reads this
      ensures d == M.Duration(Snapshot())
    {
      if prepared then videoView.value.duration else 0
    }

    function CurrentPosition(): (p: Int32)
      requires Valid()
      reads this
      ensures p == M.CurrentPosition(Snapshot())
    {
      if prepared then videoView.value.position else 0
    }

    function IsNativeControlsVisible(): (r: bool)
      reads this
      ensures r == M.IsNativeControlsVisible(Snapshot())
    {
      if mediaController.None? then false else mediaController.value.isShown
    }

    method Play()
      requires Valid()
      modifies this
      ensures Valid()
      ensures Snapshot() == M.Play(old(Snapshot()))
      ensures !old(prepared) ==> unchanged(this)
    {
      if !prepared {
        return;
      }
      videoView := Some(ApplyToView(videoView.value, Start));
      log := log + [Sent(Start)];
    }

    method Pause()
      requires Valid()
      modifies this
      ensures Valid()
      ensures Snapshot() == M.Pause(old(Snapshot()))
      ensures !old(prepared) ==> unchanged(this)
    {
      if !prepared {
        return;
      }
      if videoView.value.canPause {
        videoView := Some(ApplyToView(videoView.value, Command.Pause));
        log := log + [Sent(Command.Pause)];
      }
    }

    method Stop()
      requires Valid()
      modifies this
      ensures Valid()
      ensures Snapshot() == M.Stop(old(Snapshot()))
      ensures !old(prepared) ==> unchanged(this)
    {
      if !prepared {
        return;
      }
      videoView := Some(ApplyToView(videoView.value, StopPlayback));
      log := log + [Sent(StopPlayback)];
    }

    method Seek(seconds: Int32)
      requires Valid()
      modifies this
      ensures Valid()
      ensures Snapshot() == M.Seek(old(Snapshot()), seconds)
      ensures !old(prepared) ==> unchanged(this)
    {
      if !prepared {
        return;
      }
      var msec := Wrap32(seconds * 1000);
      videoView := Some(ApplyToView(videoView.value, SeekTo(msec)));
      log := log + [Sent(SeekTo(msec))];
    }

    /** `_videoView_Prepared`. */
    method VideoViewPrepared()
      requires Valid()
      modifies this
      ensures Valid()
      ensures Snapshot() == M.Prepared(old(Snapshot()))
    {
      if progressBar.None? {
        log := log + [NullReferenceThrown];
        return;
      }
      progressBar := Some(Invisible);
      prepared := true;
      if element.None? {
        // Element.AutoPlay
        log := log + [NullReferenceThrown];
        return;
      }
      if element.value.autoPlay {
        Play();
      }
      log := log + [Raised(OnPrepare)];
    }

    /** `_videoView_Info`. */
    method VideoViewInfo(what: Int32)
      requires Valid()
      modifies this
      ensures Valid()
      ensures Snapshot() == M.Info(old(Snapshot()), what)
    {
      if progressBar.None? {
        log := log + [NullReferenceThrown];
        return;
      }
      progressBar := Some(if what == BUFFERING_START then Visible else Invisible);
    }

    /** `_videoView_Completion`. */
    method VideoViewCompletion()
      requires Valid()
      modifies this
      ensures Valid()
      ensures Snapshot() == M.Completion(old(Snapshot()))
    {
      if element.Some? {
        log := log + [Raised(OnCompletion)];
      }
    }

    /** `_videoView_Error`. */
    method VideoViewError(what: Int32)
      requires Valid()
      modifies this
      ensures Valid()
      ensures Snapshot() == M.Error(old(Snapshot()), what)
    {
      if element.Some? {
        log := log + [Raised(OnError(MediaErrorText(what)))];
      }
    }

    method SetScreen(isPortrait: bool)
      requires Valid()
      modifies this
      ensures Valid()
      ensures Snapshot() == M.SetScreen(old(Snapshot()), isPortrait)
      ensures old(context).None? ==> unchanged(this)
    {
      if context.None? {
        return;
      }
      if isPortrait {
        FullScreen();
      } else {
        ExitFullScreen();
      }
    }

    method FullScreen()
      requires Valid()
      modifies this
      ensures Valid()
      ensures Snapshot() == M.FullScreen(old(Snapshot()))
    {
      if context.None? {
        log := log + [NullReferenceThrown];
        return;
      }
      context := Some(Activity(Landscape, M.IMMERSIVE));
    }

    method ExitFullScreen()
      requires Valid()
      modifies this
      ensures Valid()
      ensures Snapshot() == M.ExitFullScreen(old(Snapshot()))
    {
      if context.None? {
        log := log + [NullReferenceThrown];
        return;
      }
      context := Some(Activity(Portrait, {}));
    }

    method HidePlayerController(isHide: bool)
      requires Valid()
      modifies this
      ensures Valid()
      ensures Snapshot() == M.HidePlayerController(old(Snapshot()), isHide)
    {
      if mediaController.Some? {
        mediaController := Some(MediaController(false));
        log := log + [Sent(HideController)];
      }
    }
  
    /** Not renderer code: the native engine's own progress changes what the
        view and the controller report. */
    method BackendReports(duration: Int32, position: Int32, canPause: bool, isShown: bool)
      requires Valid()
      modifies this
      ensures Valid()
      ensures Snapshot() == M.BackendReports(old(Snapshot()), duration, position, canPause, isShown)
    {
      if videoView.Some? {
        videoView := Some(videoView.value.(duration := duration, position := position, canPause := canPause));
        if mediaController.Some? {
          mediaController := Some(MediaController(isShown));
        }
      }
    }
  }

  /** Delivers one input to a renderer by calling the matching method: the
      class follows the model on every input. */
  method Deliver(r: VideoPlayerRenderer, i: R.Input)
    requires r.Valid()
    modifies r
    ensures r.Valid()
    ensures r.Snapshot() == R.Step(r.parseUri, old(r.Snapshot()), i)
  {
    match i
    case ElementChanged(e, f) => r.OnElementChanged(e, f);
    case PropertyChanged(n, e, f) => r.OnElementPropertyChanged(n, e, f);
    case Play => r.Play();
    case Pause => r.Pause();
    case Stop => r.Stop();
    case Seek(sec) => r.Seek(sec);
    case Prepared => r.VideoViewPrepared();
    case Info(w) => r.VideoViewInfo(w);
    case Completion => r.VideoViewCompletion();
    case Error(w) => r.VideoViewError(w);
    case SetScreen(p) => r.SetScreen(p);
    case FullScreen => r.FullScreen();
    case ExitFullScreen => r.ExitFullScreen();
    case HidePlayerController(h) => r.HidePlayerController(h);
    case BackendReports(d, p, c, v) => r.BackendReports(d, p, c, v);
  }

  /** Delivers a sequence of inputs in order: the renderer ends in the state
      the model's run gives. */
  method DeliverAll(r: VideoPlayerRenderer, inputs: seq<R.Input>)
    requires r.Valid()
    modifies r
    ensures r.Valid()
    ensures r.Snapshot() == R.Run(r.parseUri, old(r.Snapshot()), inputs)
  {
    ghost var s0 := r.Snapshot();
    var k := 0;
    while k < |inputs|
      invariant 0 <= k <= |inputs|
      invariant r.Valid()
      invariant r.Snapshot() == R.Run(r.parseUri, s0, inputs[..k])
    {
      R.RunSnoc(r.parseUri, s0, inputs[..k], inputs[k]);
      assert inputs[..k + 1] == inputs[..k] + [inputs[k]];
      Deliver(r, inputs[k]);
      k := k + 1;
    }
    assert inputs[..k] == inputs;
  }

  /** A client of the class: bind an element whose source is "file://a.mp4",
      let the view report Prepared and that it can pause, Play, Pause, Play,
      and let it report Completion. What the element saw and what the view
      was told follow from the methods' contracts alone. */
  method PlaybackScenario(parse: UriParser, duration: Int32) returns (ghost notes: seq<Notification>, ghost commands: seq<Command>)
    requires parse(R.SCENARIO_ELEMENT.source.value).Success?
    ensures notes == [OnPrepare, OnCompletion]
    ensures commands == [SetVideoUri(parse(R.SCENARIO_ELEMENT.source.value).value), RequestFocus, Start, Command.Pause, Start]
  {
    var r := new VideoPlayerRenderer(parse, None);
    DeliverAll(r, [R.ElementChanged(Some(R.SCENARIO_ELEMENT), M.NoFault)] + R.ScenarioControls(duration));
    R.PlaybackScenario(parse, None, duration);
    notes := Notifications(r.log);
    commands := Commands(r.log);
  }
}
