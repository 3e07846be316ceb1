/** The Android `VideoPlayerRenderer` as a value: its state, and one function
    per operation giving the state an operation leaves behind. The class in
    module Droid is proved to follow these functions step by step. */
module RendererModel {
  import opened Platform
  import opened Backend

  /** The bound `VideoPlayer` element's configuration, as the renderer reads it. */
  datatype Element = Element(source: Option<string>, autoPlay: bool)

  /** `VideoPlayer.SourceProperty.PropertyName`. */
  const SOURCE_PROPERTY: string := "Source"

  /** Where a Java exception interrupts loading a parsed URI into the view. */
  datatype ViewFault = NoFault | SetVideoUriThrows(message: string) | RequestFocusThrows(message: string)

  /** The renderer's fields. `None` stands for a null reference: `element` is
      the renderer's `Element`, `context` the activity registered through
      `Init`, and the three widgets exist once `OnElementChanged` has built them. */
  datatype State = State(
    element: Option<Element>,
    videoView: Option<VideoView>,
    progressBar: Option<ViewStates>,
    mediaController: Option<MediaController>,
    prepared: bool,
    context: Option<Activity>,
    log: seq<Event>)

  /** A freshly constructed renderer. */
  function Initial(context: Option<Activity>): (s: State)
    ensures Wellformed(s) && !s.prepared && s.log == []
    ensures s.element.None? && s.videoView.None? && s.progressBar.None? && s.mediaController.None?
    ensures s.context == context
  {
    State(None, None, None, None, false, context, [])
  }

  /** The widgets are built together, and readiness needs a video view. */
  predicate Wellformed(s: State) {
    && (s.videoView.Some? <==> s.progressBar.Some?)
    && (s.videoView.Some? <==> s.mediaController.Some?)
    && (s.prepared ==> s.videoView.Some?)
  }

  /** The system-UI flags `FullScreen` writes. */
  const IMMERSIVE: set<SystemUiFlag> := {LayoutStable, LayoutFullscreen, Fullscreen, ImmersiveSticky}

  /** Appends one entry to the log. */
  function Emit(s: State, e: Event): (t: State)
    ensures t == s.(log := s.log + [e])
    ensures Commands(t.log) == Commands(s.log) + CommandsOf(e)
    ensures Notifications(t.log) == Notifications(s.log) + NotificationsOf(e)
  {
    LogAppendOne(s.log, e);
    s.(log := s.log + [e])
  }

  /** Sends a command to the video view, which carries it out. */
  function Issue(s: State, c: Command): (t: State)
    requires s.videoView.Some?
    ensures t.log == s.log + [Sent(c)]
    ensures Commands(t.log) == Commands(s.log) + [c]
    ensures Notifications(t.log) == Notifications(s.log)
    ensures t == s.(videoView := Some(ApplyToView(s.videoView.value, c)), log := t.log)
  {
    Emit(s, Sent(c)).(videoView := Some(ApplyToView(s.videoView.value, c)))
  }

  /** The element is bound and its source is not null, empty or white space. */
  predicate Loads(s: State) {
    s.element.Some? && !IsNullOrWhiteSpace(s.element.value.source)
  }

  /** `SetSource`: reload the element's source into the video view. */
  function SetSource(parse: UriParser, s: State, fault: ViewFault): (t: State)
    // with no element, reading its source throws before anything changes
    ensures s.element.None? ==> t == Emit(s, NullReferenceThrown)
    // a null, empty or white-space source changes nothing
    ensures s.element.Some? && !Loads(s) ==> t == s
    // otherwise readiness is reset and the busy indicator shown before loading
    ensures Loads(s) ==> !t.prepared && t.element == s.element && t.context == s.context
    ensures Loads(s) ==> t.mediaController == s.mediaController && s.log <= t.log
    ensures Loads(s) && Wellformed(s) ==> Wellformed(t)
    ensures Loads(s) && s.progressBar.Some? ==> t.progressBar == Some(Visible)
    // a source that does not parse: one error notification and no command
    ensures Loads(s) && s.progressBar.Some? && parse(s.element.value.source.value).Failure? ==>
      && t.videoView == s.videoView
      && t.log == s.log + [Raised(OnError(parse(s.element.value.source.value).message))]
    // a parsed source is handed to the view, then the view is focused
    ensures Loads(s) && Wellformed(s) && s.progressBar.Some? && parse(s.element.value.source.value).Success? ==>
      var u := parse(s.element.value.source.value).value;
      && t.videoView.Some?
      && (fault.NoFault? ==>
            && t.log == s.log + [Sent(SetVideoUri(u)), Sent(RequestFocus)]
            && t.videoView.value == ApplyToView(ApplyToView(s.videoView.value, SetVideoUri(u)), RequestFocus))
      && (fault.SetVideoUriThrows? ==>
            && t.log == s.log + [Sent(SetVideoUri(u)), Raised(OnError(fault.message))]
            && t.videoView == s.videoView)
      && (fault.RequestFocusThrows? ==>
            && t.log == s.log + [Sent(SetVideoUri(u)), Sent(RequestFocus), Raised(OnError(fault.message))]
            && t.videoView.value == ApplyToView(s.videoView.value, SetVideoUri(u)))
  {
    if s.element.None? then Emit(s, NullReferenceThrown)
    else if IsNullOrWhiteSpace(s.element.value.source) then s
    else
      var s1 := s.(prepared := false);
      if s1.progressBar.None? then Emit(s1, NullReferenceThrown)
      else
        var s2 := s1.(progressBar := Some(Visible));
        match parse(s.element.value.source.value)
        case Failure(msg) => Emit(s2, Raised(OnError(msg)))
        case Success(u) =>
          if s2.videoView.None? then Emit(s2, NullReferenceThrown)
          else LoadParsed(s2, u, fault)
  }

  /** The part of `SetSource` after parsing: the URI is handed to the view and
      the view is focused; a Java exception from either call becomes one error
      notification. */
  function LoadParsed(s: State, u: Uri, fault: ViewFault): (t: State)
    requires s.videoView.Some?
    ensures t == s.(videoView := t.videoView, log := t.log) && t.videoView.Some?
    ensures fault.NoFault? ==>
      && t.log == s.log + [Sent(SetVideoUri(u)), Sent(RequestFocus)]
      && t.videoView.value == ApplyToView(ApplyToView(s.videoView.value, SetVideoUri(u)), RequestFocus)
    ensures fault.SetVideoUriThrows? ==>
      && t.log == s.log + [Sent(SetVideoUri(u)), Raised(OnError(fault.message))]
      && t.videoView == s.videoView
    ensures fault.RequestFocusThrows? ==>
      && t.log == s.log + [Sent(SetVideoUri(u)), Sent(RequestFocus), Raised(OnError(fault.message))]
      && t.videoView.value == ApplyToView(s.videoView.value, SetVideoUri(u))
  {
    var loaded := ApplyToView(s.videoView.value, SetVideoUri(u));
    match fault
    case SetVideoUriThrows(msg) =>
      s.(log := s.log + [Sent(SetVideoUri(u)), Raised(OnError(msg))])
    case RequestFocusThrows(msg) =>
      s.(videoView := Some(loaded), log := s.log + [Sent(SetVideoUri(u)), Sent(RequestFocus), Raised(OnError(msg))])
    case NoFault =>
      s.(videoView := Some(ApplyToView(loaded, RequestFocus)), log := s.log + [Sent(SetVideoUri(u)), Sent(RequestFocus)])
  }

  /** `OnElementChanged`: the renderer is bound to a new element. Only the
      first binding builds the widgets and loads the source. */
  function ElementChanged(parse: UriParser, s: State, newElement: Option<Element>, fault: ViewFault): (t: State)
    // a renderer that already had an element only takes the new one
    ensures s.element.Some? ==> t == s.(element := newElement)
    // binding null throws in Element.SetNativeContext, before any widget is built
    ensures s.element.None? && newElement.None? ==> t == Emit(s, NullReferenceThrown)
    // the first element gets new widgets, then its source is loaded
    ensures s.element.None? && newElement.Some? ==>
      t == SetSource(parse, s.(element := newElement, videoView := Some(NEW_VIDEO_VIEW),
                               mediaController := Some(MediaController(false)),
                               progressBar := Some(Invisible)), fault)
    ensures s.element.None? && newElement.Some? ==>
      && Wellformed(t)
      && t.element == newElement && t.context == s.context
      && t.mediaController == Some(MediaController(false))
      && s.log <= t.log
      && (Loads(t) ==> !t.prepared && t.progressBar == Some(Visible))
      && (!Loads(t) ==> t.progressBar == Some(Invisible) && t.videoView == Some(NEW_VIDEO_VIEW) && t.log == s.log)
  {
    var s0 := s.(element := newElement);
    if s.element.Some? then s0
    else if newElement.None? then Emit(s0, NullReferenceThrown)
    else
      var built := s0.(videoView := Some(NEW_VIDEO_VIEW),
                       mediaController := Some(MediaController(false)),
                       progressBar := Some(Invisible));
      SetSource(parse, built, fault)
  }

  /** `OnElementPropertyChanged`: `sender` is the bound element with its new
      values. With no element bound there are no values to update, and a
      `Source` change throws in `SetSource`. */
  function PropertyChanged(parse: UriParser, s: State, name: string, sender: Element, fault: ViewFault): (t: State)
    ensures s.element.None? && name == SOURCE_PROPERTY ==> t == Emit(s, NullReferenceThrown)
    ensures s.element.None? && name != SOURCE_PROPERTY ==> t == s
    // only a change of `Source` reloads; any other property leaves the renderer alone
    ensures s.element.Some? && name != SOURCE_PROPERTY ==> t == s.(element := Some(sender))
    ensures s.element.Some? && name == SOURCE_PROPERTY ==> t == SetSource(parse, s.(element := Some(sender)), fault)
    ensures s.element.Some? && name == SOURCE_PROPERTY && IsNullOrWhiteSpace(sender.source) ==>
      t == s.(element := Some(sender))
    ensures s.element.Some? && name == SOURCE_PROPERTY && !IsNullOrWhiteSpace(sender.source) ==>
      !t.prepared && t.element == Some(sender) && s.log <= t.log && (Wellformed(s) ==> Wellformed(t))
  {
    if s.element.None? then
      if name == SOURCE_PROPERTY then SetSource(parse, s, fault) else s
    else
      var s0 := s.(element := Some(sender));
      if name == SOURCE_PROPERTY then SetSource(parse, s0, fault) else s0
  }

  /** `Duration`: zero until the view is prepared. */
  function Duration(s: State): (d: Int32)
    requires Wellformed(s)
    ensures !s.prepared ==> d == 0
    ensures s.prepared ==> d == s.videoView.value.duration
  {
    if s.prepared then s.videoView.value.duration else 0
  }

  /** `CurrentPosition`: zero until the view is prepared. */
  function CurrentPosition(s: State): (p: Int32)
    requires Wellformed(s)
    ensures !s.prepared ==> p == 0
    ensures s.prepared ==> p == s.videoView.value.position
  {
    if s.prepared then s.videoView.value.position else 0
  }

  /** `IsNativeControlsVisible`: false without a media controller. */
  function IsNativeControlsVisible(s: State): (r: bool)
    ensures s.mediaController.None? ==> !r
    ensures s.mediaController.Some? ==> r == s.mediaController.value.isShown
  {
    match s.mediaController
    case None => false
    case Some(mc) => mc.isShown
  }

  /** `Play`: starts the view, only once prepared. */
  function Play(s: State): (t: State)
    ensures !s.prepared ==> t == s
    ensures s.prepared && Wellformed(s) ==>
      && t.log == s.log + [Sent(Start)]
      && t.videoView == Some(ApplyToView(s.videoView.value, Start))
      && t == s.(videoView := t.videoView, log := t.log)
  {
    if !s.prepared then s
    else if s.videoView.None? then Emit(s, NullReferenceThrown)
    else Issue(s, Start)
  }

  /** `Pause`: pauses the view, only once prepared and only if it can pause. */
  function Pause(s: State): (t: State)
    ensures !s.prepared ==> t == s
    ensures s.prepared && Wellformed(s) && !s.videoView.value.canPause ==> t == s
    ensures s.prepared && Wellformed(s) && s.videoView.value.canPause ==>
      && t.log == s.log + [Sent(Command.Pause)]
      && t.videoView == Some(ApplyToView(s.videoView.value, Command.Pause))
      && t == s.(videoView := t.videoView, log := t.log)
  {
    if !s.prepared then s
    else if s.videoView.None? then Emit(s, NullReferenceThrown)
    else if s.videoView.value.canPause then Issue(s, Command.Pause)
    else s
  }

  /** `Stop`: stops playback, only once prepared. */
  function Stop(s: State): (t: State)
    ensures !s.prepared ==> t == s
    ensures s.prepared && Wellformed(s) ==>
      && t.log == s.log + [Sent(StopPlayback)]
      && t.videoView == Some(ApplyToView(s.videoView.value, StopPlayback))
      && t == s.(videoView := t.videoView, log := t.log)
  {
    if !s.prepared then s
    else if s.videoView.None? then Emit(s, NullReferenceThrown)
    else Issue(s, StopPlayback)
  }

  /** The millisecond target of `Seek(seconds)`: `seconds * 1000` in C# `int`
      arithmetic, which wraps around. */
  function SeekMillis(seconds: Int32): (ms: Int32)
    ensures (seconds * 1000 - ms) % 0x1_0000_0000 == 0
    ensures -2147483 <= seconds <= 2147483 ==> ms == seconds * 1000
    ensures seconds == 2147484 ==> ms < 0
  {
    Wrap32(seconds * 1000)
  }

  /** `Seek`: one seek command, in milliseconds, only once prepared. */
  function Seek(s: State, seconds: Int32): (t: State)
    ensures !s.prepared ==> t == s
    ensures s.prepared && Wellformed(s) ==>
      && t.log == s.log + [Sent(SeekTo(SeekMillis(seconds)))]
      && t.videoView.Some? && t.videoView.value.seekTarget == Some(SeekMillis(seconds))
      && t.videoView.value.playback == s.videoView.value.playback
      && t.videoView == Some(ApplyToView(s.videoView.value, SeekTo(SeekMillis(seconds))))
      && t == s.(videoView := t.videoView, log := t.log)
  {
    if !s.prepared then s
    else if s.videoView.None? then Emit(s, NullReferenceThrown)
    else Issue(s, SeekTo(SeekMillis(seconds)))
  }

  /** The view's `Prepared` callback: ready, then auto-play, then notify. */
  function Prepared(s: State): (t: State)
    ensures s.progressBar.None? ==> t == Emit(s, NullReferenceThrown)
    ensures s.progressBar.Some? ==> t.prepared && t.progressBar == Some(Invisible)
    ensures s.progressBar.Some? ==>
      t.element == s.element && t.context == s.context && t.mediaController == s.mediaController
    ensures Wellformed(s) ==> Wellformed(t)
    ensures s.progressBar.Some? && s.element.None? ==>
      t == s.(prepared := true, progressBar := Some(Invisible), log := s.log + [NullReferenceThrown])
    ensures Wellformed(s) && s.progressBar.Some? && s.element.Some? ==>
      && t.log == s.log + (if s.element.value.autoPlay then [Sent(Start)] else []) + [Raised(OnPrepare)]
      && Notifications(t.log) == Notifications(s.log) + [OnPrepare]
      && (s.element.value.autoPlay ==> Commands(t.log) == Commands(s.log) + [Start]
                                       && t.videoView == Some(ApplyToView(s.videoView.value, Start)))
      && (!s.element.value.autoPlay ==> Commands(t.log) == Commands(s.log) && t.videoView == s.videoView)
  {
    if s.progressBar.None? then Emit(s, NullReferenceThrown)
    else
      var s1 := s.(progressBar := Some(Invisible), prepared := true);
      if s1.element.None? then Emit(s1, NullReferenceThrown)
      else
        var s2 := if s1.element.value.autoPlay then Play(s1) else s1;
        LogAppendOne(s1.log, Sent(Start));
        // `Play` throwing for want of a view leaves OnPrepare unraised
        if s1.element.value.autoPlay && s1.videoView.None? then s2
        else Emit(s2, Raised(OnPrepare))
  }

  /** The view's `Info` callback: the busy indicator shows exactly while buffering starts. */
  function Info(s: State, what: Int32): (t: State)
    ensures s.progressBar.None? ==> t == Emit(s, NullReferenceThrown)
    ensures s.progressBar.Some? ==> t == s.(progressBar := t.progressBar)
    ensures s.progressBar.Some? ==> (t.progressBar == Some(Visible) <==> what == BUFFERING_START)
    ensures s.progressBar.Some? ==> (t.progressBar == Some(Invisible) <==> what != BUFFERING_START)
  {
    if s.progressBar.None? then Emit(s, NullReferenceThrown)
    else s.(progressBar := Some(if what == BUFFERING_START then Visible else Invisible))
  }

  /** The view's `Completion` callback: one notification, readiness untouched. */
  function Completion(s: State): (t: State)
    ensures t.prepared == s.prepared
    ensures s.element.None? ==> t == s
    ensures s.element.Some? ==> t == s.(log := s.log + [Raised(OnCompletion)])
    ensures s.element.Some? ==>
      Notifications(t.log) == Notifications(s.log) + [OnCompletion] && Commands(t.log) == Commands(s.log)
  {
    if s.element.None? then s else Emit(s, Raised(OnCompletion))
  }

  /** The view's `Error` callback: one notification naming the error, readiness untouched. */
  function Error(s: State, what: Int32): (t: State)
    ensures t.prepared == s.prepared
    ensures s.element.None? ==> t == s
    ensures s.element.Some? ==> t == s.(log := s.log + [Raised(OnError(MediaErrorText(what)))])
    ensures s.element.Some? ==>
      && Notifications(t.log) == Notifications(s.log) + [OnError(MediaErrorText(what))]
      && Commands(t.log) == Commands(s.log)
      && |MediaErrorText(what)| > 0
  {
    if s.element.None? then s else Emit(s, Raised(OnError(MediaErrorText(what))))
  }

  /** `FullScreen`: landscape with hidden, sticky-immersive system UI. */
  function FullScreen(s: State): (t: State)
    ensures s.context.None? ==> t == Emit(s, NullReferenceThrown)
    ensures s.context.Some? ==> t == s.(context := Some(Activity(Landscape, IMMERSIVE)))
  {
    if s.context.None? then Emit(s, NullReferenceThrown)
    else s.(context := Some(Activity(Landscape, IMMERSIVE)))
  }

  /** `ExitFullScreen`: portrait with visible system UI. */
  function ExitFullScreen(s: State): (t: State)
    ensures s.context.None? ==> t == Emit(s, NullReferenceThrown)
    ensures s.context.Some? ==> t == s.(context := Some(Activity(Portrait, {})))
  {
    if s.context.None? then Emit(s, NullReferenceThrown)
    else s.(context := Some(Activity(Portrait, {})))
  }

  /** `SetScreen`: a no-op without a host activity; `true` means go full screen. */
  function SetScreen(s: State, isPortrait: bool): (t: State)
    ensures s.context.None? ==> t == s
    ensures s.context.Some? && isPortrait ==>
      t == s.(context := Some(Activity(Landscape, IMMERSIVE)))
    ensures s.context.Some? && !isPortrait ==>
      t == s.(context := Some(Activity(Portrait, {})))
  {
    if s.context.None? then s
    else if isPortrait then FullScreen(s)
    else ExitFullScreen(s)
  }

  /** `HidePlayerController`: hides the media controller if there is one,
      whatever `isHide` says. */
  function HidePlayerController(s: State, isHide: bool): (t: State)
    ensures s.mediaController.None? ==> t == s
    ensures s.mediaController.Some? ==>
      && t.log == s.log + [Sent(HideController)]
      && t == s.(mediaController := Some(MediaController(false)), log := t.log)
      && !IsNativeControlsVisible(t)
  {
    if s.mediaController.None? then s
    else Emit(s, Sent(HideController)).(mediaController := Some(MediaController(false)))
  }

  /** Not renderer code: the native engine's own progress changes the
      readings the view and the controller report. */
  function BackendReports(s: State, duration: Int32, position: Int32, canPause: bool, isShown: bool): (t: State)
    ensures s.videoView.None? ==> t == s
    ensures s.videoView.Some? ==> t.prepared == s.prepared && t.log == s.log && Wellformed(s) == Wellformed(t)
    ensures s.videoView.Some? && s.mediaController.Some? ==> IsNativeControlsVisible(t) == isShown
    // nothing but the engine's readings changes
    ensures s.videoView.Some? ==>
      t == s.(videoView := Some(s.videoView.value.(duration := duration, position := position, canPause := canPause)),
              mediaController := if s.mediaController.Some? then Some(MediaController(isShown)) else None)
  {
    match s.videoView
    case None => s
    case Some(v) =>
      s.(videoView := Some(v.(duration := duration, position := position, canPause := canPause)),
         mediaController := if s.mediaController.Some? then Some(MediaController(isShown)) else None)
  }
}
