/** Runs of the renderer: any sequence of calls and native callbacks, and
    the properties that hold along every run. */
module RendererRuns {
  import opened Platform
  import opened Backend
  import M = RendererModel

  /** One thing that can happen to the renderer. */
  datatype Input =
    | ElementChanged(newElement: Option<M.Element>, fault: M.ViewFault)
    | PropertyChanged(name: string, sender: M.Element, fault: M.ViewFault)
    | Play
    | Pause
    | Stop
    | Seek(seconds: Int32)
    | Prepared
    | Info(what: Int32)
    | Completion
    | Error(what: Int32)
    | SetScreen(isPortrait: bool)
    | FullScreen
    | ExitFullScreen
    | HidePlayerController(isHide: bool)
    | BackendReports(duration: Int32, position: Int32, canPause: bool, isShown: bool)

  function Step(parse: UriParser, s: M.State, i: Input): M.State {
    match i
    case ElementChanged(e, f) => M.ElementChanged(parse, s, e, f)
    case PropertyChanged(n, e, f) => M.PropertyChanged(parse, s, n, e, f)
    case Play => M.Play(s)
    case Pause => M.Pause(s)
    case Stop => M.Stop(s)
    case Seek(sec) => M.Seek(s, sec)
    case Prepared => M.Prepared(s)
    case Info(w) => M.Info(s, w)
    case Completion => M.Completion(s)
    case Error(w) => M.Error(s, w)
    case SetScreen(p) => M.SetScreen(s, p)
    case FullScreen => M.FullScreen(s)
    case ExitFullScreen => M.ExitFullScreen(s)
    case HidePlayerController(h) => M.HidePlayerController(s, h)
    case BackendReports(d, p, c, v) => M.BackendReports(s, d, p, c, v)
  }

  function Run(parse: UriParser, s: M.State, inputs: seq<Input>): M.State
    decreases |inputs|
  {
    if inputs == [] then s else Run(parse, Step(parse, s, inputs[0]), inputs[1..])
  }

  /** No command in `cs` controls playback. */
  predicate NoPlayback(cs: seq<Command>) {
    forall k :: 0 <= k < |cs| ==> !IsPlayback(cs[k])
  }

  /** Every step only appends to the log. */
  lemma StepLogGrows(parse: UriParser, s: M.State, i: Input)
    ensures s.log <= Step(parse, s, i).log
  {
    match i
    case ElementChanged(e, f) =>
      if s.element.None? && e.Some? {
        SetSourceGated(parse, s.(element := e, videoView := Some(NEW_VIDEO_VIEW),
                                 mediaController := Some(MediaController(false)),
                                 progressBar := Some(Invisible)), f);
      }
    case PropertyChanged(n, e, f) =>
      if n == M.SOURCE_PROPERTY {
        SetSourceGated(parse, if s.element.None? then s else s.(element := Some(e)), f);
      }
    case Prepared =>
    case Play => assert Step(parse, s, i) == M.Play(s);
    case Pause => assert Step(parse, s, i) == M.Pause(s);
    case Stop => assert Step(parse, s, i) == M.Stop(s);
    case Seek(sec) => assert Step(parse, s, i) == M.Seek(s, sec);
    case Info(w) =>
    case Completion =>
    case Error(w) =>
    case SetScreen(p) =>
    case FullScreen =>
    case ExitFullScreen =>
    case HidePlayerController(h) =>
    case BackendReports(d, p, c, v) =>
  }

  /** Every step keeps the widgets consistent. */
  lemma StepKeepsWellformed(parse: UriParser, s: M.State, i: Input)
    requires M.Wellformed(s)
    ensures M.Wellformed(Step(parse, s, i))
  {
    match i
    case ElementChanged(e, f) =>
    case PropertyChanged(n, e, f) =>
    case Prepared =>
    case _ =>
  }

  /** The log only grows, and every step keeps the widgets consistent. */
  lemma StepInvariants(parse: UriParser, s: M.State, i: Input)
    ensures s.log <= Step(parse, s, i).log
    ensures M.Wellformed(s) ==> M.Wellformed(Step(parse, s, i))
  {
    StepLogGrows(parse, s, i);
    if M.Wellformed(s) {
      StepKeepsWellformed(parse, s, i);
    }
  }

  /** Readiness is set by the Prepared callback alone, and cleared only by
      reloading a source. */
  lemma StepReadiness(parse: UriParser, s: M.State, i: Input)
    ensures Step(parse, s, i).prepared && !s.prepared ==> i.Prepared?
    ensures s.prepared && !Step(parse, s, i).prepared ==>
      (i.ElementChanged? && s.element.None?) || (i.PropertyChanged? && i.name == M.SOURCE_PROPERTY)
  {
  }

  /** No command sent after position `from` of the log controls playback. */
  predicate NoPlaybackSince(log: seq<Event>, from: nat) {
    forall k :: from <= k < |log| ==> !(log[k].Sent? && IsPlayback(log[k].command))
  }

  /** Loading a source sends only SetVideoUri and RequestFocus. */
  lemma SetSourceGated(parse: UriParser, s: M.State, fault: M.ViewFault)
    ensures s.log <= M.SetSource(parse, s, fault).log
    ensures NoPlaybackSince(M.SetSource(parse, s, fault).log, |s.log|)
  {
    var t := M.SetSource(parse, s, fault);
    if M.Loads(s) && s.progressBar.Some? && s.videoView.Some? {
      var s2 := s.(prepared := false, progressBar := Some(Visible));
      match parse(s.element.value.source.value)
      case Failure(_) =>
      case Success(u) =>
        assert t == M.LoadParsed(s2, u, fault);
    }
  }

  /** A step that is not the Prepared callback, taken while not ready, sends
      no playback command to the view. */
  lemma StepGated(parse: UriParser, s: M.State, i: Input)
    requires !s.prepared && !i.Prepared?
    ensures s.log <= Step(parse, s, i).log
    ensures NoPlaybackSince(Step(parse, s, i).log, |s.log|)
  {
    match i
    case ElementChanged(e, f) =>
      if s.element.None? && e.Some? {
        var built := s.(element := e, videoView := Some(NEW_VIDEO_VIEW),
                        mediaController := Some(MediaController(false)),
                        progressBar := Some(Invisible));
        SetSourceGated(parse, built, f);
      }
    case PropertyChanged(n, e, f) =>
      if n == M.SOURCE_PROPERTY {
        SetSourceGated(parse, s.(element := Some(e)), f);
      }
    case _ =>
  }

  /** The commands of a log suffix free of playback commands. */
  lemma {:induction false} NoPlaybackOfLog(log: seq<Event>)
    requires NoPlaybackSince(log, 0)
    ensures NoPlayback(Commands(log))
  {
    if log != [] {
      assert NoPlaybackSince(log[1..], 0) by {
        forall k | 0 <= k < |log[1..]| ensures !(log[1..][k].Sent? && IsPlayback(log[1..][k].command)) {
          assert log[1..][k] == log[k + 1];
        }
      }
      NoPlaybackOfLog(log[1..]);
    }
  }

  /** Every run keeps the widgets consistent and only appends to the log. */
  lemma {:induction false} RunInvariants(parse: UriParser, s: M.State, inputs: seq<Input>)
    decreases |inputs|
    ensures s.log <= Run(parse, s, inputs).log
    ensures M.Wellformed(s) ==> M.Wellformed(Run(parse, s, inputs))
  {
    if inputs != [] {
      StepInvariants(parse, s, inputs[0]);
      RunInvariants(parse, Step(parse, s, inputs[0]), inputs[1..]);
    }
  }

  /** The log-level form of GatedUntilPrepared. */
  lemma {:induction false} GatedRun(parse: UriParser, s: M.State, inputs: seq<Input>)
    decreases |inputs|
    requires !s.prepared
    requires forall k :: 0 <= k < |inputs| ==> !inputs[k].Prepared?
    ensures !Run(parse, s, inputs).prepared
    ensures s.log <= Run(parse, s, inputs).log
    ensures NoPlaybackSince(Run(parse, s, inputs).log, |s.log|)
  {
    if inputs != [] {
      var s1 := Step(parse, s, inputs[0]);
      StepReadiness(parse, s, inputs[0]);
      StepGated(parse, s, inputs[0]);
      GatedRun(parse, s1, inputs[1..]);
      var t := Run(parse, s1, inputs[1..]);
      forall k | |s.log| <= k < |t.log| ensures !(t.log[k].Sent? && IsPlayback(t.log[k].command)) {
        if k < |s1.log| {
          assert t.log[k] == s1.log[k];
        }
      }
    }
  }

  /** Until the view reports that it is prepared, the renderer stays not
      ready, sends no playback command (Start, Pause, StopPlayback, SeekTo)
      to the view, and reports a zero duration and position. */
  lemma GatedUntilPrepared(parse: UriParser, s: M.State, inputs: seq<Input>)
    requires !s.prepared
    requires forall k :: 0 <= k < |inputs| ==> !inputs[k].Prepared?
    ensures !Run(parse, s, inputs).prepared
    ensures s.log <= Run(parse, s, inputs).log
    ensures NoPlayback(Commands(Run(parse, s, inputs).log[|s.log|..]))
    ensures M.Wellformed(s) ==>
      && M.Wellformed(Run(parse, s, inputs))
      && M.Duration(Run(parse, s, inputs)) == 0
      && M.CurrentPosition(Run(parse, s, inputs)) == 0
  {
    RunInvariants(parse, s, inputs);
    GatedRun(parse, s, inputs);
    var t := Run(parse, s, inputs);
    var added := t.log[|s.log|..];
    assert NoPlaybackSince(added, 0) by {
      forall k | 0 <= k < |added| ensures !(added[k].Sent? && IsPlayback(added[k].command)) {
        assert added[k] == t.log[k + |s.log|];
      }
    }
    NoPlaybackOfLog(added);
  }

  /** Running one input is taking one step. */
  lemma RunOne(parse: UriParser, s: M.State, i: Input, rest: seq<Input>)
    ensures Run(parse, s, [i] + rest) == Run(parse, Step(parse, s, i), rest)
  {
    assert ([i] + rest)[1..] == rest;
  }

  /** Running one more input is one more step after the run. */
  lemma {:induction false} RunSnoc(parse: UriParser, s: M.State, inputs: seq<Input>, i: Input)
    decreases |inputs|
    ensures Run(parse, s, inputs + [i]) == Step(parse, Run(parse, s, inputs), i)
  {
    if inputs == [] {
      assert inputs + [i] == [i];
      RunOne(parse, s, i, []);
    } else {
      assert (inputs + [i])[1..] == inputs[1..] + [i];
      RunSnoc(parse, Step(parse, s, inputs[0]), inputs[1..], i);
    }
  }

  /** The element used by the playback scenario below. */
  const SCENARIO_ELEMENT: M.Element := M.Element(Some("file://a.mp4"), false)

  /** The inputs of the playback scenario after the element is bound. */
  function ScenarioControls(duration: Int32): seq<Input> {
    [Prepared, BackendReports(duration, 0, true, false), Play, Input.Pause, Play, Completion]
  }

  /** From any loaded renderer without auto-play: Prepared, the engine
      reporting that it can pause, Play, Pause, Play, Completion add
      OnPrepare and OnCompletion to the notifications and Start, Pause,
      Start to the commands. */
  lemma ScenarioControlsEffect(parse: UriParser, s: M.State, duration: Int32)
    requires M.Wellformed(s) && s.progressBar.Some? && s.element.Some? && !s.element.value.autoPlay
    ensures var t := Run(parse, s, ScenarioControls(duration));
      && Notifications(t.log) == Notifications(s.log) + [OnPrepare, OnCompletion]
      && Commands(t.log) == Commands(s.log) + [Start, Command.Pause, Start]
      && t.prepared && M.Wellformed(t) && t.videoView.value.playback == Started
      && M.Duration(t) == duration
  {
    var s2 := Step(parse, s, Prepared);
    var s3 := Step(parse, s2, BackendReports(duration, 0, true, false));
    var s4 := Step(parse, s3, Play);
    var s5 := Step(parse, s4, Input.Pause);
    var s6 := Step(parse, s5, Play);
    var s7 := Step(parse, s6, Completion);
    ScenarioControlsSteps(parse, s, duration);
    RunOne(parse, s6, Completion, []);
    RunOne(parse, s5, Play, [Completion]);
    RunOne(parse, s4, Input.Pause, [Play, Completion]);
    RunOne(parse, s3, Play, [Input.Pause, Play, Completion]);
    RunOne(parse, s2, BackendReports(duration, 0, true, false), [Play, Input.Pause, Play, Completion]);
    RunOne(parse, s, Prepared, [BackendReports(duration, 0, true, false), Play, Input.Pause, Play, Completion]);
  }

  /** The scenario's controls taken one step at a time. */
  lemma ScenarioControlsSteps(parse: UriParser, s: M.State, duration: Int32)
    requires M.Wellformed(s) && s.progressBar.Some? && s.element.Some? && !s.element.value.autoPlay
    ensures var t := Step(parse, Step(parse, Step(parse, Step(parse, Step(parse, Step(parse, s,
                       Prepared), BackendReports(duration, 0, true, false)), Play), Input.Pause), Play), Completion);
      && Notifications(t.log) == Notifications(s.log) + [OnPrepare, OnCompletion]
      && Commands(t.log) == Commands(s.log) + [Start, Command.Pause, Start]
      && t.prepared && M.Wellformed(t) && t.videoView.value.playback == Started
      && M.Duration(t) == duration
  {
    var s2 := Step(parse, s, Prepared);
    var s3 := Step(parse, s2, BackendReports(duration, 0, true, false));
    var s4 := Step(parse, s3, Play);
    var s5 := Step(parse, s4, Input.Pause);
    var s6 := Step(parse, s5, Play);
    var s7 := Step(parse, s6, Completion);
    assert s2.log == s.log + [Raised(OnPrepare)] && s3.log == s2.log;
    assert s3.prepared && M.Wellformed(s3) && s3.videoView.value.canPause && s3.element == s.element;
    assert s4.log == s3.log + [Sent(Start)];
    assert s5.log == s4.log + [Sent(Command.Pause)];
    assert s6.log == s5.log + [Sent(Start)];
    assert s7.log == s6.log + [Raised(OnCompletion)];
    LogAppendOne(s.log, Raised(OnPrepare));
    LogAppendOne(s3.log, Sent(Start));
    LogAppendOne(s4.log, Sent(Command.Pause));
    LogAppendOne(s5.log, Sent(Start));
    LogAppendOne(s6.log, Raised(OnCompletion));
  }

  /** Binding the scenario element loads its URI into a new view. */
  lemma ScenarioBinding(parse: UriParser, host: Option<Activity>)
    requires parse(SCENARIO_ELEMENT.source.value).Success?
    ensures var u := parse(SCENARIO_ELEMENT.source.value).value;
      var s1 := Step(parse, M.Initial(host), ElementChanged(Some(SCENARIO_ELEMENT), M.NoFault));
      && M.Wellformed(s1) && s1.progressBar.Some? && s1.element == Some(SCENARIO_ELEMENT)
      && Commands(s1.log) == [SetVideoUri(u), RequestFocus] && Notifications(s1.log) == []
  {
    var u := parse(SCENARIO_ELEMENT.source.value).value;
    assert !IsWhiteSpace(SCENARIO_ELEMENT.source.value[0]);
    var s1 := Step(parse, M.Initial(host), ElementChanged(Some(SCENARIO_ELEMENT), M.NoFault));
    assert s1.log == [Sent(SetVideoUri(u)), Sent(RequestFocus)];
    assert s1.log[1..][1..] == [];
  }

  /** Binding a renderer to an element whose source is "file://a.mp4", then
      Prepared, the engine reporting that it can pause, Play, Pause, Play
      and Completion: the element sees OnPrepare then OnCompletion, and the
      view receives the load, focus and the three playback commands in order. */
  lemma PlaybackScenario(parse: UriParser, host: Option<Activity>, duration: Int32)
    requires parse(SCENARIO_ELEMENT.source.value).Success?
    ensures var u := parse(SCENARIO_ELEMENT.source.value).value;
      var t := Run(parse, M.Initial(host), [ElementChanged(Some(SCENARIO_ELEMENT), M.NoFault)] + ScenarioControls(duration));
      && Notifications(t.log) == [OnPrepare, OnCompletion]
      && Commands(t.log) == [SetVideoUri(u), RequestFocus, Start, Command.Pause, Start]
      && t.prepared && M.Wellformed(t) && M.Duration(t) == duration
  {
    var s1 := Step(parse, M.Initial(host), ElementChanged(Some(SCENARIO_ELEMENT), M.NoFault));
    ScenarioBinding(parse, host);
    ScenarioControlsEffect(parse, s1, duration);
    RunOne(parse, M.Initial(host), ElementChanged(Some(SCENARIO_ELEMENT), M.NoFault), ScenarioControls(duration));
  }

  /** The renderer has no session guard: after a second source replaces a
      first one that never became ready, a late Prepared callback (which may
      belong to the abandoned load) still makes the renderer ready. */
  lemma NoStaleSessionGuard(parse: UriParser, s: M.State, first: M.Element, second: M.Element)
    requires M.Wellformed(s) && s.progressBar.Some?
    ensures Run(parse, s, [PropertyChanged(M.SOURCE_PROPERTY, first, M.NoFault),
                           PropertyChanged(M.SOURCE_PROPERTY, second, M.NoFault), Prepared]).prepared
  {
    var a := PropertyChanged(M.SOURCE_PROPERTY, first, M.NoFault);
    var b := PropertyChanged(M.SOURCE_PROPERTY, second, M.NoFault);
    var s1 := Step(parse, s, a);
    var s2 := Step(parse, s1, b);
    PropertyChangedKeepsIndicator(parse, s, first);
    PropertyChangedKeepsIndicator(parse, s1, second);
    RunOne(parse, s2, Prepared, []);
    RunOne(parse, s1, b, [Prepared]);
    RunOne(parse, s, a, [b, Prepared]);
  }

  /** A `Source` change keeps the busy indicator. */
  lemma PropertyChangedKeepsIndicator(parse: UriParser, s: M.State, e: M.Element)
    requires s.progressBar.Some?
    ensures Step(parse, s, PropertyChanged(M.SOURCE_PROPERTY, e, M.NoFault)).progressBar.Some?
  {
    if s.element.Some? {
      assert Step(parse, s, PropertyChanged(M.SOURCE_PROPERTY, e, M.NoFault))
          == M.SetSource(parse, s.(element := Some(e)), M.NoFault);
    }
  }

  /** Only the last `SetScreen` matters. */
  lemma SetScreenLastWins(s: M.State, first: bool, second: bool)
    ensures M.SetScreen(M.SetScreen(s, first), second) == M.SetScreen(s, second)
  {
  }
}
