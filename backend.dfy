/** The native widgets the renderer drives, as abstract state: the Android
    `VideoView`, its `MediaController` and the busy `ProgressBar`, plus the
    log of everything the renderer sends down to them or up to its element. */
module Backend {
  import opened Platform

  /** `Android.Views.ViewStates` as far as the renderer uses it. */
  datatype ViewStates = Visible | Invisible

  /** What the video view was last told to do with its media. */
  datatype Playback = Idle | Started | Paused | Stopped

  /** An Android `VideoView`. The first four fields are what the renderer's
      commands set; `duration`, `position` and `canPause` are readings the
      native engine reports and no renderer command changes. */
  datatype VideoView = VideoView(
    uri: Option<Uri>,
    playback: Playback,
    seekTarget: Option<Int32>,
    focused: bool,
    duration: Int32,
    position: Int32,
    canPause: bool)

  /** A video view as `new VideoView(Context)` creates it. */
  const NEW_VIDEO_VIEW: VideoView := VideoView(None, Idle, None, false, 0, 0, false)

  /** An Android `MediaController`: only whether it is on screen (`IsShown`). */
  datatype MediaController = MediaController(isShown: bool)

  /** The calls the renderer makes on its native widgets. */
  datatype Command =
    | SetVideoUri(uri: Uri)
    | RequestFocus
    | Start
    | Pause
    | StopPlayback
    | SeekTo(msec: Int32)
    | HideController

  /** The commands that control playback, the ones the renderer gates on readiness. */
  predicate IsPlayback(c: Command) {
    c.Start? || c.Pause? || c.StopPlayback? || c.SeekTo?
  }

  /** The effect of a command on the video view. */
  function ApplyToView(v: VideoView, c: Command): (w: VideoView)
    ensures w.duration == v.duration && w.position == v.position && w.canPause == v.canPause
    ensures c.SetVideoUri? ==> w.uri == Some(c.uri) && w.playback == Idle && w.seekTarget == None
    ensures !c.SetVideoUri? ==> w.uri == v.uri
    ensures c.Start? ==> w.playback == Started
    ensures c.Pause? ==> w.playback == Paused
    ensures c.StopPlayback? ==> w.playback == Stopped
    ensures c.SeekTo? ==> w.seekTarget == Some(c.msec) && w.playback == v.playback
    ensures (c.RequestFocus? || c.HideController?) ==> w == v.(focused := c.RequestFocus? || v.focused)
    // only focusing changes the focus
    ensures !c.RequestFocus? ==> w.focused == v.focused
    // only loading and seeking change the seek target
    ensures !c.SetVideoUri? && !c.SeekTo? ==> w.seekTarget == v.seekTarget
  {
    match c
    case SetVideoUri(u) => v.(uri := Some(u), playback := Idle, seekTarget := None)
    case RequestFocus => v.(focused := true)
    case Start => v.(playback := Started)
    case Pause => v.(playback := Paused)
    case StopPlayback => v.(playback := Stopped)
    case SeekTo(ms) => v.(seekTarget := Some(ms))
    case HideController => v
  }

  /** The notifications the renderer raises on its element. */
  datatype Notification = OnPrepare | OnCompletion | OnError(message: string)

  /** One entry of the renderer's log: a command sent down, a notification
      sent up, or a `NullReferenceException` that escaped a handler. */
  datatype Event = Sent(command: Command) | Raised(notification: Notification) | NullReferenceThrown

  /** The commands of a log, in order. */
  function Commands(log: seq<Event>): (r: seq<Command>)
    ensures |r| <= |log|
  {
    if log == [] then []
    else CommandsOf(log[0]) + Commands(log[1..])
  }

  /** The notifications of a log, in order. */
  function Notifications(log: seq<Event>): (r: seq<Notification>)
    ensures |r| <= |log|
  {
    if log == [] then []
    else NotificationsOf(log[0]) + Notifications(log[1..])
  }

  /** The commands and notifications of one event. */
  function CommandsOf(e: Event): seq<Command> {
    if e.Sent? then [e.command] else []
  }

  function NotificationsOf(e: Event): seq<Notification> {
    if e.Raised? then [e.notification] else []
  }

  lemma {:induction false} CommandsAppend(a: seq<Event>, b: seq<Event>)
    ensures Commands(a + b) == Commands(a) + Commands(b)
  {
    if a == [] {
      assert a + b == b;
    } else {
      var ab := a + b;
      assert ab[0] == a[0] && ab[1..] == a[1..] + b;
      CommandsAppend(a[1..], b);
      calc {
        Commands(ab);
        CommandsOf(a[0]) + Commands(a[1..] + b);
        CommandsOf(a[0]) + (Commands(a[1..]) + Commands(b));
        (CommandsOf(a[0]) + Commands(a[1..])) + Commands(b);
      }
    }
  }

  lemma {:induction false} NotificationsAppend(a: seq<Event>, b: seq<Event>)
    ensures Notifications(a + b) == Notifications(a) + Notifications(b)
  {
    if a == [] {
      assert a + b == b;
    } else {
      var ab := a + b;
      assert ab[0] == a[0] && ab[1..] == a[1..] + b;
      NotificationsAppend(a[1..], b);
      calc {
        Notifications(ab);
        NotificationsOf(a[0]) + Notifications(a[1..] + b);
        NotificationsOf(a[0]) + (Notifications(a[1..]) + Notifications(b));
        (NotificationsOf(a[0]) + Notifications(a[1..])) + Notifications(b);
      }
    }
  }

  /** A command is among a log's commands exactly when the log holds it as sent. */
  lemma {:induction false} CommandsMembership(log: seq<Event>, c: Command)
    ensures c in Commands(log) <==> Sent(c) in log
  {
    if log != [] {
      CommandsMembership(log[1..], c);
      assert log == [log[0]] + log[1..];
    }
  }

  /** A notification is among a log's notifications exactly when the log holds it as raised. */
  lemma {:induction false} NotificationsMembership(log: seq<Event>, n: Notification)
    ensures n in Notifications(log) <==> Raised(n) in log
  {
    if log != [] {
      NotificationsMembership(log[1..], n);
      assert log == [log[0]] + log[1..];
    }
  }

  /** Appending one event to a log extends its commands and notifications by
      exactly that event's own. */
  lemma LogAppendOne(log: seq<Event>, e: Event)
    ensures Commands(log + [e]) == Commands(log) + CommandsOf(e)
    ensures Notifications(log + [e]) == Notifications(log) + NotificationsOf(e)
  {
    CommandsAppend(log, [e]);
    NotificationsAppend(log, [e]);
    assert [e][1..] == [];
  }
}
