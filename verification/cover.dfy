/** The cover screen of app/index.tsx: a sprite of 8 frames that cycles on a
    timer, and an "open" button that plays a video in a full-screen modal.
    When the video ends, the screen moves on to the question screen, at most
    once per showing of the video. The video player is reduced to its
    playing flag, its current time and its duration; navigation is the list
    of routes pushed. */
module Cover {

  /** Number of sprite frames (snoopyFrames.length). */
  const FRAME_COUNT: int := 8

  const QUESTION_ROUTE: string := "/question"

  datatype Option<T> = None | Some(value: T)

  /** The frame shown after one more timer tick. */
  function NextFrame(i: int): (j: int)
    ensures 0 <= j < FRAME_COUNT
    ensures 0 <= i < FRAME_COUNT - 1 ==> j == i + 1
    ensures i == FRAME_COUNT - 1 ==> j == 0
  {
    (i + 1) % FRAME_COUNT
  }

  /** The frame shown after `n` ticks, starting from frame 0. */
  function FrameAfter(n: nat): int
  {
    if n == 0 then 0 else NextFrame(FrameAfter(n - 1))
  }

  /** After `n` ticks the sprite shows frame n mod 8: it cycles through all
      eight frames in order and never leaves [0, 8). */
  lemma {:induction false} FrameAfterTicks(n: nat)
    ensures FrameAfter(n) == n % FRAME_COUNT
    ensures 0 <= FrameAfter(n) < FRAME_COUNT
  {
    if n > 0 {
      FrameAfterTicks(n - 1);
      ModSucc(n - 1);
    }
  }

  /** Stepping a residue mod 8 agrees with stepping the number itself. */
  lemma ModSucc(m: nat)
    ensures (m % FRAME_COUNT + 1) % FRAME_COUNT == (m + 1) % FRAME_COUNT
  {
    var q := m / FRAME_COUNT;
    var r := m % FRAME_COUNT;
    assert m == FRAME_COUNT * q + r;
    if r == FRAME_COUNT - 1 {
      assert m + 1 == FRAME_COUNT * (q + 1);
    } else {
      assert m + 1 == FRAME_COUNT * q + (r + 1);
    }
  }

  /** The end condition checked on a time update. */
  predicate ReachedEnd(duration: real, currentTime: real)
  {
    duration > 0.0 && currentTime >= duration
  }

  /** The time a time update reports: the event's own, else the player's
      (`event?.currentTime ?? player.currentTime`). */
  function ReportedTime(reported: Option<real>, playerTime: real): (t: real)
    ensures reported.Some? ==> t == reported.value
    ensures reported.None? ==> t == playerTime
  {
    match reported
    case Some(t) => t
    case None => playerTime
  }

  /** The video modal: whether it is shown, the end latch
      (hasHandledVideoEnd), the player's playing flag, current time and
      duration, and the routes pushed so far. */
  datatype Video = Video(visible: bool, handledEnd: bool, playing: bool,
                         currentTime: real, duration: real, navigation: seq<string>)

  /** What always holds of the modal: whenever it is hidden the player is
      paused and rewound, and a handled end has hidden the modal. (While it
      is shown, the viewer may pause, resume or seek with the player's own
      controls.) */
  ghost predicate VideoValid(v: Video)
  {
    && (!v.visible ==> !v.playing && v.currentTime == 0.0)
    && (v.handledEnd ==> !v.visible)
  }

  /** The modal before the button is ever pressed. */
  function InitialVideo(duration: real): (v: Video)
    ensures VideoValid(v) && !v.visible && !v.handledEnd && v.navigation == []
  {
    Video(false, false, false, 0.0, duration, [])
  }

  /** The open button (setIsVideoVisible(true)). The visibility effect runs
      only when the flag changes; its shown branch clears the latch, rewinds
      and plays. */
  function Open(v: Video): (w: Video)
    ensures VideoValid(v) ==> VideoValid(w)
    ensures v.visible ==> w == v
    ensures !v.visible ==> w.visible && w.playing && !w.handledEnd && w.currentTime == 0.0
    ensures w.navigation == v.navigation && w.duration == v.duration
  {
    if v.visible then v
    else v.(visible := true, handledEnd := false, currentTime := 0.0, playing := true)
  }

  /** resetVideo: hide the modal, pause and rewind. (The visibility effect's
      hidden branch then pauses and rewinds again, to the same state.) */
  function Reset(v: Video): (w: Video)
    ensures !w.visible && !w.playing && w.currentTime == 0.0
    ensures w.handledEnd == v.handledEnd && w.navigation == v.navigation && w.duration == v.duration
  {
    v.(visible := false, playing := false, currentTime := 0.0)
  }

  /** handleVideoEnd: unless the latch is set, set it, reset the video and
      push the question route. */
  function HandleEnd(v: Video): (w: Video)
    ensures v.handledEnd ==> w == v
    ensures !v.handledEnd ==>
              && w.handledEnd && !w.visible && !w.playing && w.currentTime == 0.0
              && w.navigation == v.navigation + [QUESTION_ROUTE] && w.duration == v.duration
    ensures (w.handledEnd && !w.visible) || w == v
  {
    if v.handledEnd then v
    else Reset(v.(handledEnd := true)).(navigation := v.navigation + [QUESTION_ROUTE])
  }

  /** The player's timeUpdate event, carrying the time it may report. */
  function TimeUpdate(v: Video, reported: Option<real>): (w: Video)
    ensures w == v || w == HandleEnd(v)
    ensures w != v <==>
              v.visible && !v.handledEnd && ReachedEnd(v.duration, ReportedTime(reported, v.currentTime))
  {
    if !v.visible || v.handledEnd then v
    else if ReachedEnd(v.duration, ReportedTime(reported, v.currentTime)) then HandleEnd(v)
    else v
  }

  /** The player's playToEnd event. */
  function PlayToEnd(v: Video): (w: Video)
    ensures w == v || w == HandleEnd(v)
    ensures w != v <==> v.visible && !v.handledEnd
  {
    if !v.visible || v.handledEnd then v else HandleEnd(v)
  }

  /** The player's own clock moving to `t` while it plays (not code of the
      screen: the stand-in for the video player). */
  function Progress(v: Video, t: real): (w: Video)
    ensures VideoValid(v) ==> VideoValid(w)
    ensures w.visible == v.visible && w.handledEnd == v.handledEnd && w.navigation == v.navigation
  {
    if v.playing then v.(currentTime := t) else v
  }

  /** What the viewer can do with the player's native controls, and the
      player's own stop at the end of playback (a pause). */
  datatype Control = Pause | Resume | Seek(t: real)

  /** A native control used on the player. The controls live in the modal,
      so they act only while it is shown. */
  function UserControl(v: Video, c: Control): (w: Video)
    ensures VideoValid(v) ==> VideoValid(w)
    ensures !v.visible ==> w == v
    ensures v.visible && c.Pause? ==> w == v.(playing := false)
    ensures v.visible && c.Resume? ==> w == v.(playing := true)
    ensures v.visible && c.Seek? ==> w == v.(currentTime := c.t)
    ensures w.visible == v.visible && w.handledEnd == v.handledEnd
    ensures w.navigation == v.navigation && w.duration == v.duration
  {
    if !v.visible then v
    else
      match c
      case Pause => v.(playing := false)
      case Resume => v.(playing := true)
      case Seek(t) => v.(currentTime := t)
  }

  /** Everything that can happen to the modal. */
  datatype Event =
    | Press
    | TimeUpdateEvent(reported: Option<real>)
    | PlayToEndEvent
    | Clock(t: real)
    | ControlEvent(c: Control)

  function Step(v: Video, e: Event): Video
  {
    match e
    case Press => Open(v)
    case TimeUpdateEvent(reported) => TimeUpdate(v, reported)
    case PlayToEndEvent => PlayToEnd(v)
    case Clock(t) => Progress(v, t)
    case ControlEvent(c) => UserControl(v, c)
  }

  /** The modal after a run of events. */
  function Run(v: Video, events: seq<Event>): Video
    decreases |events|
  {
    if events == [] then v else Run(Step(v, events[0]), events[1..])
  }

  /** The number of presses on the open button in a run of events. */
  function Presses(events: seq<Event>): nat
    decreases |events|
  {
    if events == [] then 0 else (if events[0].Press? then 1 else 0) + Presses(events[1..])
  }

  /** 1 when the event starts a new showing: a press that finds the modal hidden. */
  function Starts(v: Video, e: Event): nat
  {
    if e.Press? && !v.visible then 1 else 0
  }

  /** The number of showings a run of events starts. */
  function Showings(v: Video, events: seq<Event>): nat
    decreases |events|
  {
    if events == [] then 0 else Starts(v, events[0]) + Showings(Step(v, events[0]), events[1..])
  }

  /** Only presses start showings, so there are no more showings than presses. */
  lemma {:induction false} ShowingsAtMostPresses(v: Video, events: seq<Event>)
    ensures Showings(v, events) <= Presses(events)
    decreases |events|
  {
    if events != [] {
      ShowingsAtMostPresses(Step(v, events[0]), events[1..]);
    }
  }

  /** 1 while a showing is in progress whose end has not been handled. */
  function Pending(v: Video): nat
  {
    if v.visible && !v.handledEnd then 1 else 0
  }

  /** The end of a showing fires once: handling it a second time, or any
      later time update, whatever time it reports, changes nothing. */
  lemma HandleEndOnce(v: Video, reported: Option<real>)
    requires !v.handledEnd
    ensures HandleEnd(HandleEnd(v)) == HandleEnd(v)
    ensures HandleEnd(v).navigation == v.navigation + [QUESTION_ROUTE]
    ensures TimeUpdate(HandleEnd(v), reported) == HandleEnd(v)
    ensures PlayToEnd(HandleEnd(v)) == HandleEnd(v)
  {
  }

  /** Every event keeps the modal's invariant. */
  lemma {:induction false} RunValid(v: Video, events: seq<Event>)
    requires VideoValid(v)
    ensures VideoValid(Run(v, events))
    decreases |events|
  {
    if events != [] {
      var w := Step(v, events[0]);
      assert VideoValid(w);
      RunValid(w, events[1..]);
    }
  }

  /** One event pushes at most the showing it ends, and only a press on a
      hidden modal starts a new showing. */
  lemma StepPushes(v: Video, e: Event)
    ensures |Step(v, e).navigation| + Pending(Step(v, e)) <= |v.navigation| + Pending(v) + Starts(v, e)
    ensures Step(v, e).navigation == v.navigation || Step(v, e).navigation == v.navigation + [QUESTION_ROUTE]
  {
  }

  /** The question route is pushed at most once per showing of the video:
      over any run of events, no more pushes than the showings the run
      starts, plus one for a showing already in progress; hence no more than
      the presses on the open button plus that one. */
  lemma {:induction false} AtMostOncePerShowing(v: Video, events: seq<Event>)
    ensures |Run(v, events).navigation| + Pending(Run(v, events)) <= |v.navigation| + Pending(v) + Showings(v, events)
    ensures |Run(v, events).navigation| <= |v.navigation| + Pending(v) + Showings(v, events)
    ensures |Run(v, events).navigation| <= |v.navigation| + Pending(v) + Presses(events)
    decreases |events|
  {
    if events != [] {
      StepPushes(v, events[0]);
      AtMostOncePerShowing(Step(v, events[0]), events[1..]);
    }
    ShowingsAtMostPresses(v, events);
  }

  /** The cover screen: the sprite frame (snoopyFrameIndex), the modal flag
      (isVideoVisible), the end latch (the hasHandledVideoEnd ref), the player
      and the routes pushed so far. */
  class CoverScreen {
    var frameIndex: int
    /** Timer ticks since the screen was mounted. */
    ghost var ticks: nat
    var isVideoVisible: bool
    var hasHandledVideoEnd: bool
    var playing: bool
    var currentTime: real
    const duration: real
    var navigation: seq<string>

    /** The modal's state as a value. */
    function View(): Video
      reads this
    {
      Video(isVideoVisible, hasHandledVideoEnd, playing, currentTime, duration, navigation)
    }

    /** The sprite shows the frame its tick count calls for. */
    ghost predicate SpriteValid()
      reads this
    {
      frameIndex == FrameAfter(ticks)
    }

    ghost predicate Valid()
      reads this
    {
      SpriteValid() && VideoValid(View())
    }

    /** Mounting: frame 0, modal hidden; the visibility effect's first run
        pauses and rewinds the player. */
    constructor (duration: real)
      ensures Valid()
      ensures frameIndex == 0 && ticks == 0
      ensures View() == InitialVideo(duration)
    {
      frameIndex := 0;
      ticks := 0;
      isVideoVisible := false;
      hasHandledVideoEnd := false;
      this.duration := duration;
      navigation := [];
      playing := false;
      currentTime := 0.0;
    }

    /** One tick of the 140 ms interval. */
    method Tick()
      requires Valid()
      modifies this`frameIndex, this`ticks
      ensures Valid()
      ensures frameIndex == NextFrame(old(frameIndex)) && ticks == old(ticks) + 1
      ensures 0 <= frameIndex < FRAME_COUNT
      ensures frameIndex == ticks % FRAME_COUNT
    {
      frameIndex := (frameIndex + 1) % FRAME_COUNT;
      ticks := ticks + 1;
      FrameAfterTicks(ticks);
    }

    /** The open button: show the modal, and, when that changes the flag,
        run the visibility effect's shown branch. */
    method PressOpen()
      requires Valid()
      modifies this`isVideoVisible, this`hasHandledVideoEnd, this`playing, this`currentTime
      ensures Valid()
      ensures View() == Open(old(View()))
    {
      if isVideoVisible {
        return;
      }
      isVideoVisible := true;
      hasHandledVideoEnd := false;
      currentTime := 0.0;
      playing := true;
    }

    /** resetVideo. Its result is valid whatever the modal's state before,
        which lets handleVideoEnd set the latch first. */
    method ResetVideo()
      requires SpriteValid()
      modifies this`isVideoVisible, this`playing, this`currentTime
      ensures Valid()
      ensures View() == Reset(old(View()))
    {
      isVideoVisible := false;
      playing := false;
      currentTime := 0.0;
    }

    /** handleVideoEnd: acts once, then the latch makes it a no-op. */
    method HandleVideoEnd()
      requires Valid()
      modifies this`isVideoVisible, this`hasHandledVideoEnd, this`playing, this`currentTime, this`navigation
      ensures Valid()
      ensures View() == HandleEnd(old(View()))
    {
      if hasHandledVideoEnd {
        return;
      }
      hasHandledVideoEnd := true;
      ResetVideo();
      navigation := navigation + [QUESTION_ROUTE];
    }

    /** The timeUpdate listener. */
    method OnTimeUpdate(reported: Option<real>)
      requires Valid()
      modifies this`isVideoVisible, this`hasHandledVideoEnd, this`playing, this`currentTime, this`navigation
      ensures Valid()
      ensures View() == TimeUpdate(old(View()), reported)
    {
      if !isVideoVisible || hasHandledVideoEnd {
        return;
      }
      var t := ReportedTime(reported, currentTime);
      if duration > 0.0 && t >= duration {
        HandleVideoEnd();
      }
    }

    /** The playToEnd listener. */
    method OnPlayToEnd()
      requires Valid()
      modifies this`isVideoVisible, this`hasHandledVideoEnd, this`playing, this`currentTime, this`navigation
      ensures Valid()
      ensures View() == PlayToEnd(old(View()))
    {
      if !isVideoVisible || hasHandledVideoEnd {
        return;
      }
      HandleVideoEnd();
    }

    /** The player's clock advancing to `t` while it plays. */
    method PlayerClock(t: real)
      requires Valid()
      modifies this`currentTime
      ensures Valid()
      ensures View() == Progress(old(View()), t)
    {
      if playing {
        currentTime := t;
      }
    }

    /** A native control of the VideoView used by the viewer, or the
        player's own stop at the end of playback. */
    method NativeControl(c: Control)
      requires Valid()
      modifies this`playing, this`currentTime
      ensures Valid()
      ensures View() == UserControl(old(View()), c)
    {
      if !isVideoVisible {
        return;
      }
      match c {
        case Pause => playing := false;
        case Resume => playing := true;
        case Seek(t) => currentTime := t;
      }
    }
  }
}
