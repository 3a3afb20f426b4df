/**
 * PhotoAudioOverlay: a photo with an audio element, a play/pause button and
 * a progress bar that seeks on click and on drag.
 *
 * Audio element events (play, pause, ended, timeupdate) are inputs. The
 * element's duration is fixed; 0 stands for every falsy duration (0 or the
 * NaN reported before metadata is loaded). Window listeners are recorded
 * with the render they come from: every render creates new handler
 * functions, each closing over that render's `dragging`, and
 * add/removeEventListener match handlers by identity.
 */
module PhotoAudioOverlay {
  import opened Wrappers

  /** `Math.max(0, Math.min(1, x / width))`: the fraction of the bar left of the cursor. */
  function SeekRatio(x: real, width: real): (r: real)
    requires width > 0.0
    ensures 0.0 <= r <= 1.0
    ensures 0.0 <= x && x <= width ==> r == x / width
    ensures x < 0.0 <==> r == 0.0 && x != 0.0
    ensures x > width ==> r == 1.0
  {
    var q := x / width;
    if q < 0.0 then 0.0 else if q > 1.0 then 1.0 else q
  }

  /** Moving the cursor right never moves the seek position left. */
  lemma SeekMonotone(x1: real, x2: real, width: real)
    requires width > 0.0 && x1 <= x2
    ensures SeekRatio(x1, width) <= SeekRatio(x2, width)
  {
    assert x1 / width <= x2 / width;
  }

  /** `duration || d`: the duration, or `d` when it is falsy. */
  function DurationOr(duration: real, d: real): (r: real)
    ensures duration != 0.0 ==> r == duration
    ensures duration == 0.0 ==> r == d
  {
    if duration != 0.0 then duration else d
  }

  /** Progress after a "timeupdate" at time `t`: `currentTime / (duration || 1)`. */
  function ProgressAt(t: real, duration: real): (r: real)
    requires duration >= 0.0
    requires 0.0 <= t && (duration > 0.0 ==> t <= duration)
    ensures r >= 0.0
    ensures duration > 0.0 ==> r <= 1.0
    ensures duration == 0.0 ==> r == t
  {
    DivBounds(t, DurationOr(duration, 1.0));
    t / DurationOr(duration, 1.0)
  }

  /** A non-negative time over a positive duration is a non-negative ratio, at most 1 when the time is within the duration. */
  lemma DivBounds(t: real, d: real)
    requires d > 0.0 && 0.0 <= t
    ensures t / d >= 0.0
    ensures t <= d ==> t / d <= 1.0
  {
    var q := t / d;
    assert q * d == t;
    assert (1.0 - q) * d == d - t;
  }

  /** A seek followed by the element reporting the sought time shows the same progress. */
  lemma SeekThenTimeUpdate(x: real, width: real, duration: real)
    requires width > 0.0 && duration > 0.0
    ensures ProgressAt(SeekRatio(x, width) * DurationOr(duration, 0.0), duration) == SeekRatio(x, width)
  {
    var p := SeekRatio(x, width);
    assert p * duration <= duration by { assert p <= 1.0; }
    assert (p * duration) / duration == p;
  }

  /** What the play/pause button asks the audio element to do. */
  datatype Command = PlayAudio | PauseAudio

  /** A handler registered on `window`, identified by the render that created it. */
  datatype Listener =
    | Move(render: nat, sawDragging: bool)   // that render's `handleDragMove`, with its `dragging`
    | Up(render: nat)                        // that render's `handleDragEnd`

  class Overlay {
    var isPlaying: bool
    var progress: real
    var dragging: bool
    var currentTime: real
    const duration: real
    const hasCallback: bool
    var listeners: set<Listener>
    var renderCount: nat

    ghost predicate Valid()
      reads this
    {
      && duration >= 0.0
      && progress >= 0.0
      && (duration > 0.0 ==> progress <= 1.0)
      && currentTime >= 0.0
      // a drag's two listeners are added and removed together
      && (forall r, b :: Move(r, b) in listeners ==> Up(r) in listeners)
      && (forall r :: Up(r) in listeners ==> exists b :: Move(r, b) in listeners)
      && (forall l :: l in listeners ==> l.render < renderCount)
      // dragging exactly while some press's handlers are registered
      && (dragging <==> listeners != {})
    }

    constructor(duration: real, hasCallback: bool)
      requires duration >= 0.0
      ensures Valid()
      ensures !isPlaying && progress == 0.0 && !dragging && currentTime == 0.0
      ensures this.duration == duration && this.hasCallback == hasCallback && listeners == {}
    {
      isPlaying := false;
      progress := 0.0;
      dragging := false;
      currentTime := 0.0;
      this.duration := duration;
      this.hasCallback := hasCallback;
      listeners := {};
      renderCount := 0;
    }

    /** The notification sent through `onPlayPauseChange`, when one was given. */
    function Notify(playing: bool): (r: Option<bool>)
      reads this
      ensures r.Some? <==> hasCallback
      ensures r.Some? ==> r.value == playing
    {
      if hasCallback then Some(playing) else None
    }

    /** `handlePlayPause`: pause when the last render was playing, play otherwise; state changes only through the resulting events. */
    method ClickPlayPause() returns (cmd: Command)
      requires Valid()
      ensures cmd == PauseAudio <==> isPlaying
    {
      cmd := if isPlaying then PauseAudio else PlayAudio;
    }

    /** The element's "play" event. */
    method Play() returns (note: Option<bool>)
      requires Valid()
      modifies this
      ensures Valid()
      ensures isPlaying && note == Notify(true)
      ensures progress == old(progress) && currentTime == old(currentTime)
      ensures dragging == old(dragging) && listeners == old(listeners) && renderCount == old(renderCount)
    {
      isPlaying := true;
      note := Notify(true);
    }

    /** The element's "pause" event. */
    method Pause() returns (note: Option<bool>)
      requires Valid()
      modifies this
      ensures Valid()
      ensures !isPlaying && note == Notify(false)
      ensures progress == old(progress) && currentTime == old(currentTime)
      ensures dragging == old(dragging) && listeners == old(listeners) && renderCount == old(renderCount)
    {
      isPlaying := false;
      note := Notify(false);
    }

    /** The element's "ended" event: stopped and the bar back at the start. */
    method Ended() returns (note: Option<bool>)
      requires Valid()
      modifies this
      ensures Valid()
      ensures !isPlaying && progress == 0.0 && note == Notify(false)
      ensures currentTime == old(currentTime)
      ensures dragging == old(dragging) && listeners == old(listeners) && renderCount == old(renderCount)
    {
      isPlaying := false;
      progress := 0.0;
      note := Notify(false);
    }

    /** The element's "timeupdate" event, reporting playback time `t`. */
    method TimeUpdate(t: real)
      requires Valid()
      requires 0.0 <= t && (duration > 0.0 ==> t <= duration)
      modifies this
      ensures Valid()
      ensures currentTime == t && progress == ProgressAt(t, duration)
      ensures isPlaying == old(isPlaying)
      ensures dragging == old(dragging) && listeners == old(listeners) && renderCount == old(renderCount)
    {
      currentTime := t;
      progress := ProgressAt(t, duration);
    }

    /** `handleProgressBarClick` at `x` pixels into a bar `width` pixels wide. */
    method Seek(x: real, width: real)
      requires Valid() && width > 0.0
      modifies this
      ensures Valid()
      ensures progress == SeekRatio(x, width)
      ensures currentTime == SeekRatio(x, width) * DurationOr(duration, 0.0)
      ensures isPlaying == old(isPlaying)
      ensures dragging == old(dragging) && listeners == old(listeners) && renderCount == old(renderCount)
    {
      var p := SeekRatio(x, width);
      currentTime := p * DurationOr(duration, 0.0);
      progress := p;
    }

    /**
     * `handleDragStart`: seek, start dragging and register this render's
     * move and up handlers. The move handler keeps the `dragging` of the
     * render it was created in, which is the value before this press.
     */
    method MouseDown(x: real, width: real)
      requires Valid() && width > 0.0
      modifies this
      ensures Valid()
      ensures dragging && progress == SeekRatio(x, width)
      ensures currentTime == SeekRatio(x, width) * DurationOr(duration, 0.0)
      ensures listeners == old(listeners) + {Move(old(renderCount), old(dragging)), Up(old(renderCount))}
      ensures renderCount == old(renderCount) + 1
      ensures isPlaying == old(isPlaying)
    {
      var saw := dragging;
      var r := renderCount;
      listeners := listeners + {Move(r, saw), Up(r)};
      renderCount := renderCount + 1;
      dragging := true;
      Seek(x, width);
    }

    /**
     * A "mousemove" on the window runs every registered move handler. A
     * handler whose render saw `dragging == false` returns at once; the
     * others seek to `x` on the bar found by id.
     */
    method MouseMove(x: real, width: real)
      requires Valid() && width > 0.0
      modifies this
      ensures Valid()
      ensures (exists l :: l in listeners && l.Move? && l.sawDragging) ==>
        progress == SeekRatio(x, width) && currentTime == SeekRatio(x, width) * DurationOr(duration, 0.0)
      ensures !(exists l :: l in listeners && l.Move? && l.sawDragging) ==>
        progress == old(progress) && currentTime == old(currentTime)
      ensures isPlaying == old(isPlaying)
      ensures dragging == old(dragging) && listeners == old(listeners) && renderCount == old(renderCount)
    {
      if exists l :: l in listeners && l.Move? && l.sawDragging {
        Seek(x, width);
      }
    }

    /** A "mouseup" on the window: every registered up handler stops the drag and removes its own pair. */
    method MouseUp()
      requires Valid()
      modifies this
      ensures Valid()
      ensures !dragging && listeners == {}
      ensures progress == old(progress) && currentTime == old(currentTime) && isPlaying == old(isPlaying)
      ensures renderCount == old(renderCount)
    {
      if listeners != {} {
        dragging := false;
        listeners := {};
      }
    }
  }

  /**
   * A press on the bar followed by a move: the move handler registered by
   * the press belongs to a render whose `dragging` was false, so the bar
   * stays where the press put it wherever the cursor moves.
   */
  method PressThenMove(o: Overlay, x0: real, x1: real, width: real)
    requires o.Valid() && !o.dragging && width > 0.0
    modifies o
    ensures o.Valid() && o.dragging
    ensures o.progress == SeekRatio(x0, width)
  {
    o.MouseDown(x0, width);
    o.MouseMove(x1, width);
  }

  /**
   * A second press while the first is still held (another mouse button on
   * the bar): the second press's move handler comes from a render that saw
   * `dragging == true`, so the next move does seek to the cursor.
   */
  method SecondPressThenMove(o: Overlay, x0: real, x1: real, x2: real, width: real)
    requires o.Valid() && width > 0.0
    modifies o
    ensures o.Valid() && o.dragging
    ensures o.progress == SeekRatio(x2, width)
    ensures o.currentTime == SeekRatio(x2, width) * DurationOr(o.duration, 0.0)
  {
    o.MouseDown(x0, width);
    var r := o.renderCount;
    o.MouseDown(x1, width);
    assert Move(r, true) in o.listeners;
    o.MouseMove(x2, width);
  }
}
