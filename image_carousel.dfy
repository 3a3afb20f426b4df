/**
 * ImageCarousel: one image at a time, advanced every `interval` ms by a
 * self-rescheduling pair of timeouts (wait `interval`, fade out, wait 300 ms,
 * advance and fade in), with prev/next buttons, a hover flag that only
 * controls button visibility, and a click-to-preview modal.
 *
 * React's behaviour is modelled as discrete events. The browser's table of
 * live timeouts is the map `timers` from timer id to what the callback does;
 * `timerRef` is the ref slot holding the last id written to it (it is never
 * reset to null); ids start at 1, as the browser's do, so the slot's
 * truthiness test is "holds an id". Every run of the auto-advance effect
 * that gets past its `if (modalOpen) return` owns an `isUnmounted` flag,
 * kept in `flags`; `liveRun` is the run whose cleanup has not yet run.
 */
module ImageCarousel {
  import opened Wrappers
  import Cyclic
  import Lightbox

  datatype Fade = In | Out

  /** What a pending timeout does when it fires. */
  datatype Callback =
    | AutoWait(run: nat)     // the `interval` timeout armed by `run()` of effect run `run`
    | AutoFade(run: nat)     // the 300 ms timeout armed after fading out, in effect run `run`
    | Manual(target: nat)    // the 300 ms timeout of a prev/next click, landing on `target`

  class Carousel {
    var images: seq<string>
    var interval: nat
    var current: nat
    var hovered: bool
    var modalOpen: bool
    var modalImage: Option<string>
    var fade: Fade
    var mounted: bool

    var timers: map<nat, Callback>
    var nextId: nat
    var timerRef: Option<nat>
    var flags: seq<bool>
    var liveRun: Option<nat>

    /** The live timeout, if any: every live one is the id held in `timerRef`. */
    function Pending(): Option<Callback>
      reads this
    {
      if timerRef.Some? && timerRef.value in timers then Some(timers[timerRef.value]) else None
    }

    /** Whether an auto-advance timeout is pending. */
    predicate AutoActive()
      reads this
    {
      Pending().Some? && !Pending().value.Manual?
    }

    ghost predicate Valid()
      reads this
    {
      && |images| >= 1
      && current < |images|
      && nextId >= 1
      && (timerRef.Some? ==> 1 <= timerRef.value < nextId)
      // at most one timeout is live, and it is the one the ref holds
      && (forall id :: id in timers ==> timerRef == Some(id))
      && (liveRun.Some? ==> liveRun.value < |flags| && !flags[liveRun.value])
      && (forall id :: id in timers && !timers[id].Manual? ==> liveRun == Some(timers[id].run))
      && (forall id :: id in timers && timers[id].Manual? ==> timers[id].target < |images|)
      // while the preview is open the effect returned early: nothing is armed
      && (modalOpen ==> liveRun == None && timers == map[])
      && (mounted && !modalOpen ==> liveRun.Some?)
      && (!mounted ==> liveRun == None && timers == map[])
      // a pending fade-in follows a fade-out
      && (Pending().Some? && !Pending().value.AutoWait? ==> fade == Out)
    }

    /** The prev/next buttons are visible and clickable only while hovered and no preview is open. */
    function ButtonsShown(): bool
      reads this
    {
      hovered && !modalOpen
    }

    /** Mounting: first render, then the effect runs and arms the first wait. */
    constructor(images: seq<string>, interval: nat)
      requires |images| >= 1
      ensures Valid()
      ensures this.images == images && this.interval == interval
      ensures current == 0 && fade == In && !hovered && !modalOpen && modalImage == None && mounted
      ensures Pending() == Some(AutoWait(0)) && |flags| == 1
    {
      this.images := images;
      this.interval := interval;
      current := 0;
      hovered := false;
      modalOpen := false;
      modalImage := None;
      fade := In;
      mounted := true;
      timers := map[1 := AutoWait(0)];
      nextId := 2;
      timerRef := Some(1);
      flags := [false];
      liveRun := Some(0);
    }

    /** `window.setTimeout(cb, ...)` stored into `timerRef.current`. */
    method SetTimeout(cb: Callback)
      modifies this
      ensures timers == old(timers)[old(nextId) := cb]
      ensures timerRef == Some(old(nextId)) && nextId == old(nextId) + 1
      ensures current == old(current) && fade == old(fade) && modalOpen == old(modalOpen)
      ensures modalImage == old(modalImage) && hovered == old(hovered) && mounted == old(mounted)
      ensures images == old(images) && interval == old(interval)
      ensures flags == old(flags) && liveRun == old(liveRun)
    {
      timers := timers[nextId := cb];
      timerRef := Some(nextId);
      nextId := nextId + 1;
    }

    /** `if (timerRef.current) clearTimeout(timerRef.current)`; the slot keeps the stale id. */
    method ClearRef()
      modifies this
      ensures timers == if old(timerRef).Some? then old(timers) - {old(timerRef).value} else old(timers)
      ensures timerRef == old(timerRef) && nextId == old(nextId)
      ensures current == old(current) && fade == old(fade) && modalOpen == old(modalOpen)
      ensures modalImage == old(modalImage) && hovered == old(hovered) && mounted == old(mounted)
      ensures images == old(images) && interval == old(interval)
      ensures flags == old(flags) && liveRun == old(liveRun)
    {
      if timerRef.Some? {
        timers := timers - {timerRef.value};
      }
    }

    /** The effect's cleanup: `isUnmounted = true` and clear whatever the ref holds. */
    method Cleanup()
      requires Valid()
      modifies this
      ensures timers == map[] && liveRun == None
      ensures |flags| == |old(flags)|
      ensures old(liveRun).Some? ==> flags == old(flags)[old(liveRun).value := true]
      ensures old(liveRun).None? ==> flags == old(flags)
      ensures timerRef == old(timerRef) && nextId == old(nextId)
      ensures current == old(current) && fade == old(fade) && modalOpen == old(modalOpen)
      ensures modalImage == old(modalImage) && hovered == old(hovered) && mounted == old(mounted)
      ensures images == old(images) && interval == old(interval)
    {
      if liveRun.Some? {
        flags := flags[liveRun.value := true];
      }
      liveRun := None;
      ClearRef();
    }

    /** A timeout fires. */
    method FireTimer(id: nat)
      requires Valid() && id in timers
      modifies this
      ensures Valid()
      ensures images == old(images) && interval == old(interval)
      ensures modalOpen == old(modalOpen) && modalImage == old(modalImage)
      ensures hovered == old(hovered) && mounted == old(mounted)
      ensures flags == old(flags) && liveRun == old(liveRun)
      // the wait fades out and arms the 300 ms step
      ensures old(timers[id]).AutoWait? ==>
        current == old(current) && fade == Out && Pending() == Some(AutoFade(old(timers[id]).run))
      // the 300 ms step advances by one, fades in and re-arms the wait
      ensures old(timers[id]).AutoFade? ==>
        current == Cyclic.Next(old(current), |images|) && fade == In
        && Pending() == Some(AutoWait(old(timers[id]).run))
      // a prev/next step lands on the image chosen at click time; nothing re-arms
      ensures old(timers[id]).Manual? ==>
        current == old(timers[id]).target && fade == In && timers == map[]
      // once auto-advance has stopped, no timeout restarts it
      ensures !old(AutoActive()) ==> !AutoActive()
    {
      var cb := timers[id];
      assert timerRef == Some(id);
      timers := timers - {id};
      match cb
      case AutoWait(r) =>
        fade := Out;
        SetTimeout(AutoFade(r));
      case AutoFade(r) =>
        if !flags[r] {
          current := Cyclic.Next(current, |images|);
          fade := In;
          SetTimeout(AutoWait(r));
        }
      case Manual(t) =>
        current := t;
        fade := In;
    }

    /** `handleNext`: ignored while the preview is open; otherwise cancels the pending timeout and schedules the step. */
    method ClickNext()
      requires Valid() && mounted
      modifies this
      ensures Valid()
      ensures images == old(images) && interval == old(interval) && current == old(current)
      ensures modalOpen == old(modalOpen) && modalImage == old(modalImage)
      ensures hovered == old(hovered) && mounted == old(mounted)
      ensures flags == old(flags) && liveRun == old(liveRun)
      ensures old(modalOpen) ==> timers == old(timers) && fade == old(fade)
      ensures !old(modalOpen) ==>
        fade == Out && Pending() == Some(Manual(Cyclic.Next(current, |images|)))
        && |timers| == 1
    {
      if modalOpen {
        return;
      }
      ClearRef();
      fade := Out;
      SetTimeout(Manual(Cyclic.Next(current, |images|)));
      assert timers.Keys == {timerRef.value};
    }

    /** `handlePrev`: as `handleNext`, towards the previous image. */
    method ClickPrev()
      requires Valid() && mounted
      modifies this
      ensures Valid()
      ensures images == old(images) && interval == old(interval) && current == old(current)
      ensures modalOpen == old(modalOpen) && modalImage == old(modalImage)
      ensures hovered == old(hovered) && mounted == old(mounted)
      ensures flags == old(flags) && liveRun == old(liveRun)
      ensures old(modalOpen) ==> timers == old(timers) && fade == old(fade)
      ensures !old(modalOpen) ==>
        fade == Out && Pending() == Some(Manual(Cyclic.Prev(current, |images|)))
        && |timers| == 1
    {
      if modalOpen {
        return;
      }
      ClearRef();
      fade := Out;
      SetTimeout(Manual(Cyclic.Prev(current, |images|)));
      assert timers.Keys == {timerRef.value};
    }

    /** The mouse enters or leaves the carousel: only the hover flag changes; the rotation goes on. */
    method SetHover(h: bool)
      requires Valid() && mounted
      modifies this
      ensures Valid()
      ensures hovered == h
      ensures ButtonsShown() <==> h && !modalOpen
      ensures images == old(images) && interval == old(interval) && current == old(current)
      ensures modalOpen == old(modalOpen) && modalImage == old(modalImage) && fade == old(fade)
      ensures mounted == old(mounted) && timers == old(timers) && timerRef == old(timerRef)
      ensures flags == old(flags) && liveRun == old(liveRun)
    {
      hovered := h;
    }

    /**
     * The current image is clicked: the preview opens on it. The change of
     * `modalOpen` runs the effect's cleanup, which cancels whatever timeout the
     * ref holds, auto or manual; the re-run returns early.
     */
    method ClickImage()
      requires Valid() && mounted
      modifies this
      ensures Valid()
      ensures modalOpen && modalImage == Some(old(images)[old(current)])
      ensures timers == map[] && !AutoActive()
      ensures images == old(images) && interval == old(interval) && current == old(current)
      ensures fade == old(fade) && hovered == old(hovered) && mounted == old(mounted)
    {
      var img := images[current];
      if !modalOpen {
        Cleanup();
      }
      modalOpen := true;
      modalImage := Some(img);
    }

    /**
     * A click inside the visible preview. It closes only when the click on
     * `target` bubbles to a closing handler; closing re-runs the effect, which
     * arms a fresh wait. The preview image stays set.
     */
    method ClickModal(target: Lightbox.Target)
      requires Valid() && mounted && Lightbox.Shown(modalOpen, modalImage)
      modifies this
      ensures Valid()
      ensures modalOpen <==> !Lightbox.Closes(target)
      ensures modalImage == old(modalImage)
      ensures Lightbox.Closes(target) ==>
        Pending() == Some(AutoWait(|old(flags)|)) && |flags| == |old(flags)| + 1
      ensures !Lightbox.Closes(target) ==> timers == old(timers) && flags == old(flags)
      ensures images == old(images) && interval == old(interval) && current == old(current)
      ensures fade == old(fade) && hovered == old(hovered) && mounted == old(mounted)
    {
      if Lightbox.Closes(target) {
        modalOpen := false;
        flags := flags + [false];
        liveRun := Some(|flags| - 1);
        SetTimeout(AutoWait(|flags| - 1));
      }
    }

    /** Unmounting runs the pending cleanup: no timeout outlives the component. */
    method Unmount()
      requires Valid() && mounted
      modifies this
      ensures Valid()
      ensures !mounted && timers == map[]
      ensures images == old(images) && interval == old(interval) && current == old(current)
      ensures modalOpen == old(modalOpen) && modalImage == old(modalImage)
      ensures fade == old(fade) && hovered == old(hovered)
    {
      Cleanup();
      mounted := false;
    }
  }

  /**
   * `k` clicks on "next" before the 300 ms step fires advance the carousel by
   * exactly one image: each click cancels the previous click's step and
   * computes its own from the same, unchanged `current`. Auto-advance is
   * stopped afterwards.
   */
  method NextBurst(c: Carousel, k: nat)
    requires c.Valid() && c.mounted && !c.modalOpen && k >= 1
    modifies c
    ensures c.Valid()
    ensures c.images == old(c.images)
    ensures c.current == Cyclic.Next(old(c.current), |old(c.images)|) && c.fade == In
    ensures c.timers == map[] && !c.AutoActive()
  {
    var start := c.current;
    var i := 0;
    while i < k
      invariant 0 <= i <= k
      invariant c.Valid() && c.mounted && !c.modalOpen
      invariant c.images == old(c.images) && c.current == start
      invariant i >= 1 ==> c.Pending() == Some(Manual(Cyclic.Next(start, |c.images|)))
    {
      c.ClickNext();
      i := i + 1;
    }
    var id := c.timerRef.value;
    c.FireTimer(id);
  }
}
