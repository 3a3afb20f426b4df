/**
 * MediaCarousel: a carousel of image, audio and custom items, advanced by a
 * `setInterval` that runs only while not paused and no preview is open; a
 * child player pauses it through the `onPlayPauseChange` callback.
 *
 * The browser's live intervals are the set `intervals`; `intervalRef` holds
 * the last id written (never reset); `cleanupArmed` says whether the last
 * effect run registered its cleanup (a run that returns early registers
 * none). React re-runs the effect only when one of its dependencies changes.
 */
module MediaCarousel {
  import opened Wrappers
  import Cyclic
  import Lightbox

  datatype Kind = Image | Audio | CustomKind

  /** A React node as far as the dispatch looks at it. */
  datatype Node = Node(isValidElement: bool, typeName: Option<string>)

  /** `{ type, src?, node? }`; a falsy `node` is `None`. */
  datatype Item = Item(kind: Kind, src: Option<string>, node: Option<Node>)

  /** What `renderCurrentItem` returns. */
  datatype View =
    | Custom(node: Node, givenCallback: bool)   // the node, with `onPlayPauseChange` injected when it is a PhotoAudioOverlay
    | ImageView(src: Option<string>)            // a clickable image
    | AudioPlayer(src: Option<string>)          // a waveform player wired to `onPlayPauseChange`
    | Nothing                                   // `null`

  /** Whether a node is a PhotoAudioOverlay element: valid element whose component is named so. */
  predicate IsOverlayElement(n: Node)
  {
    n.isValidElement && n.typeName == Some("PhotoAudioOverlay")
  }

  /** `renderCurrentItem` for one item. */
  function Render(item: Item): View
  {
    if item.kind == CustomKind && item.node.Some? then
      Custom(item.node.value, IsOverlayElement(item.node.value))
    else if item.kind == Image then ImageView(item.src)
    else if item.kind == Audio then AudioPlayer(item.src)
    else Nothing
  }

  /** Whether the rendered view can report play/pause back to the carousel. */
  predicate Wired(v: View)
  {
    v.AudioPlayer? || (v.Custom? && v.givenCallback)
  }

  /** Only audio items and PhotoAudioOverlay custom nodes can pause the carousel. */
  lemma WiredIff(item: Item)
    ensures Wired(Render(item)) <==>
      item.kind == Audio || (item.kind == CustomKind && item.node.Some? && IsOverlayElement(item.node.value))
  {
  }

  /** A custom item renders nothing exactly when it has no node; other kinds always render something. */
  lemma NothingIff(item: Item)
    ensures Render(item).Nothing? <==> item.kind == CustomKind && item.node.None?
  {
  }

  /** Only image items open the preview, and they carry their own `src`. */
  lemma ImageViewIff(item: Item)
    ensures Render(item).ImageView? <==> item.kind == Image
    ensures Render(item).ImageView? ==> Render(item).src == item.src
  {
  }

  class Carousel {
    var items: seq<Item>
    var interval: nat
    var current: nat
    var hovered: bool
    var paused: bool
    var modalOpen: bool
    var modalImage: Option<string>
    var mounted: bool

    var intervals: set<nat>
    var nextId: nat
    var intervalRef: Option<nat>
    var cleanupArmed: bool

    /** The condition under which the effect arms an interval. */
    predicate ShouldRun()
      reads this
    {
      mounted && !paused && !modalOpen
    }

    ghost predicate Valid()
      reads this
    {
      && |items| >= 1
      && current < |items|
      && nextId >= 1
      && (intervalRef.Some? ==> 1 <= intervalRef.value < nextId)
      && (forall id :: id in intervals ==> intervalRef == Some(id))
      && (cleanupArmed <==> ShouldRun())
      && (intervals != {} <==> ShouldRun())
    }

    constructor(items: seq<Item>, interval: nat)
      requires |items| >= 1
      ensures Valid()
      ensures this.items == items && this.interval == interval
      ensures current == 0 && !hovered && !paused && !modalOpen && modalImage == None && mounted
      ensures intervals == {1}
    {
      this.items := items;
      this.interval := interval;
      current := 0;
      hovered := false;
      paused := false;
      modalOpen := false;
      modalImage := None;
      mounted := true;
      intervals := {1};
      nextId := 2;
      intervalRef := Some(1);
      cleanupArmed := true;
    }

    /**
     * A dependency of the effect changed: the registered cleanup (if any)
     * clears the interval held in the ref, then the effect runs again and
     * arms a fresh interval unless paused or a preview is open.
     */
    method Rerun()
      requires nextId >= 1 && (intervalRef.Some? ==> 1 <= intervalRef.value < nextId)
      requires forall id :: id in intervals ==> intervalRef == Some(id)
      requires cleanupArmed <==> intervals != {}
      requires |items| >= 1 && current < |items|
      modifies this
      ensures Valid()
      ensures ShouldRun() ==> intervals == {intervalRef.value} && intervalRef != old(intervalRef)
      ensures !ShouldRun() ==> intervals == {}
      ensures items == old(items) && interval == old(interval) && current == old(current)
      ensures hovered == old(hovered) && paused == old(paused) && modalOpen == old(modalOpen)
      ensures modalImage == old(modalImage) && mounted == old(mounted)
    {
      if cleanupArmed {
        if intervalRef.Some? {
          intervals := intervals - {intervalRef.value};
        }
        cleanupArmed := false;
      }
      if ShouldRun() {
        intervals := intervals + {nextId};
        intervalRef := Some(nextId);
        nextId := nextId + 1;
        cleanupArmed := true;
      }
    }

    /** A live interval fires: one step forward, and it stays armed. */
    method Tick(id: nat)
      requires Valid() && id in intervals
      modifies this
      ensures Valid()
      ensures current == Cyclic.Next(old(current), |old(items)|)
      ensures intervals == old(intervals) && intervalRef == old(intervalRef)
      ensures items == old(items) && paused == old(paused) && modalOpen == old(modalOpen)
      ensures modalImage == old(modalImage) && hovered == old(hovered) && mounted == old(mounted)
    {
      current := Cyclic.Next(current, |items|);
    }

    /** `handlePlayPauseChange(isPlaying)`: the carousel is paused exactly while the child plays. */
    method SetPlaying(isPlaying: bool)
      requires Valid() && mounted
      modifies this
      ensures Valid()
      ensures paused == isPlaying
      ensures intervals != {} <==> !isPlaying && !modalOpen
      ensures old(paused) == isPlaying ==> intervals == old(intervals)
      ensures items == old(items) && current == old(current) && modalOpen == old(modalOpen)
      ensures modalImage == old(modalImage) && hovered == old(hovered) && mounted == old(mounted)
    {
      if paused != isPlaying {
        paused := isPlaying;
        Rerun();
      }
    }

    /** The "previous" button: ignored while a preview is open; does not touch the interval. */
    method ClickPrev()
      requires Valid() && mounted
      modifies this
      ensures Valid()
      ensures current == if old(modalOpen) then old(current) else Cyclic.Prev(old(current), |old(items)|)
      ensures intervals == old(intervals) && intervalRef == old(intervalRef)
      ensures items == old(items) && paused == old(paused) && modalOpen == old(modalOpen)
      ensures modalImage == old(modalImage) && hovered == old(hovered) && mounted == old(mounted)
    {
      if !modalOpen {
        current := Cyclic.Prev(current, |items|);
      }
    }

    /** The "next" button: ignored while a preview is open; does not touch the interval. */
    method ClickNext()
      requires Valid() && mounted
      modifies this
      ensures Valid()
      ensures current == if old(modalOpen) then old(current) else Cyclic.Next(old(current), |old(items)|)
      ensures intervals == old(intervals) && intervalRef == old(intervalRef)
      ensures items == old(items) && paused == old(paused) && modalOpen == old(modalOpen)
      ensures modalImage == old(modalImage) && hovered == old(hovered) && mounted == old(mounted)
    {
      if !modalOpen {
        current := Cyclic.Next(current, |items|);
      }
    }

    /** The mouse enters or leaves: only the hover flag changes. */
    method SetHover(h: bool)
      requires Valid() && mounted
      modifies this
      ensures Valid()
      ensures hovered == h
      ensures items == old(items) && current == old(current) && paused == old(paused)
      ensures modalOpen == old(modalOpen) && modalImage == old(modalImage) && mounted == old(mounted)
      ensures intervals == old(intervals) && intervalRef == old(intervalRef)
    {
      hovered := h;
    }

    /**
     * A click on the rendered current item. Only an image view has a click
     * handler: it opens the preview on the item's `src` (possibly missing),
     * which stops the interval.
     */
    method ClickCurrentItem()
      requires Valid() && mounted
      modifies this
      ensures Valid()
      ensures Render(old(items)[old(current)]).ImageView? ==>
        modalOpen && modalImage == old(items)[old(current)].src && intervals == {}
      ensures !Render(old(items)[old(current)]).ImageView? ==>
        modalOpen == old(modalOpen) && modalImage == old(modalImage) && intervals == old(intervals)
      ensures items == old(items) && current == old(current) && paused == old(paused)
      ensures hovered == old(hovered) && mounted == old(mounted)
    {
      var item := items[current];
      if Render(item).ImageView? {
        modalImage := item.src;
        if !modalOpen {
          modalOpen := true;
          Rerun();
        }
      }
    }

    /** A click in the visible preview: closing re-arms the interval unless paused. */
    method ClickModal(target: Lightbox.Target)
      requires Valid() && mounted && Lightbox.Shown(modalOpen, modalImage)
      modifies this
      ensures Valid()
      ensures modalOpen <==> !Lightbox.Closes(target)
      ensures Lightbox.Closes(target) ==> (intervals != {} <==> !paused)
      ensures !Lightbox.Closes(target) ==> intervals == old(intervals)
      ensures modalImage == old(modalImage)
      ensures items == old(items) && current == old(current) && paused == old(paused)
      ensures hovered == old(hovered) && mounted == old(mounted)
    {
      if Lightbox.Closes(target) {
        modalOpen := false;
        Rerun();
      }
    }

    /** Unmounting runs the registered cleanup: no interval outlives the component. */
    method Unmount()
      requires Valid() && mounted
      modifies this
      ensures Valid()
      ensures !mounted && intervals == {}
      ensures items == old(items) && current == old(current) && paused == old(paused)
      ensures modalOpen == old(modalOpen) && modalImage == old(modalImage) && hovered == old(hovered)
    {
      mounted := false;
      Rerun();
    }
  }
}
