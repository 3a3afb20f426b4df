/**
 * The image-preview modal both carousels render through a portal: a backdrop
 * whose click closes the modal, holding a content box that stops the click's
 * propagation, holding a close button (which closes) and the preview image.
 * A click is delivered to its target and then bubbles outward through the
 * handlers until one stops it.
 */
module Lightbox {
  import opened Wrappers

  datatype Target = Backdrop | Content | CloseButton | PreviewImage

  /** What each element's `onClick` does. */
  datatype Handler = Close | StopPropagation | NoHandler

  function HandlerOf(t: Target): Handler
  {
    match t
    case Backdrop => Close
    case Content => StopPropagation
    case CloseButton => Close
    case PreviewImage => NoHandler
  }

  /** The elements a click on `t` passes through, innermost first. */
  function Ancestry(t: Target): (path: seq<Target>)
    ensures |path| >= 1 && path[0] == t && path[|path| - 1] == Backdrop
  {
    match t
    case Backdrop => [Backdrop]
    case Content => [Content, Backdrop]
    case CloseButton => [CloseButton, Content, Backdrop]
    case PreviewImage => [PreviewImage, Content, Backdrop]
  }

  /** Whether a close handler runs while the click bubbles along `path`. */
  function Bubble(path: seq<Target>): bool
  {
    if path == [] then false
    else HandlerOf(path[0]) == Close || (HandlerOf(path[0]) != StopPropagation && Bubble(path[1..]))
  }

  /** Position `i` of `path` is reached by the bubbling click: nothing before it stops propagation. */
  predicate Reached(path: seq<Target>, i: int)
  {
    0 <= i < |path| && forall j :: 0 <= j < i ==> HandlerOf(path[j]) != StopPropagation
  }

  /** Bubbling closes the modal iff some element the click reaches has a close handler. */
  lemma {:induction false} BubbleIff(path: seq<Target>)
    ensures Bubble(path) <==> exists i :: Reached(path, i) && HandlerOf(path[i]) == Close
  {
    if path != [] {
      BubbleIff(path[1..]);
      if Bubble(path) {
        if HandlerOf(path[0]) == Close {
          assert Reached(path, 0);
        } else {
          var i :| Reached(path[1..], i) && HandlerOf(path[1..][i]) == Close;
          assert Reached(path, i + 1);
        }
      }
      if exists i :: Reached(path, i) && HandlerOf(path[i]) == Close {
        var i :| Reached(path, i) && HandlerOf(path[i]) == Close;
        if i > 0 {
          assert HandlerOf(path[0]) != StopPropagation;
          assert Reached(path[1..], i - 1);
        }
      }
    }
  }

  /** Whether a click on `t` closes the modal. */
  function Closes(t: Target): bool
  {
    Bubble(Ancestry(t))
  }

  /** Only the backdrop and the close button close the modal; clicks inside the content box do not. */
  lemma ClosesIff(t: Target)
    ensures Closes(t) <==> t == Backdrop || t == CloseButton
  {
  }

  /** The modal is rendered only while open and holding a non-empty image URL (`modalOpen && modalImage`). */
  function Shown(open: bool, image: Option<string>): (r: bool)
    ensures r ==> open && image.Some?
    ensures image == Some("") ==> !r
  {
    open && image.Some? && image.value != ""
  }
}
