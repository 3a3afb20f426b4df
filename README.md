# Aryantra.co site logic, modelled in Dafny

This project models the parts of the Aryantra.co marketing site that hold real logic, and proves properties of the model:

- the two carousels:
  - ImageCarousel, with its self-re-arming timeout chain, one timer slot, fade phases and preview modal;
  - MediaCarousel, with its pausable interval and item dispatch;
- the PhotoAudioOverlay player: play state, clamped seek and drag listeners;
- the contact form's submission sequence and the express relay it posts to;
- the section-anchor slug of the Services page, and the Home and Portfolio link tables that point at those anchors;
- the header's menu, scroll flag and active-item test.

Browser behaviour is modelled as discrete events. Timers firing, clicks, audio element events, fetch completion and unmounting are each a method. The browser's table of live timeouts is an explicit map, and a timer ref is a slot that keeps its last id. React's rules are followed where they matter:

- a handler sees the state of the render that created it;
- an effect's cleanup runs before the effect re-runs when a dependency changes;
- an effect that returns early registers no cleanup;
- `add`/`removeEventListener` match handlers by function identity.

One module per source file:

| file | module |
|---|---|
| `image_carousel.dfy` | `ImageCarousel` |
| `media_carousel.dfy` | `MediaCarousel` |
| `photo_audio_overlay.dfy` | `PhotoAudioOverlay` |
| `contact.dfy` | `Contact` |
| `services.dfy` | `Services` |
| `home.dfy` | `Home` |
| `portfolio.dfy` | `Portfolio` |
| `header.dfy` | `Header` |
| `relay.dfy` | `Relay` (for `proxy-server.cjs`) |

Shared pieces:

- `Cyclic`: the wrap-around index arithmetic.
- `Lightbox`: the preview modal's click bubbling, common to both carousels.
- `Anchors`: the lookup-with-fallback used by Home and Portfolio.
- `Wrappers`: `Option`.

## Behaviour worth noting

- **Hover changes only the flag that controls button visibility**, in both carousels; the rotation goes on (`ImageCarousel.Carousel.SetHover`, `MediaCarousel.Carousel.SetHover`).
- **Prev/next never restart an automatic rotation.**
  - In ImageCarousel, a manual step's callback never re-arms the chain, so auto-advance stops after a prev/next click. It resumes only when the preview is opened and closed. See `ImageCarousel.Carousel.FireTimer` and `ImageCarousel.NextBurst`.
  - In MediaCarousel, prev/next leave the interval untouched.
- **The preview and the pause flag are independent.** ImageCarousel has no pause flag. In MediaCarousel, opening and closing the preview leave `paused` as it was; closing re-arms the interval only when not paused.
- **A fade can be left half-done.** Opening the ImageCarousel preview during a fade-out cancels the pending step and leaves the image faded out until the next automatic cycle.
- **A drag started from rest never seeks.** The move handler that `handleDragStart` registers comes from a render whose `dragging` is still `false`. It therefore returns at once, and only the press and the click seek (`PhotoAudioOverlay.PressThenMove`). A second press while the first is held (`onMouseDown` fires for any mouse button) does give a seeking move handler, because that press runs in a render where `dragging` is already `true` (`PhotoAudioOverlay.SecondPressThenMove`).
- **The media anchor is broken.** The media link in both Home and Portfolio targets `ai-generated-image-video-assets`. The Services page's slug of "AI-Generated Image & Video Assets" is `ai-generated-image-and-video-assets`, so that link lands on no section. This is proved as a fact (`Home.MediaCardMisses`, `Portfolio.LandsIffNotMedia`), not corrected.

## Model

| member | source | states |
|---|---|---|
| Cyclic.Next | src/components/ImageCarousel.tsx:29 | `(c+1) % n` stays below n and wraps from the last index to 0 |
| Cyclic.Prev | src/components/ImageCarousel.tsx:49 | `(c-1+n) % n` stays below n and wraps from 0 to the last index |
| Cyclic.PrevNext | src/components/MediaCarousel.tsx:85 | previous undoes next |
| Cyclic.NextPrev | src/components/MediaCarousel.tsx:96 | next undoes previous |
| Cyclic.AdvanceIsMod | src/components/MediaCarousel.tsx:28 | k automatic steps from c land on `(c+k) % n` |
| Cyclic.FullRound | src/components/ImageCarousel.tsx:29 | n automatic steps return to the starting image |
| Lightbox.HandlerOf | src/components/ImageCarousel.tsx:101-115 | the three `onClick` handlers of the portal: close on the backdrop and the ×, stopPropagation on the content box; its contract is carried by Lightbox.BubbleIff and Lightbox.ClosesIff |
| Lightbox.Ancestry | src/components/ImageCarousel.tsx:101-121 | a click's path starts at its target and ends at the backdrop |
| Lightbox.BubbleIff | src/components/ImageCarousel.tsx:103-111 | bubbling closes the modal iff some element reached before a stopPropagation has a closing handler |
| Lightbox.Shown | src/components/ImageCarousel.tsx:100 | the preview is rendered only while it is open and holds an image URL; an empty URL is falsy and shows nothing |
| Lightbox.Closes | src/components/ImageCarousel.tsx:101-115 | whether a click on a target closes the preview; its contract is carried by Lightbox.ClosesIff and Lightbox.BubbleIff |
| Lightbox.ClosesIff | src/components/MediaCarousel.tsx:107-115 | only a click on the backdrop or on the close button closes the preview |
| ImageCarousel.Carousel.constructor | src/components/ImageCarousel.tsx:14-36 | mount starts at image 0, faded in, modal closed, with the first wait armed |
| ImageCarousel.Carousel.SetTimeout | src/components/ImageCarousel.tsx:25-27 | `timerRef.current = setTimeout(cb, …)`: the callback is armed under a fresh id, the ref holds that id, and nothing else changes |
| ImageCarousel.Carousel.ClearRef | src/components/ImageCarousel.tsx:39 | `if (timerRef.current) clearTimeout(timerRef.current)`: the timer named by the ref is cancelled, and the ref keeps its stale id |
| ImageCarousel.Carousel.FireTimer | src/components/ImageCarousel.tsx:24-36 | wait → fade out and arm the 300 ms step; step → advance by one, fade in, re-arm; manual step → land on its target with nothing re-armed; at most one timer stays live; a stopped auto-advance stays stopped |
| ImageCarousel.Carousel.ClickNext | src/components/ImageCarousel.tsx:53-61 | no-op while the preview is open; otherwise fade out and replace whatever was pending by the one step to `(current+1) % n` |
| ImageCarousel.Carousel.ClickPrev | src/components/ImageCarousel.tsx:44-52 | the same towards `(current-1+n) % n` |
| ImageCarousel.Carousel.Cleanup | src/components/ImageCarousel.tsx:37-40 | sets the run's `isUnmounted` flag and cancels the timer the ref holds |
| ImageCarousel.Carousel.ClickImage | src/components/ImageCarousel.tsx:74 | opens the preview on `images[current]` and leaves no timer live |
| ImageCarousel.Carousel.ClickModal | src/components/ImageCarousel.tsx:101-115 | closes iff the click bubbles to a closing handler; closing re-runs the effect, which arms a fresh wait; the preview image stays |
| ImageCarousel.Carousel.ButtonsShown | src/components/ImageCarousel.tsx:82-94 | the prev/next buttons are visible and clickable iff hovered and no preview is open; its contract is carried by ImageCarousel.Carousel.SetHover |
| ImageCarousel.Carousel.SetHover | src/components/ImageCarousel.tsx:66-67 | only the hover flag changes; timers and index are untouched; the prev/next buttons show iff hovered and no preview is open |
| ImageCarousel.Carousel.Unmount | src/components/ImageCarousel.tsx:37-41 | no timer outlives the component |
| ImageCarousel.NextBurst | src/components/ImageCarousel.tsx:54-60 | k ≥ 1 clicks on next before the step fires advance by exactly one, and auto-advance is then stopped |
| MediaCarousel.IsOverlayElement | src/components/MediaCarousel.tsx:46 | a custom node is a PhotoAudioOverlay iff it is a valid element whose component is named `PhotoAudioOverlay`; its contract is carried by MediaCarousel.WiredIff |
| MediaCarousel.Render | src/components/MediaCarousel.tsx:42-71 | dispatch on the item type: custom with a node, image, audio, otherwise nothing |
| MediaCarousel.WiredIff | src/components/MediaCarousel.tsx:44-49 | the pause callback reaches an item iff it is audio or a custom PhotoAudioOverlay element |
| MediaCarousel.NothingIff | src/components/MediaCarousel.tsx:71 | `null` is rendered iff the item is custom without a node |
| MediaCarousel.ImageViewIff | src/components/MediaCarousel.tsx:51-60 | only image items render a clickable image, with their own src |
| MediaCarousel.Carousel.constructor | src/components/MediaCarousel.tsx:17-35 | mount starts at item 0, not hovered, not paused, preview closed, with exactly one interval armed |
| MediaCarousel.Carousel.ShouldRun | src/components/MediaCarousel.tsx:26 | the effect arms an interval unless `paused \|\| modalOpen` (or the carousel is unmounted); its contract is carried by MediaCarousel.Carousel.Rerun and the carousel's invariant |
| MediaCarousel.Carousel.Rerun | src/components/MediaCarousel.tsx:25-35 | after a dependency change an interval is armed iff mounted, not paused and no preview is open, and at most one is live |
| MediaCarousel.Carousel.Tick | src/components/MediaCarousel.tsx:27-29 | one step forward, interval kept |
| MediaCarousel.Carousel.SetPlaying | src/components/MediaCarousel.tsx:37-39 | `paused` equals the last play signal; the interval runs iff not playing and no preview is open |
| MediaCarousel.Carousel.ClickPrev | src/components/MediaCarousel.tsx:85 | steps back unless the preview is open; the interval is untouched |
| MediaCarousel.Carousel.ClickNext | src/components/MediaCarousel.tsx:96 | steps forward unless the preview is open; the interval is untouched |
| MediaCarousel.Carousel.SetHover | src/components/MediaCarousel.tsx:77-78 | only the hover flag changes |
| MediaCarousel.Carousel.ClickCurrentItem | src/components/MediaCarousel.tsx:57 | an image item opens the preview on its src and stops the interval; other items change nothing |
| MediaCarousel.Carousel.ClickModal | src/components/MediaCarousel.tsx:107-115 | closes iff the click bubbles to a closing handler; closing re-arms unless paused; `modalImage` stays |
| MediaCarousel.Carousel.Unmount | src/components/MediaCarousel.tsx:30-34 | no interval outlives the component |
| PhotoAudioOverlay.SeekRatio | src/components/PhotoAudioOverlay.tsx:49-50 | the clamped ratio is in [0, 1], equals x/width inside the bar, and is 0 left of it and 1 right of it |
| PhotoAudioOverlay.SeekMonotone | src/components/PhotoAudioOverlay.tsx:50 | the seek position never moves left as the cursor moves right |
| PhotoAudioOverlay.DurationOr | src/components/PhotoAudioOverlay.tsx:25-72 | `duration \|\| d`: the duration when non-zero, else the fallback `d` |
| PhotoAudioOverlay.ProgressAt | src/components/PhotoAudioOverlay.tsx:25 | progress is non-negative and at most 1 for a known duration; an unknown duration divides by 1 |
| PhotoAudioOverlay.DivBounds | src/components/PhotoAudioOverlay.tsx:25 | a non-negative time over a positive duration is non-negative, and at most 1 when within the duration |
| PhotoAudioOverlay.SeekThenTimeUpdate | src/components/PhotoAudioOverlay.tsx:51-52 | a seek followed by the element reporting the sought time shows the same progress |
| PhotoAudioOverlay.Overlay.constructor | src/components/PhotoAudioOverlay.tsx:9-56 | mount starts not playing, at progress 0 and time 0, not dragging, with no window listener |
| PhotoAudioOverlay.Overlay.ClickPlayPause | src/components/PhotoAudioOverlay.tsx:14-21 | asks for pause iff playing; changes no state |
| PhotoAudioOverlay.Overlay.Notify | src/components/PhotoAudioOverlay.tsx:30-41 | `onPlayPauseChange && onPlayPauseChange(v)`: `v` is sent iff a callback was given |
| PhotoAudioOverlay.Overlay.Play | src/components/PhotoAudioOverlay.tsx:28-31 | playing, and `true` is sent iff a callback was given |
| PhotoAudioOverlay.Overlay.Pause | src/components/PhotoAudioOverlay.tsx:33-36 | not playing, and `false` is sent iff a callback was given |
| PhotoAudioOverlay.Overlay.Ended | src/components/PhotoAudioOverlay.tsx:38-42 | not playing, progress 0, `false` sent |
| PhotoAudioOverlay.Overlay.TimeUpdate | src/components/PhotoAudioOverlay.tsx:23-26 | progress is the reported time over `duration \|\| 1` |
| PhotoAudioOverlay.Overlay.Seek | src/components/PhotoAudioOverlay.tsx:45-53 | progress is the seek ratio and the element's time is ratio × `duration \|\| 0` |
| PhotoAudioOverlay.Overlay.MouseDown | src/components/PhotoAudioOverlay.tsx:58-63 | seeks, starts dragging, and adds this render's move and up handlers; the move handler carries the pre-press `dragging` |
| PhotoAudioOverlay.Overlay.MouseMove | src/components/PhotoAudioOverlay.tsx:65-74 | seeks iff some registered move handler saw `dragging` true; otherwise nothing changes |
| PhotoAudioOverlay.Overlay.MouseUp | src/components/PhotoAudioOverlay.tsx:76-80 | dragging ends and the listener set is empty again |
| PhotoAudioOverlay.PressThenMove | src/components/PhotoAudioOverlay.tsx:58-66 | after a press from rest, a move leaves the bar where the press put it |
| PhotoAudioOverlay.SecondPressThenMove | src/components/PhotoAudioOverlay.tsx:53-66 | a press while the first press is held gives a move handler that saw `dragging`, so the next move seeks to the cursor |
| Contact.UrlTargetsRelay | src/pages/Contact.tsx:10 | the form's URL is the relay's default port and contact route |
| Contact.WithField | src/pages/Contact.tsx:98-103 | the named field gets the value; the other three are unchanged |
| Contact.WithFieldSame | src/pages/Contact.tsx:99-102 | writing a field's own value back changes nothing |
| Contact.WithFieldTwice | src/pages/Contact.tsx:99-102 | the last of two writes to a field wins |
| Contact.Complete | src/pages/Contact.tsx:356-403 | the four inputs are `required`: all must be non-empty; its contract is carried by Contact.Form.Submit |
| Contact.Form.constructor | src/pages/Contact.tsx:17-24 | four empty fields, not submitting, not submitted |
| Contact.Form.Change | src/pages/Contact.tsx:98-103 | the form data becomes `WithField` of the old data |
| Contact.Form.FormShown | src/pages/Contact.tsx:321 | the form is rendered iff no success panel replaces it; its contract is carried by Contact.Form.Settle and Contact.Form.FireReset |
| Contact.Form.Submit | src/pages/Contact.tsx:53-65 | a request is sent iff no submit is in flight and all four required fields are filled; it is a JSON POST of the current fields to the relay |
| Contact.Succeeded | src/pages/Contact.tsx:68 | `response.ok` of a fetch that did not throw; its contract is carried by Contact.Form.Settle and Contact.SuccessThroughRelay |
| Contact.Form.Settle | src/pages/Contact.tsx:66-95 | submitting ends; submitted and reset scheduled iff the response was ok; the fields are kept |
| Contact.Form.FireReset | src/pages/Contact.tsx:90-95 | the success panel is hidden and all fields are empty |
| Contact.SuccessThroughRelay | src/pages/Contact.tsx:68 | through the relay, the form succeeds iff the upstream was reached and answered 2xx, whether or not its reply is JSON |
| Services.ReplaceAmp | src/pages/Services.tsx:304 | `replace(/&/g, 'and')`; its contract is carried by Services.ReplaceAmpNoAmp and Services.AmpBetweenWords |
| Services.Collapse | src/pages/Services.tsx:305 | `replace(/[^a-z0-9]+/g, '-')`; its contract is carried by Services.CollapseShape and Services.CollapseSingleSeparators |
| Services.StripEdges | src/pages/Services.tsx:306 | `replace(/(^-\|-$)/g, '')`; its contract is carried by Services.StripEdgesShape and Services.StripEdgesAlnums |
| Services.Slug | src/pages/Services.tsx:302-306 | the section id of a title; its contract is carried by Services.SlugShape, Services.SlugKeepsAlnums and Services.SlugIdempotent |
| Services.CollapseShape | src/pages/Services.tsx:305 | the result holds only [a-z0-9-] and no `--`; it is empty iff the input is; it starts with `-` iff the input starts outside [a-z0-9] |
| Services.CollapseSingleSeparators | src/pages/Services.tsx:305 | on input whose separators are single characters between words, collapsing turns each separator into one `-` |
| Services.StripEdgesShape | src/pages/Services.tsx:306 | on a string of [a-z0-9-] with no `--`, stripping leaves a slug: no `-` at either end |
| Services.ReplaceAmpNoAmp | src/pages/Services.tsx:304 | input without `&` is left unchanged |
| Services.Lower | src/pages/Services.tsx:303 | lower-casing keeps the length and maps each character |
| Services.DropRun | src/pages/Services.tsx:305 | dropping a run never lengthens the string and leaves it starting with [a-z0-9] or empty |
| Services.StripEdgesAlnums | src/pages/Services.tsx:306 | stripping the edges keeps every [a-z0-9] character, in order |
| Services.SlugShape | src/pages/Services.tsx:302-306 | every slug has only [a-z0-9-], no `--`, and no `-` at either end |
| Services.SlugKeepsAlnums | src/pages/Services.tsx:302-306 | the slug keeps exactly the [a-z0-9] characters of the lower-cased, `&`-replaced title, in order |
| Services.SlugIdempotent | src/pages/Services.tsx:302-306 | slugging a slug changes nothing |
| Services.AmpBetweenWords | src/pages/Services.tsx:304 | an `&` between two alphanumeric words becomes `and` with no separator |
| Services.SlugVia | src/pages/Services.tsx:302-306 | a title that lower-cases to words with single separators slugs to those words joined by `-` |
| Services.SlugViaAmp | src/pages/Services.tsx:302-306 | likewise when one `&` stands between spaces |
| Services.SlugOfVoiceAgent | src/pages/Services.tsx:24 | "AI Voice Agent" slugs to `ai-voice-agent` |
| Services.SlugOfLeadQualification | src/pages/Services.tsx:37 | "AI Lead Qualification & Nurturing" slugs to `ai-lead-qualification-and-nurturing` |
| Services.SlugOfGeneratedMedia | src/pages/Services.tsx:50 | "AI-Generated Image & Video Assets" slugs to `ai-generated-image-and-video-assets` |
| Services.SlugOfChatbots | src/pages/Services.tsx:63 | "AI Chatbots" slugs to `ai-chatbots` |
| Services.SlugOfContentAutomation | src/pages/Services.tsx:76 | "Content Automation" slugs to `content-automation` |
| Services.SectionIdsAreSlugs | src/pages/Services.tsx:302-306 | each section id is the slug of its service's title |
| Services.SectionIdsMatchJsonLd | src/pages/Services.tsx:164-208 | each JSON-LD URL's fragment is the slug of that service's title |
| Services.SectionIdIff | src/pages/Services.tsx:302-306 | an id names a section iff it is one of the five ids |
| Services.VisualFor | src/pages/Services.tsx:363-399 | the visual chosen for a title; its contract is carried by Services.CarouselsNonEmpty, Services.IconIff, Services.AudioOnlyForVoiceAgent and Services.EveryServiceHasVisual |
| Services.CarouselsNonEmpty | src/pages/Services.tsx:90-107 | each carousel the page mounts gets a non-empty list and a 3000 ms interval |
| Services.IconIff | src/pages/Services.tsx:363-399 | the gradient icon is shown iff the title is none of the five compared titles |
| Services.AudioOnlyForVoiceAgent | src/pages/Services.tsx:371-386 | only the voice-agent overlay gets its own audio file |
| Services.EveryServiceHasVisual | src/pages/Services.tsx:363-389 | no service of the page falls back to the icon |
| Anchors.Target | src/pages/Home.tsx:326-333 | a card or project title mapped to a non-empty id links to `/services#id`, anything else to `/services` (also src/pages/Portfolio.tsx:247-254) |
| Anchors.Fragment | src/pages/Portfolio.tsx:250-253 | a recovered fragment rebuilds its route |
| Anchors.FragmentOfTarget | src/pages/Portfolio.tsx:247-254 | reading the fragment back from a target gives the looked-up id, or none for the fallback |
| Anchors.LandsIff | src/pages/Home.tsx:326-333 | a mapped link lands on a section iff its id is one of the page's section ids |
| Home.EveryCardMapped | src/pages/Home.tsx:14-51 | every card title is a key of the map, so the fallback is never taken |
| Home.CardIdIff | src/pages/Home.tsx:72-78 | the card ids equal the page's section ids, in order, except the media card's |
| Home.CardMatchesSlugIff | src/pages/Home.tsx:73-77 | a card's id is the slug of the matching service title iff it is not the media card |
| Home.MediaCardMisses | src/pages/Home.tsx:75 | the media card's link lands on no section |
| Home.LandsIffNotMedia | src/pages/Home.tsx:72-78 | a card lands on a section iff it is not the media card |
| Portfolio.EveryProjectMapped | src/pages/Portfolio.tsx:10-16 | every project title is a key of the map |
| Portfolio.NotInjective | src/pages/Portfolio.tsx:11-12 | two different projects link to the same section |
| Portfolio.LandsIffNotMedia | src/pages/Portfolio.tsx:10-16 | a project lands on a section iff it is not the media engine |
| Portfolio.BadgeFor | src/pages/Portfolio.tsx:205-209 | the badge is green iff the status is `Completed` |
| Portfolio.AllBadgesGreen | src/pages/Portfolio.tsx:31-67 | every listed project shows a green badge |
| Header.IsActive | src/components/Header.tsx:70 | `location.pathname === item.path`; its contract is carried by Header.ActiveIff and Header.AtMostOneActive |
| Header.PathsDistinct | src/components/Header.tsx:19-25 | the five navigation paths are pairwise distinct |
| Header.AtMostOneActive | src/components/Header.tsx:70 | at most one item is highlighted for any path |
| Header.ActiveIff | src/components/Header.tsx:76 | each navigation path highlights exactly its own item |
| Header.HeaderState.constructor | src/components/Header.tsx:7-15 | menu closed, not scrolled, the scroll handler registered |
| Header.HeaderState.Scroll | src/components/Header.tsx:12-14 | while registered, `scrolled` is `scrollY > 50`, strictly |
| Header.HeaderState.ToggleMenu | src/components/Header.tsx:105 | the menu flag flips |
| Header.Destination | src/components/Header.tsx:41-159 | the route each header link navigates to; its contract is carried by Header.HeaderState.ClickLink |
| Header.ClosesMenu | src/components/Header.tsx:134-159 | only the mobile menu's links close it; its contract is carried by Header.HeaderState.ClickLink |
| Header.HeaderState.ClickLink | src/components/Header.tsx:141-156 | navigates to the link's path; the menu closes iff the link is in the mobile menu |
| Header.HeaderState.Unmount | src/components/Header.tsx:16 | the very handler that was added is removed; no listener remains |
| Relay.ListenPort | proxy-server.cjs:6 | `PORT` when set and non-empty, else 3001 |
| Relay.Forward | proxy-server.cjs:21-27 | the forward is a JSON POST to the upstream URL with the received body unchanged |
| Relay.ContactReply | proxy-server.cjs:16-46 | failure → 500 with the error object; JSON reply → parsed value with the upstream status; otherwise the raw text with the upstream status |
| Relay.Handle | proxy-server.cjs:9-51 | every reply allows any origin; the preflight gets 204; the contact route gets `ContactReply`; health gets 200 with its fixed object |
| Relay.NotFoundIff | proxy-server.cjs:16-51 | only the two routes and the preflight are answered with something other than the 404 page |
| Relay.StatusIgnoresParse | proxy-server.cjs:35-41 | the relayed status does not depend on parseability and is 2xx iff the upstream was reached with 2xx |
| Relay.TextPassesThrough | proxy-server.cjs:38-41 | a non-JSON reply is relayed verbatim |

## Left out

- Timing: the 3000, 300, 400 and 600 ms delays are labels of events, not time. Timers fire when the corresponding method is called, in any order the preconditions allow.
- React batching and render scheduling are not modelled. A handler sees the state of the latest render. In PhotoAudioOverlay every press is taken to happen in a render of its own.
- ImageCarousel.Carousel.constructor, MediaCarousel.Carousel.constructor: require at least one item. With an empty list the source computes `% 0` (NaN) and reads `items[0]` (undefined). Both call sites on the Services page pass non-empty lists (`Services.CarouselsNonEmpty`).
- A preview opened on an empty or missing image URL is not rendered, so it cannot be closed. The model keeps that state reachable but defines no event that leaves it.
- The buttons' `disabled` and `pointer-events` attributes are not modelled as blocking clicks. The handlers' own `modalOpen` guards are modelled.
- PhotoAudioOverlay: a zero bar width, a NaN duration, IEEE rounding and a duration that changes after mount are not modelled. Reals stand for doubles, and a duration of 0 stands for every falsy duration.
- PhotoAudioOverlay: `getElementById('audio-progress-bar')` finds the first bar in the document. The model is given the bar's geometry instead.
- PhotoAudioOverlay: whether `play()` succeeds is not modelled. The element's play and pause events are inputs.
- AudioWaveformPlayer is not part of this model. Its play/pause signal is the input of `MediaCarousel.Carousel.SetPlaying`.
- Contact: the scroll-to-form and focus effect is DOM geometry. Browser validation of the email and tel formats is not modelled. Console logging is left out, and so is the JSON text encoding of the body: the body is the form data value.
- Relay: express routing details such as case-insensitive paths, trailing slashes and HEAD requests are not modelled. CORS header details beyond `Access-Control-Allow-Origin: *` are left out, and so is `express.json()` body parsing. The upstream fetch is an input, and JSON parsing is a function parameter.
- Services: the slug lower-cases ASCII letters only. JavaScript's Unicode `toLowerCase` is not modelled; every title on the site is ASCII.
- Home and Portfolio: the lookups use the tables' own keys. Inherited `Object.prototype` properties, which a title such as "toString" would hit, are not modelled.
- ImageCarousel.Carousel, MediaCarousel.Carousel: the image or item list and the interval are fixed at mount. Prop changes after mount, which would re-run the effects that list `images.length`/`items.length` and `interval` as dependencies, are not modelled; the Services page passes constant lists and 3000 ms.
- Anchors.LandsOnSection: says only that a link's fragment is a section id of the services page. Scrolling to that section after navigation is done by code that is not part of this model.
- Unused code: `MediaCarousel` is imported by the Services page but never rendered. It is modelled on its own.
- Presentation: animations, styling, SEO tags and static content are not modelled.
