# Portfolio page behaviour, modelled in Dafny

The portfolio page's script (`script/main.js`) wires browser events to a
handful of small decision rules and one state machine: the carousel
controller. This project models them:

- `carousel.dfy` (module `Carousel`): the page-size rule for a viewport
  width, wrap-around stepping of the first visible index, the offset that
  layout renders, and the class `Widget`, one carousel, whose methods are
  layout, the two slide steps, the auto-slide start and stop discipline and
  the handlers for button clicks, pointer enter and leave, viewport resize
  and interval ticks. The auto-slide interval is modelled by its id: the
  value held in `autoSlideInterval` (`handle`), the ids the host still runs
  (`liveTimers`) and the host's next id (`nextHandle`). The invariant
  `Widget.Valid` says that the index stays in `[0, totalItems)`, the rendered
  offset and buttons agree with the index and the width last laid out, and at most one
  interval runs, the held one, and only for more than three items.
- `theme.dfy` (module `Theme`): the dark class and the stored preference,
  the load-time default and the toggle.
- `modal.dfy` (module `Modal`): the video test on a panel's media source,
  the link-button visibility test, opening and closing, and the Escape rule.
- `shortcuts.dfy` (module `Shortcuts`): the number-key table and its guard.
- `navigation.dfy` (module `Navigation`): the loop that marks the nav link
  of the section in view as active, over an array of links updated in place.
- `options.dfy` (module `Options`): the `Option` datatype.

Where the code behaves differently from what one might expect, the model
follows the code:

- Layout never resets or clamps `currentIndex`. In static mode (all items
  fit) it only renders offset 0; after a resize that makes pages wider the
  index can stay past the new maximum (`WideningResizeOverscrolls`), and
  there next and prev are no longer inverse (`NextPrevNotInverseBeyondMax`).
  What does hold always is `0 <= currentIndex < totalItems`.
- Auto-slide is gated on more than three items, not on the page size. As
  a page holds at most three items, a running interval implies the carousel
  is not static, so every tick moves the index (`Widget.Tick`).
- Two items are static only from width 768 up; below it one item fits per
  page and the buttons are shown (`TwoItemsScenario`).
- A resize restarts auto-slide even while the pointer is over the carousel.
- The page size is read from the viewport afresh by every step, not kept
  from the last resize: a tick or click between a width change and its
  resize event already steps with the new page size
  (`WidenedBeforeResizeScenario`). The model keeps the width the last
  layout used (`renderedWidth`) apart from the current one (`width`).
- A panel without a `data-image` attribute makes the video test throw, so
  clicking it leaves the modal as it was.
- A stored theme of `""` is falsy and falls back to dark, like a missing one.
- A section without an `id` attribute makes the nav loop look for `#null`.

## Model

| member | source | states |
|---|---|---|
| `Carousel.ItemsPerPage` | script/main.js:235-239 | 3 from width 1024 up, 2 from 768 below 1024, 1 below 768, and nothing else |
| `Carousel.ItemsPerPageMonotone` | script/main.js:235-239 | a wider viewport never gives fewer items per page |
| `Carousel.IsStatic` | script/main.js:247-247 | static mode (all items fit on a page): a single item is always static, more than three items never |
| `Carousel.MaxIndex` | script/main.js:275-275 | the largest first index lies between `totalItems - 3` and `totalItems - 1`, and is at least 1 exactly when the carousel is not static |
| `Carousel.AutoSlidingIsNeverStatic` | script/main.js:293-297 | with more than three items, the auto-slide gate, no width makes the carousel static, and the maximum index is at least 1 |
| `Carousel.NextIndex` | script/main.js:269-279 | static mode leaves the index unchanged; otherwise from any index at least 0, even one past the maximum, the result lies in `[0, totalItems - itemsPerPage]` |
| `Carousel.PrevIndex` | script/main.js:281-291 | static mode leaves the index unchanged; otherwise the result is at least 0, stays at most the maximum from an index in range, and stays below `totalItems` from an index below it |
| `Carousel.StepsWithinRange` | script/main.js:274-289 | in range, next adds one except from the maximum, which wraps to 0; prev subtracts one except from 0, which wraps to the maximum |
| `Carousel.NextFromBeyondMaxIsZero` | script/main.js:274-277 | from an index past the maximum, next lands on 0 |
| `Carousel.NextPrevInverse` | script/main.js:269-291 | on the valid range, or at any index in static mode, prev undoes next and next undoes prev |
| `Carousel.NextPrevNotInverseBeyondMax` | script/main.js:269-291 | outside the range they are not inverse: 7 items at width 1200, index 6, next then prev gives 4 |
| `Carousel.AdvanceAdd` | script/main.js:274-277 | `a + b` next steps are `a` steps followed by `b` steps |
| `Carousel.AdvanceClosedForm` | script/main.js:274-277 | `n` repeated next steps from an index in range, for `n` up to the maximum, give `i + n` or, once past the maximum, `i + n - (max + 1)` |
| `Carousel.AdvanceCycle` | script/main.js:274-277 | repeated next from an index in range returns to it after exactly `max + 1` steps, not earlier, and the first `max + 1` positions are pairwise distinct |
| `Carousel.AdvancePeriodic` | script/main.js:274-277 | after one full cycle the positions repeat |
| `Carousel.AdvanceFromZero` | script/main.js:274-277 | from 0 the first cycle visits 0, 1, ..., max in order |
| `Carousel.AdvanceStatic` | script/main.js:270-272 | in static mode no number of next steps moves the index |
| `Carousel.SevenItemsAtWideWidth` | script/main.js:235-279 | 7 items at width 1200: pages of 3, maximum 4, next steps give 1, 2, 3, 4, 0 |
| `Carousel.Offset` | script/main.js:247-259 | static mode renders offset 0; otherwise the offset is the index times `100 / itemsPerPage` percent |
| `Carousel.PageWithinTrack` | script/main.js:256-259 | for an index in range the offset is non-negative and the visible page ends at or before the end of the track |
| `Carousel.WideningResizeOverscrolls` | script/main.js:241-260 | index 6 of 7 kept through a resize to width 1200 lies past the maximum and the page runs past the track's end |
| `Carousel.Widget.AtMostOneTimer` | script/main.js:293-302 | under the invariant at most one interval runs, and only for a carousel that is not static at the current or the laid-out width |
| `Carousel.Widget.constructor` | script/main.js:328-329 | set-up with at least one item: index 0, first layout rendered, one interval started exactly when there are more than three items |
| `Carousel.Widget.UpdateCarousel` | script/main.js:241-267 | layout uses the current width; the index is unchanged; static mode renders offset 0, centred, buttons hidden; otherwise buttons shown and the offset for the index; a disabled transition is switched off and one restore is scheduled |
| `Carousel.Widget.TransitionRestored` | script/main.js:262-266 | the delayed callback switches the transition back on |
| `Carousel.Widget.SlideNext` | script/main.js:269-279 | the index becomes `NextIndex` of the old one at the current width; layout is redone unless static, and the invariant is kept |
| `Carousel.Widget.SlidePrev` | script/main.js:281-291 | the index becomes `PrevIndex` of the old one at the current width; layout is redone unless static, and the invariant is kept |
| `Carousel.Widget.StartAutoSlide` | script/main.js:293-298 | with more than three items exactly one interval runs afterwards, a fresh one, whatever ran before; otherwise nothing changes (and nothing was running) |
| `Carousel.Widget.StopAutoSlide` | script/main.js:300-302 | afterwards no interval runs, so a second call changes nothing |
| `Carousel.Widget.NextClick` | script/main.js:310-314 | next step, then with more than three items exactly one fresh interval runs, without them none |
| `Carousel.Widget.PrevClick` | script/main.js:304-308 | prev step, then with more than three items exactly one fresh interval runs, without them none |
| `Carousel.Widget.MouseEnter` | script/main.js:316-316 | no interval runs afterwards |
| `Carousel.Widget.MouseLeave` | script/main.js:317-317 | auto-slide restarts with exactly one fresh interval when there are more than three items |
| `Carousel.Widget.ViewportChanged` | script/main.js:236-237 | the viewport width that every later step reads changes; nothing is laid out, the invariant is kept |
| `Carousel.Widget.Resize` | script/main.js:319-326 | index kept, layout for the current page size with the transition off, auto-slide restarted |
| `Carousel.Widget.Tick` | script/main.js:296-296 | a tick of the running interval steps next and always moves the index |
| `Carousel.Mount` | script/main.js:221-233 | a container with no items gets no controller (it is hidden); otherwise a fresh valid controller at index 0 |
| `Theme.InitialTheme` | script/main.js:24-26 | the theme used on load is never empty; it is the stored value unless that is missing or empty, and it is dark exactly when nothing (or `""` or `"dark"`) is stored |
| `Theme.ToggledTheme` | script/main.js:28-31 | the toggle applies `"dark"` or `"light"`, dark exactly when the page is not dark now |
| `Theme.ToggleTwiceRestoresDarkness` | script/main.js:28-31 | toggling twice applies a theme that is dark exactly when the page was |
| `Theme.ThemeState.constructor` | script/main.js:24-26 | on load the stored theme is the initial one and the page is dark exactly when nothing, `""` or `"dark"` was stored |
| `Theme.ThemeState.ApplyTheme` | script/main.js:20-23 | the dark class is set exactly for `"dark"` and the theme is stored unchanged |
| `Theme.ThemeState.Toggle` | script/main.js:28-31 | the dark class flips and the stored theme is the other one |
| `Modal.IsVideo` | script/main.js:116-117 | a source treated as video is at least four characters long and ends in `4` or `m` |
| `Modal.ShowsProjectLink` | script/main.js:151-151 | a link that shows the button is present and is neither empty nor the bare `#` |
| `Modal.EndsWithConcat` | script/main.js:116-117 | the suffix test holds for anything followed by the suffix, and a string that passes splits as a prefix followed by the suffix |
| `Modal.VideoExtensions` | script/main.js:116-117 | names ending in `.mp4` or `.webm` are videos; `.png` and the upper-case `.MP4` are not |
| `Modal.MediaFor` | script/main.js:116-142 | the modal shows a video element exactly for a video source, an image element otherwise, with the panel's source |
| `Modal.ProjectLinkCases` | script/main.js:151-156 | the link button is shown exactly for a present link that is neither empty nor `"#"` |
| `Modal.OpenAfterKey` | script/main.js:183-185 | after a key press the modal is open exactly when it was open and the key was not Escape |
| `Modal.ModalView.OpenModal` | script/main.js:114-160 | without an image attribute nothing changes; otherwise media, title and description come from the panel, the link button follows the visibility rule, its href changes only when shown, the modal opens and the body is locked |
| `Modal.ModalView.CloseModal` | script/main.js:169-177 | the modal closes and the body is unlocked |
| `Modal.ModalView.KeyDown` | script/main.js:183-185 | Escape closes an open modal; any other key, or a closed modal, changes nothing |
| `Shortcuts.ShortcutTarget` | script/main.js:98-110 | a key press jumps exactly for the keys 1 to 5 without Meta or Ctrl, and always to a `#` selector |
| `Shortcuts.ShortcutTargetsDistinct` | script/main.js:98-104 | different shortcut keys jump to different sections |
| `Shortcuts.DigitOneGoesToAbout` | script/main.js:98-110 | key 1 goes to `#about`; with Ctrl or for key 6 nothing happens |
| `Navigation.SectionHref` | script/main.js:194-198 | the href looked for is `#` followed by the section's id, and `#null` for a section without one |
| `Navigation.Retoggled` | script/main.js:195-200 | every link keeps its href and is active exactly when its href is the section's |
| `Navigation.ActiveCountAfterRetoggle` | script/main.js:195-200 | after the update as many links are active as carry the section's href |
| `Navigation.DistinctHrefCount` | script/main.js:195-200 | among links with distinct hrefs an href occurs at most once, and exactly once when some link carries it |
| `Navigation.AtMostOneActive` | script/main.js:195-200 | with distinct hrefs at most one link is active, exactly one when some link names the section |
| `Navigation.SetActiveLinks` | script/main.js:195-200 | the in-place loop leaves the links equal to `Retoggled` of the old ones |

## Left out

- The preloader and the keyboard-hint popup: pure timing effects with no decision in them.
- Header hiding, the scroll animations and the choice of which section is in view: these come from intersection observers, which are browser geometry. Only the link loop run for a section in view is modelled.
- The back-to-top button: its threshold compares floating-point scroll positions; it and all smooth scrolling are left out.
- The mobile menu (a class toggle) and what a shortcut or anchor click does with its target (scrolling into view and closing the menu): DOM effects without logic beyond the lookup that is modelled.
- Real timers: the 5000 ms period of the interval, the 50 ms restore of the transition and the 50 ms reveal of the modal content are not timed; an interval is an id that is running or not, the restore is the explicit `Widget.TransitionRestored` call, and the modal content reveal is not modelled.
- DOM mutation: classes, styles and element replacement are reduced to the flags and values they encode (offset, buttons shown, centred, transition on, modal open, media kind, link shown).
- Local storage is a single optional string field, not persistence.
- Event-listener registration: each handler is a method that the caller sequences; all callbacks run on one event loop, so there is no concurrency to model.
- Interval ids: the host's counter is modelled per carousel starting at 1, while a browser shares one counter across the page.
- Missing prev or next buttons: the source registers click listeners on both without a null check, so a carousel without them fails at set-up; the model assumes both exist.
- Carousel.Offset: computed with exact real arithmetic; the source's floating-point `100 / itemsPerPage` rounding is not modelled.
- Title, description and key values reach the model as strings already read; a shortcut key that names a built-in object property is not modelled (no key value the browser produces does).
