# Portfolio page controllers, modelled in Dafny

The portfolio site (`app/page.tsx`) is mostly static markup. It has two small client-side controllers with behaviour worth stating:

- **Active-section tracking.** Two copies exist: the top navigation bar (`Navigation`) and the side dot navigation (`SideNavigation`). Each copy listens to scroll events. It computes a probe 100 units below the vertical scroll offset and scans its own ordered list of section ids. The first section whose element is rendered and whose box `[offsetTop, offsetTop + offsetHeight)` contains the probe becomes active. If no section matches, the previous active id stays. The top bar scans 4 ids and the side navigation scans 5. The extra id is `personal-projects`.
- **Drag-to-scroll carousel** (`LimeCompanySwiper`). A mouse down or touch start records the pointer position relative to the container and the container's `scrollLeft`. A move while dragging sets `scrollLeft` to that snapshot minus twice the pointer's travel. Mouse up, mouse leave and touch end stop the drag. The press and move handlers return at once while the container reference is null; the release handlers have no guard and only clear `isDragging`.

Files:

- `wrappers.dfy`: `Option`.
- `scroll_tracker.dfy`: module `ScrollTracker`. It has the pure scan (`FirstHit`, `NextActive`) and the loop with `break` that the page runs (`ScanSections`), proved equal to the pure scan. It also has the component state as the class `SectionTracker`, with one named constructor per navigation component, and lemmas about the scan.
- `drag_scroller.dfy`: module `DragScroller`. It has the carousel as a pure state machine (`Swiper`, `Step`, `Run`) and the component as the class `LimeCompanySwiper`, whose handlers mutate the component fields and the container's `scrollLeft` in place. Each handler is proved to do exactly what `Step` does. Lemmas about `Step` and `Run` state the gesture's properties.

Modelling choices:

- Coordinates and offsets are `int`. React's `setState` is an immediate assignment.
- `document.getElementById` is a `map<string, Box>`; an id that is not a key has no element.
- `containerRef.current`, the carousel's `div`, is the class `ContainerElement` with its `offsetLeft` and its live `scrollLeft`. The swiper holds it as a nullable reference, and `null` stands for a component that is not mounted yet.
- Each handler takes the event's `pageX`. For touch events this is the `pageX` of `touches[0]`.

## Model

| member | source | states |
|---|---|---|
| `ScrollTracker.FirstHit` | app/page.tsx:34-45 | the scan stops at the least index whose element exists and whose box contains the probe (lower bound inclusive, upper exclusive); it finds nothing exactly when no listed section contains the probe |
| `ScrollTracker.NextActive` | app/page.tsx:30-46 | the new active id is either the previous one or one of the listed ids; when no present section contains `scrollY + 100` the previous id is kept (no reset to `about`); a changed id is one whose box contains the probe |
| `ScrollTracker.ScanSections` | app/page.tsx:126-141 | the `for` loop with `break`, skipping missing elements, returns exactly the id that `NextActive` specifies |
| `ScrollTracker.SelectsFirstHit` | app/page.tsx:40-42 | if section i contains the probe and no earlier present section does, section i's id becomes active |
| `ScrollTracker.EarlierSectionWins` | app/page.tsx:135-137 | when two listed sections both contain the probe, the later one is not selected: list order decides overlaps |
| `ScrollTracker.SectionListsDistinct` | app/page.tsx:31 | both components' section lists (line 31 and lines 107-113) name each id once, so `EarlierSectionWins` applies to them |
| `ScrollTracker.MissingNeverSelected` | app/page.tsx:35-36 | a section whose element lookup fails is never the section the scan stops at |
| `ScrollTracker.SkipMissing` | app/page.tsx:130-131 | scanning only the ids whose element exists gives the same active id as scanning the whole list |
| `ScrollTracker.HandleScrollIdempotent` | app/page.tsx:125-141 | handling the same scroll position and layout twice gives the same active id as handling it once |
| `ScrollTracker.ActiveStaysListed` | app/page.tsx:104-141 | starting from a listed id, the active id stays in the component's own section list after any sequence of scroll events |
| `ScrollTracker.NavigationNeverPersonalProjects` | app/page.tsx:17-46 | the top navigation bar starts at `about`, and after any scroll events its active id is never `personal-projects`, which its list lacks |
| `ScrollTracker.ProbeScenario` | app/page.tsx:32-43 | with about at [0, 800) and skills at [800, 1700), scroll offset 750 gives probe 850 and selects skills |
| `ScrollTracker.SectionTracker.Navigation` | app/page.tsx:17 | the top bar scans about, skills, projects and contact, and starts with `about` active |
| `ScrollTracker.SectionTracker.SideNavigation` | app/page.tsx:105-113 | the side navigation scans about, skills, projects, personal-projects and contact, and starts with `about` active |
| `ScrollTracker.SectionTracker.HandleScroll` | app/page.tsx:29-46 | the scroll listener keeps the active id within the section list and sets it to `NextActive` of the previous id |
| `DragScroller.Step` | app/page.tsx:192-231 | no event mounts or unmounts the container or moves its left edge; of the seven handlers only a move changes its scroll offset; only a press enters dragging; every release leaves dragging |
| `DragScroller.PressRecordsSnapshot` | app/page.tsx:192-197 | a press with the container present sets dragging, `startX = pageX - offsetLeft` and the snapshot to the container's `scrollLeft`, and does not scroll |
| `DragScroller.MoveScrollsBySensitivity` | app/page.tsx:199-205 | a move while dragging sets the container's `scrollLeft` to `snapshot - (x - startX) * 2` and changes no drag-state field |
| `DragScroller.InertMove` | app/page.tsx:200 | a move when not dragging, or with no container, changes nothing |
| `DragScroller.DragDisplacement` | app/page.tsx:215-227 | pressing at scroll offset S and moving by d units yields scroll offset `S - 2d`, independent of the container's left edge |
| `DragScroller.MoveBackRestores` | app/page.tsx:222-227 | a move back to the press position restores the container's scroll offset exactly, for mouse and touch alike |
| `DragScroller.IdleUntilPress` | app/page.tsx:207-213 | when not dragging, any sequence of moves and releases without a press changes nothing |
| `DragScroller.ReleaseEndsDrag` | app/page.tsx:229-231 | after mouse up, mouse leave or touch end, all later events up to a new press leave the state as the release left it |
| `DragScroller.RunKeepsConsistent` | app/page.tsx:192-231 | every event keeps the swiper from dragging without a container: only a press enters dragging, and a press needs the container (line 193) |
| `DragScroller.NeverDraggingUnmounted` | app/page.tsx:178-231 | from the initial state, no sequence of events leaves the swiper dragging while the container is null |
| `DragScroller.LastMoveWins` | app/page.tsx:203-204 | during a drag, the scroll offset after several moves depends only on the last move, because each move computes it from the snapshot |
| `DragScroller.LimeCompanySwiper.constructor` | app/page.tsx:178-181 | the component starts idle with `startX` and the snapshot both 0 |
| `DragScroller.LimeCompanySwiper.HandleMouseDown` | app/page.tsx:192-197 | with a container: dragging, `startX = pageX - offsetLeft`, snapshot = container `scrollLeft`; without one: nothing changes; in both cases the new state is `Step` of the old state |
| `DragScroller.LimeCompanySwiper.HandleMouseMove` | app/page.tsx:199-205 | while dragging with a container, sets the container's `scrollLeft = snapshot - (x - startX) * 2`; otherwise nothing changes |
| `DragScroller.LimeCompanySwiper.HandleMouseUp` | app/page.tsx:207-209 | leaves dragging and changes nothing else |
| `DragScroller.LimeCompanySwiper.HandleMouseLeave` | app/page.tsx:211-213 | leaves dragging and changes nothing else |
| `DragScroller.LimeCompanySwiper.HandleTouchStart` | app/page.tsx:215-220 | the same as a mouse down, at the first touch's `pageX` |
| `DragScroller.LimeCompanySwiper.HandleTouchMove` | app/page.tsx:222-227 | the same as a mouse move, at the first touch's `pageX` |
| `DragScroller.LimeCompanySwiper.HandleTouchEnd` | app/page.tsx:229-231 | leaves dragging and changes nothing else |

## Left out

- `ProgressBar` (app/page.tsx:80-102): it uses floating-point division, and its denominator `scrollHeight - innerHeight` can be zero, which the code does not handle.
- `scrollToSection` (app/page.tsx:19-27, 115-123): a smooth-scroll DOM side effect with no state of its own.
- Registering and removing the scroll listeners (app/page.tsx:48-49, 143-144), React rendering and batching, and stale closures. State updates are treated as immediate, so a handler sees the values set by the previous handler.
- `e.preventDefault()` in the mouse-move handler (app/page.tsx:201): it suppresses the browser's default behaviour and has no effect on the model's state.
- The browser clamping `scrollLeft` to the scrollable range. The code never clamps, so the model's `scrollLeft` is the value the handler assigns, which may be negative or past the end.
- The browser's own scrolling of the container between events, by wheel, trackpad or native touch panning (the container scrolls natively and the touch-move handler does not suppress it). The model changes `scrollLeft` only in the move handlers.
- Fractional coordinates: the browser reports numbers, and the model uses integers.
- Mounting: the container reference is fixed when the component is built. Either it is present or it is null.
- `Home` and all page content (app/page.tsx:281-996), styling and cursor classes, and `app/layout.tsx` (metadata, fonts, root layout): static data.
