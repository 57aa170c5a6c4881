# NexRing landing page: the stateful and geometric core

A Dafny model of the three pieces of real logic on the NexRing marketing landing page:

- **Card carousel** (`carousel.dfy`, module `Carousel`). The inner window width is classified into a desktop, tablet or mobile breakpoint. Each breakpoint has a layout: card width, gap, and cards in view (3.5, 2 or 1). Together with the five cards, this fixes the largest index the arrows move to (2, 3 or 4). The "next" and "previous" arrows move the current index with wrap-around. The card track is shifted left by `index × (card width + gap)`. The component state (`currentIndex`, `breakpoint`) is the class `CarouselState`, whose handlers are methods. Navigation, layout and offset are pure functions with lemmas. CSS lengths that mix `vw` and `rem` are modelled exactly, as a pair of reals.
- **Biomarker accordion** (`accordion.dfy`, module `Accordion`). There are sixteen panels and one nullable open index. A click on a panel closes it if it is open and otherwise opens it alone. The component state is the class `BiomarkerAccordion`. The render mapping over the panels is a function. The proofs show that every rendering expands at most one panel, and exactly one when a valid index is open.
- **Connection diagram** (`diagram.dfy`, module `Diagram`). A constant mapping links eight lifestyle markers to ten blood markers. Rows are laid out on `max(8, 10) = 10` rows of 10% each. Each link becomes a cubic curve from the left edge of the 100×100 view box at its lifestyle row's centre to the right edge at its blood marker's centre. Every curve carries a React key `i-j`. All of this is pure. `ROW_PCT = 100 / 10` is exact, so `real` (exact rationals) models the arithmetic without rounding.

The index is not clamped when the breakpoint changes. This is modelled as written and proved about the model (`OutOfRangeRecovery`, `ResizeLeavesIndexOutOfRange`). After the index reaches 4 on a phone, a resize to desktop width leaves it above the desktop maximum of 2. One "next" then recovers to 0. "Previous" walks down through 3, which is still out of range.

Toggling the same panel twice restores the earlier state only when no *other* panel was open before. If panel `j` was open, two clicks on panel `i` leave every panel closed (`ToggleTwiceForgetsOther`).

`ToggleAccordion` requires a panel index in 0..15, because every click handler passes the position of a rendered panel. The pure `Toggle` has no such requirement.

## Model

| member | source | states |
|---|---|---|
| `Carousel.CardIdsDistinct` | src/components/CardCarousel.jsx:7-43 | the five cards used as React keys have pairwise distinct ids |
| `Carousel.Classify` | src/components/CardCarousel.jsx:51-60 | every width gets exactly one breakpoint: desktop iff width ≥ 1024, tablet iff 768 ≤ width < 1024, mobile iff width < 768 |
| `Carousel.ClassifyMonotone` | src/components/CardCarousel.jsx:51-60 | a wider viewport never gives a narrower breakpoint |
| `Carousel.Config` | src/components/CardCarousel.jsx:70-74 | every layout has a positive card width in vw, a positive gap in rem, and at least one card in view |
| `Carousel.MaxIndex` | src/components/CardCarousel.jsx:79 | the largest index plus the whole cards in view equals the number of cards; 2 on desktop, 3 on tablet, 4 on mobile; always a card position above 0 |
| `Carousel.MaxIndexAntitone` | src/components/CardCarousel.jsx:70-74 | a wider breakpoint never has a larger maximum index |
| `Carousel.Next` | src/components/CardCarousel.jsx:78-84 | the next index is one step forward or 0; it wraps to 0 exactly when the index is at or past the maximum; it is always in range from a non-negative index |
| `Carousel.Prev` | src/components/CardCarousel.jsx:86-93 | the previous index is one step back or the maximum; it steps back exactly when the index is positive; it preserves the range |
| `Carousel.NextPrevInverse` | src/components/CardCarousel.jsx:78-93 | within the range, prev(next(i)) = i and next(prev(i)) = i |
| `Carousel.StepsForwardCount` | src/components/CardCarousel.jsx:78-84 | k "next" presses that do not reach the end add k to the index |
| `Carousel.StepsBackwardCount` | src/components/CardCarousel.jsx:86-93 | k "previous" presses that do not reach 0 subtract k from the index |
| `Carousel.StepsCycle` | src/components/CardCarousel.jsx:78-93 | max + 1 presses of either arrow return to the starting index |
| `Carousel.OutOfRangeRecovery` | src/components/CardCarousel.jsx:76-93 | from an index above the range, "next" gives 0, while "previous" stays above the range for i − max − 1 presses and reaches the maximum after i − max presses |
| `Carousel.Offset` | src/components/CardCarousel.jsx:139 | index 0 does not shift the track; the step per index is stated by `OffsetStep` and `OffsetAlignsCard` |
| `Carousel.OffsetStep` | src/components/CardCarousel.jsx:139 | each further index moves the track left by exactly one card width plus one gap, in both its vw and rem parts |
| `Carousel.OffsetAlignsCard` | src/components/CardCarousel.jsx:135-147 | in the flex track, where card k starts after k cards each followed by one gap (`CardLeft`), the offset of index i brings card i exactly to the track's left edge |
| `Carousel.OffsetAdditive` | src/components/CardCarousel.jsx:139 | the shift is linear in the index: offset(i + j) = offset(i) + offset(j) |
| `Carousel.OffsetMovesLeft` | src/components/CardCarousel.jsx:139 | on every breakpoint a larger index shifts the track strictly further left, in both its vw and rem parts |
| `Carousel.CarouselState.constructor` | src/components/CardCarousel.jsx:46-47 | the initial state is index 0 on desktop, which is in range and satisfies the invariant 0 ≤ index ≤ 4 |
| `Carousel.CarouselState.HandleResize` | src/components/CardCarousel.jsx:51-60 | the breakpoint becomes the classification of the width, the index is left unchanged (not clamped), and the invariant 0 ≤ index ≤ 4 is kept |
| `Carousel.CarouselState.HandleNext` | src/components/CardCarousel.jsx:78-84 | the index becomes next of the old index for the current breakpoint, the breakpoint is unchanged, the invariant 0 ≤ index ≤ 4 is kept, and the index is in range afterwards |
| `Carousel.CarouselState.HandlePrev` | src/components/CardCarousel.jsx:86-93 | the index becomes prev of the old index, the breakpoint is unchanged, the invariant 0 ≤ index ≤ 4 is kept, and an in-range index stays in range |
| `Carousel.CarouselState.TrackOffset` | src/components/CardCarousel.jsx:136-140 | the track offset is the offset of the current index in the current layout; no shift at index 0 |
| `Carousel.Pitch` | src/components/CardCarousel.jsx:139 | defines the step `(cardWidth + gap)` between neighbouring cards; its use is stated by `OffsetStep`, `OffsetAlignsCard`, `OffsetAdditive` and `OffsetMovesLeft` |
| `Carousel.ResizeLeavesIndexOutOfRange` | src/components/CardCarousel.jsx:50-93 | index 4 on mobile survives a resize to desktop above the maximum of 2; "previous" then gives 3, still out of range; "next" then gives 0 |
| `Accordion.AtMostOneOpen` | src/components/BiomarkerSection.jsx:79-89 | one open index can only open one panel |
| `Accordion.Toggle` | src/components/BiomarkerSection.jsx:41-43 | after a click on panel i, panel i is open iff it was closed before, every other panel is closed, and a click on a listed panel leaves a valid open index |
| `Accordion.ToggleTwice` | src/components/BiomarkerSection.jsx:41-43 | two clicks on the same panel restore the state when nothing or that panel was open |
| `Accordion.ToggleTwiceForgetsOther` | src/components/BiomarkerSection.jsx:41-43 | when another panel was open, two clicks on panel i leave every panel closed |
| `Accordion.RenderPanel` | src/components/BiomarkerSection.jsx:66-106 | a panel shows its own title, count and details; it shows the minus icon iff its grid is expanded, and it is expanded iff it is the open one |
| `Accordion.Render` | src/components/BiomarkerSection.jsx:60-108 | one rendered panel per biomarker, in order; panel k is expanded iff the open index is k |
| `Accordion.RenderExpandsAtMostOne` | src/components/BiomarkerSection.jsx:60-90 | a rendering expands exactly one panel when the open index names a panel, and none otherwise |
| `Accordion.BiomarkerAccordion.constructor` | src/components/BiomarkerSection.jsx:32 | initially no panel is open |
| `Accordion.BiomarkerAccordion.ToggleAccordion` | src/components/BiomarkerSection.jsx:41-43 | the open index becomes the toggle of the old one, and it stays null or a valid panel index |
| `Accordion.BiomarkerAccordion.Panels` | src/components/BiomarkerSection.jsx:60-108 | the current rendering expands exactly one panel when a panel is open and none otherwise |
| `Accordion.IsOpen` | src/components/BiomarkerSection.jsx:79-89 | defines the per-panel open test `openIndex === k` that picks both the icon and the grid state; its properties are stated by `AtMostOneOpen`, `Toggle` and `RenderExpandsAtMostOne` |
| `Diagram.ConnectionsWellFormed` | src/components/HorizontalScrollSection.jsx:27-36 | every start is a lifestyle row and every end a blood-marker row; the starts are exactly 0..7 in order, one per lifestyle marker |
| `Diagram.Max` | src/components/HorizontalScrollSection.jsx:166 | the maximum is one of its arguments and bounds both |
| `Diagram.TotalRows` | src/components/HorizontalScrollSection.jsx:166 | the row count bounds both columns' lengths and is 10 |
| `Diagram.RowPct` | src/components/HorizontalScrollSection.jsx:167 | the row height times the row count is exactly 100, so the row height is 10 |
| `Diagram.RowCenter` | src/components/HorizontalScrollSection.jsx:279-280 | the centre of every row lies strictly inside the 0–100 view box |
| `Diagram.RowCenterIsLabelMidpoint` | src/components/HorizontalScrollSection.jsx:265-269 | the curve height of a row is the midpoint of its label box, and every label box lies inside the diagram |
| `Diagram.RowTop` | src/components/HorizontalScrollSection.jsx:266 | defines the top edge of label row idx, the rows being stacked `${ROW_PCT}%` high; its relation to the curve heights is stated by `RowCenterIsLabelMidpoint` |
| `Diagram.RowCenterIncreasing` | src/components/HorizontalScrollSection.jsx:279-280 | row centres are strictly increasing in the row index |
| `Diagram.Decimal` | src/components/HorizontalScrollSection.jsx:284 | the decimal rendering of an index is a non-empty string of digits |
| `Diagram.ParseDecimalOfDecimal` | src/components/HorizontalScrollSection.jsx:284 | reading a decimal rendering back gives the original number |
| `Diagram.Key` | src/components/HorizontalScrollSection.jsx:284 | defines the key template `${i}-${j}` from the decimal renderings; its injectivity is stated by `KeyInjective` |
| `Diagram.KeyInjective` | src/components/HorizontalScrollSection.jsx:284 | two keys `i-j` are equal only for equal index pairs |
| `Diagram.LinkCurve` | src/components/HorizontalScrollSection.jsx:279-285 | defines the curve of one link: `startY`/`endY` as row centres and the `d` path `M 0,startY C 50,startY, 50,endY, 100,endY`; its geometry is stated by `FlowPathGeometry` |
| `Diagram.MakePath` | src/components/HorizontalScrollSection.jsx:283-291 | defines the path element of end j of group i: its key and its curve; its properties are stated by `GroupPaths`, `FlowPathGeometry` and `FlowPathKeysDistinct` |
| `Diagram.GroupPaths` | src/components/HorizontalScrollSection.jsx:278-293 | a group draws one path per end, in order, with its key and its curve |
| `Diagram.PathsFrom` | src/components/HorizontalScrollSection.jsx:276-293 | defines the nested `connections.map` / `conn.ends.map` as the concatenation of the groups' paths, the group index counting up; its properties are stated by `PathsFromShape`, `PathsFromContains` and `PathsFromIndicesDistinct` |
| `Diagram.FlowPaths` | src/components/HorizontalScrollSection.jsx:276-293 | defines every path of the diagram, from the mapping as written; its properties are stated by `FlowPathCount`, `FlowPathGeometry`, `FlowPathKeysDistinct` and `EveryEndDotReached` |
| `Diagram.PathsFromShape` | src/components/HorizontalScrollSection.jsx:276-293 | the path count is the total number of ends; every path is the path of an existing end of an existing group |
| `Diagram.PathsFromContains` | src/components/HorizontalScrollSection.jsx:276-293 | the path of every end of every group is drawn |
| `Diagram.PathsFromIndicesDistinct` | src/components/HorizontalScrollSection.jsx:276-293 | no two drawn paths share their pair of loop indices |
| `Diagram.StartDots` | src/components/HorizontalScrollSection.jsx:295-300 | one start dot per group, on the left edge at the centre of its lifestyle row (y = RowCenter(start)); the dots run strictly top to bottom in group order |
| `Diagram.EndDots` | src/components/HorizontalScrollSection.jsx:305-316 | one end dot per blood marker, on the right edge at the centre of its row (y = RowCenter(b)); the dots run strictly top to bottom, so no two coincide |
| `Diagram.FlowPathCount` | src/components/HorizontalScrollSection.jsx:276-293 | the diagram draws 20 paths, one per listed end |
| `Diagram.FlowPathGeometry` | src/components/HorizontalScrollSection.jsx:279-285 | every path starts at its group's start dot (x = 0) and ends at its blood marker's end dot (x = 100); the start height is the centre of the group's lifestyle row and the end height the centre of the linked blood marker's row; both control points are at x = 50, level with the respective endpoint; both endpoints lie strictly inside the view box |
| `Diagram.FlowPathKeysDistinct` | src/components/HorizontalScrollSection.jsx:284 | the keys of the drawn paths are pairwise distinct |
| `Diagram.EveryEndDotReached` | src/components/HorizontalScrollSection.jsx:305-316 | with the data as written, every blood marker 0..9 is the end of some connection, and the path of that end reaches its dot |

## Left out

- The animation timelines and scroll triggers in all sections are left out. They configure a third-party engine with floating-point easing whose source is not part of this model. The same holds for the Footer, RingSection, FeaturesSection and HeroVideo components as wholes.
- The header menu toggle and the scroll-to-top button are left out. Each is a single boolean driven by DOM events around a `window.scrollTo` call.
- The page layout and composition files are left out: fonts, metadata and framework composition.
- Window events are not modelled. The width that `HandleResize` classifies is a parameter, and adding and removing the resize listener is not modelled. The mount sequence is the constructor followed by `HandleResize`.
- React state batching is not modelled. `handleNext` and `handlePrev` test the rendered index. Their step branches update through a functional setter (`prev + 1`, `prev - 1`), while their wrap branches set a constant (0, or the maximum index). The model treats each click as one complete update of the current index. Several clicks applied before a re-render are not modelled.
- Rendering to strings is not modelled. The SVG `d` attribute is modelled as the curve's points, not as the formatted string. The `calc()` transform is modelled as its vw/rem coefficients, not as the CSS text. Class names, icon sizes and the rendering of card images are omitted.
- Each card carries its id, title and image path only. Its description and colour class are static display text that no logic reads.
- The `count` fields of the biomarker panels are carried as data only. They do not equal the number of listed details, and the source makes no promise relating them.
