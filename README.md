# Dental clinic site: testimonial carousel and services list

The clinic's site is a single page of mostly static sections. Two of its
components keep state, and this project models both:

- **The testimonial carousel** (`Testimonials` module, `testimonials.dfy`).
  It holds a fixed list of five reviews and a current index with a
  direction. The page size of 1, 2 or 3 cards follows the viewport width.
  The "previous" and "next" arrows move the index one step around the list.
  The cards on screen are the window of page-size reviews starting at the
  current index, wrapping past the end of the list. Each card draws as many
  stars as the review's rating.
- **The services list** (`Services` module, `services.dfy`). It holds a
  fixed list of fifteen services and one flag, `showAll`. Collapsed, only
  the first three services are drawn. Expanded, all of them are drawn, and
  the later ones get a staggered `transitionDelay` that grows by 150 ms per
  card. A button flips the flag. It scrolls back to the section when it
  collapses the list, and while the list is collapsed its label counts the
  hidden services.

State that the component updates in place becomes a class with methods:
`Testimonials.Carousel` and `Services.ServicesSection`. What the page
computes from that state becomes pure functions with lemmas: the page
size, the step, the window and its keys, the stars, the card list, the
opacity class, the delay and the label. JavaScript's `%` truncates toward
zero, so the step's `%` is modelled explicitly (`JsRem`). The window and
its keys use Dafny's `%`: they divide only non-negative values, where the
two operators agree (`JsRemOfNonNegative`). The viewport width is a
parameter. `None` stands for rendering without a window.

The carousel has only the two arrow buttons. It stores the raw step
(`-1` or `+1`, and `0` before the first click) as the direction.

One observation from the proofs: `Services.RenderedAlwaysVisible` shows
that every card that is drawn carries the fully visible class. A later
card is dropped from the list before its class is chosen, so the
faded-out class is never drawn.

## Model

| member | source | states |
|---|---|---|
| `Testimonials.AllTestimonials` | src/components/TestimonialsSection.tsx:13-59 | the review list is non-empty with exactly five entries, each rated between 1 and 5 |
| `Testimonials.ItemsPerPage` | src/components/TestimonialsSection.tsx:65-72 | the page size is always 1, 2 or 3: 1 exactly below 768 px, 2 exactly from 768 up to 1024 px, 3 exactly from 1024 px up, and 3 when there is no window |
| `Testimonials.ItemsPerPageMonotone` | src/components/TestimonialsSection.tsx:65-72 | a wider viewport never gets a smaller page size |
| `Testimonials.JsRem` | src/components/TestimonialsSection.tsx:87 | JavaScript's remainder: it differs from the dividend by a multiple of `n`, and lies in `[0, n)` for a non-negative dividend and in `(-n, 0]` for a negative one, which fixes it uniquely |
| `Testimonials.JsRemOfNonNegative` | src/components/TestimonialsSection.tsx:117 | on a non-negative dividend JavaScript's `%` equals Dafny's, so the window and its keys, which divide only non-negative values, use Dafny's `%` |
| `Testimonials.Paginated` | src/components/TestimonialsSection.tsx:86-87 | the index `paginate(step)` computes, `(index + step + n) % n` with JavaScript's `%`, is a valid index whenever the old one is and the step is at least `-n` (both arrows) |
| `Testimonials.NextStep` | src/components/TestimonialsSection.tsx:85-89 | "next" adds one to the index, wrapping from the last review (`n-1`) to the first (`0`) |
| `Testimonials.PreviousStep` | src/components/TestimonialsSection.tsx:85-89 | "previous" subtracts one from the index, wrapping from the first review (`0`) to the last (`n-1`) |
| `Testimonials.PaginateInverse` | src/components/TestimonialsSection.tsx:85-89 | a step of `+1` or `-1` followed by the opposite step restores the index |
| `Testimonials.Advance` | src/components/TestimonialsSection.tsx:85-89 | any number of "next" clicks from a valid index leaves a valid index |
| `Testimonials.AdvanceShift` | src/components/TestimonialsSection.tsx:85-89 | up to `n` clicks on "next" move the index forward by that many positions, modulo `n` |
| `Testimonials.AdvanceFullCycle` | src/components/TestimonialsSection.tsx:85-89 | `n` clicks on "next" return the index to where it started |
| `Testimonials.AdvanceCompose` | src/components/TestimonialsSection.tsx:85-89 | `a` clicks on "next" followed by `b` more reach the same index as `a + b` clicks |
| `Testimonials.AdvancePeriodic` | src/components/TestimonialsSection.tsx:85-89 | the indices reached by repeated "next" clicks repeat with period `n` |
| `Testimonials.Window` | src/components/TestimonialsSection.tsx:116-118 | the window has exactly `count` items, each from the list, and the first is the item at `start`; card-by-card content in `WindowMatchesKeys` and `WindowIsRotationPrefix` |
| `Testimonials.WindowKeys` | src/components/TestimonialsSection.tsx:161-163 | there are `count` keys and each is a valid list position; distinctness in `WindowKeysDistinct` |
| `Testimonials.WindowMatchesKeys` | src/components/TestimonialsSection.tsx:116-118 | the window has exactly page-size cards; card `i` shows the review at position `(currentIndex + i) % n`, which is a valid position and is the card's key |
| `Testimonials.WindowKeysDistinct` | src/components/TestimonialsSection.tsx:161-163 | while the page is no larger than the list, the cards' keys are pairwise distinct |
| `Testimonials.WindowIsRotationPrefix` | src/components/TestimonialsSection.tsx:116-118 | while the page is no larger than the list, the window is the start of the list rotated to begin at the current index |
| `Testimonials.Stars` | src/components/TestimonialsSection.tsx:109-113 | a rating of `r` draws exactly `r` stars, keyed `0` to `r-1` |
| `Testimonials.Carousel.constructor` | src/components/TestimonialsSection.tsx:62-74 | on mount the index is 0, the direction 0, the list the five reviews, and the page size follows the viewport |
| `Testimonials.Carousel.Paginate` | src/components/TestimonialsSection.tsx:85-89 | an arrow click sets the index to `(index + step + n) % n` with JavaScript's `%`, records the step as the direction, keeps the page size and keeps the index valid |
| `Testimonials.Carousel.Resize` | src/components/TestimonialsSection.tsx:77-80 | a resize recomputes the page size from the new width and leaves the index and the direction unchanged |
| `Testimonials.Carousel.VisibleTestimonials` | src/components/TestimonialsSection.tsx:115-118 | the reviews on screen are page-size many; card `i` is the review at position `(currentIndex + i) % n`, so the first is the current review; the cards are the list rotated to the current index, cut to the page size; their keys are pairwise distinct |
| `Services.AllServices` | src/components/ServicesSection.tsx:57-178 | there are fifteen services, each service's id is its position, and the last two share a title |
| `Services.ServiceIdsUnique` | src/components/ServicesSection.tsx:57-178 | the ids, which key the cards, are pairwise distinct |
| `Services.CardOpacity` | src/components/ServicesSection.tsx:192-202 | a card is fully visible exactly when it is among the first three or the list is expanded |
| `Services.TransitionDelayMs` | src/components/ServicesSection.tsx:192-205 | a card's delay is positive exactly when the list is expanded and the card comes after the fourth; the first three cards, and every card of the collapsed list, have delay 0 |
| `Services.DelaysStaggered` | src/components/ServicesSection.tsx:203-205 | expanded, the fourth card starts at once and each later card starts 150 ms after the previous one; collapsed, every card from the fourth on has delay 0 |
| `Services.CardAt` | src/components/ServicesSection.tsx:192-214 | the card for a position carries that service and that position, and it is fully visible exactly when it is rendered at all |
| `Services.IsRendered` | src/components/ServicesSection.tsx:190 | a service is drawn exactly when it is among the first three or the list is expanded |
| `Services.RenderFrom` | src/components/ServicesSection.tsx:189-217 | the cards drawn from a position on are, in list order, those of the services not dropped by the "index at least 3 and collapsed" test |
| `Services.Rendered` | src/components/ServicesSection.tsx:189-217 | the whole list's cards are all the services when expanded and the first `min(3, length)` when collapsed, card `k` being the one for position `k` |
| `Services.RenderedCollapsed` | src/components/ServicesSection.tsx:189-190 | collapsed, exactly the services at positions 0, 1 and 2 are drawn, in list order |
| `Services.RenderedExpanded` | src/components/ServicesSection.tsx:189-217 | expanded, every service is drawn, in list order |
| `Services.RenderedAlwaysVisible` | src/components/ServicesSection.tsx:190-202 | every card that is drawn carries the fully visible class |
| `Services.Label` | src/components/ServicesSection.tsx:237-239 | the button reads "Show Less" exactly when expanded; collapsed, its count is the number of services minus three |
| `Services.LabelCountsHidden` | src/components/ServicesSection.tsx:237-239 | the collapsed label's count equals the number of services the collapsed list hides; expanded, the label is "Show Less" |
| `Services.ClinicLabel` | src/components/ServicesSection.tsx:237-239 | for the clinic's list the collapsed label offers 12 more services |
| `Services.OnClick` | src/components/ServicesSection.tsx:222-229 | a click flips `showAll` and scrolls back to the section exactly on the collapsing click |
| `Services.TwoClicksRestore` | src/components/ServicesSection.tsx:222-229 | two clicks restore `showAll`, and exactly one of them scrolls |
| `Services.ServicesSection.constructor` | src/components/ServicesSection.tsx:55-57 | on mount the list is the clinic's fifteen services and it is collapsed |
| `Services.ServicesSection.Click` | src/components/ServicesSection.tsx:222-229 | the click handler negates `showAll` and reports a scroll exactly when `showAll` was true before the click |
| `Services.ServicesSection.Cards` | src/components/ServicesSection.tsx:189-217 | the cards on screen are all fifteen services when expanded and exactly the first three when collapsed, card `k` being the one for position `k` with its class and delay |
| `Services.ServicesSection.CurrentLabel` | src/components/ServicesSection.tsx:237-239 | the section's button reads "Show Less" exactly when expanded; collapsed, it offers as many more services as are off screen, twelve |

## Left out

- Rendering, the framer-motion animation variants, spring settings and hover effects: cosmetic, mostly floating point.
- Registering and removing the resize listener: browser I/O. Only the state update it triggers is modelled (`Carousel.Resize`).
- The smooth scroll itself and the "Explore all treatment" scroll helper: DOM geometry. The click handler's scroll request is modelled as a boolean.
- The reviews' image URLs and descriptions, and the services' descriptions and image URLs: display text with no logic.
- `Carousel.Paginate`: requires a step of at least `-n`. Both arrow buttons pass `-1` or `+1`. A smaller step would make JavaScript's `%` return a negative index, and no caller passes one.
- The header's menu state, the Cal.com booking embed and the other static sections: no logic of the carousel or the services list.
