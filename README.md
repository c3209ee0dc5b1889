# Portfolio website: carousel and tech-stack ticker, in Dafny

This project models the two pieces of discrete logic in a single-page
portfolio website and proves their properties.

- **The project carousel** (`carousel.dfy`, module `Carousel`). The carousel
  shows a fixed list of four projects. Its one piece of state is
  `currentIndex`, which starts at 0. The "next" arrow sets it to
  `(i + 1) % n`, the "previous" arrow to `(i - 1 + n) % n`, and a row of dots,
  one per project, sets it to the clicked dot's position. The dot whose
  position equals `currentIndex` is highlighted. `%` is JavaScript's
  remainder, which truncates toward zero. It is modelled as `JsRem`, so the
  `+ n` in "previous" matters: without it, going back from 0 gives -1.
  The component is the class `ProjectCarousel`, with one method per button.
  The slide animation gets `currentIndex` itself as its `custom` value, not a
  direction. An entering slide starts at x = 1000 when that value is
  positive and at -1000 otherwise. A leaving slide ends at x = 1000 when the
  value is negative and at -1000 otherwise. So a leaving slide always exits
  to the left, and a new slide enters from the right unless it is the first
  project. This holds whichever arrow was pressed.
- **The tech-stack section** (`techstack.dfy`, module `TechStack`). A list of
  18 technologies, each tagged with a category, is grouped by a `reduce`.
  The reduce creates a category's array the first time it meets the category
  and pushes each item onto its category's array. `GroupByCategory` is that
  loop. It builds a `Record`: the JavaScript object's keys in creation order
  and its key/value map. The loop is proved against two reference
  definitions. `Categories` gives the distinct categories in first-appearance
  order, and `InCategory` gives a category's items in list order. Lemmas
  about those definitions prove three things. The groups partition the list.
  Each group keeps its items' relative order. The keys are exactly the
  categories that occur, ordered by first occurrence. Each category becomes
  a ticker (`RotatingTechStack`), rendered in key order (`RenderTechStack`).
  A ticker shows its items twice in a row, in tiles 200 px wide, keyed
  `${name}-${index}`. It moves by the width of one copy (`n * 200` px) in
  `n * speed` seconds. The second section runs with speed 15 and reversed;
  all others run with speed 20, forward. The tile keys are proved pairwise
  distinct for any item names. The proof uses the fact that the decimal
  index after the last dash has no dash.

## Model

| member | source | states |
|---|---|---|
| `Carousel.Projects` | components/projects.tsx:19-48 | the project list has exactly four entries, so every modulus by its length is defined |
| `Carousel.JsRem` | components/projects.tsx:52-58 | JavaScript `%` for a positive divisor: in `[0, n)` for a non-negative dividend, where it agrees with the mathematical remainder; in `(-n, 0]` for a non-positive one |
| `Carousel.NextIndex` | components/projects.tsx:52-54 | from any non-negative index the result is in `[0, n)`; inside the range it is `i + 1`, except that `n - 1` wraps to 0 |
| `Carousel.PrevIndex` | components/projects.tsx:56-58 | from any non-negative index the result is in `[0, n)` thanks to the `+ n`; inside the range it is `i - 1`, except that 0 wraps to `n - 1` |
| `Carousel.PrevNeedsOffset` | components/projects.tsx:57 | without the `+ n`, JavaScript's `%` would send index 0 to -1, outside the list; with it, 0 goes to `n - 1` |
| `Carousel.PrevUndoesNext` | components/projects.tsx:52-58 | "previous" after "next" returns to the starting index |
| `Carousel.NextUndoesPrev` | components/projects.tsx:52-58 | "next" after "previous" returns to the starting index |
| `Carousel.NextIterOffset` | components/projects.tsx:52-54 | k ≤ n presses of "next" advance the index by k, wrapping past the end at most once |
| `Carousel.PrevIterOffset` | components/projects.tsx:56-58 | k ≤ n presses of "previous" move the index back by k, wrapping past the start at most once |
| `Carousel.NextCycle` | components/projects.tsx:53 | n presses of "next" bring the index back to where it started |
| `Carousel.PrevCycle` | components/projects.tsx:57 | n presses of "previous" bring the index back to where it started |
| `Carousel.NextIterCompose` | components/projects.tsx:53 | a presses of "next" followed by b presses equal a + b presses |
| `Carousel.NextIterPeriodic` | components/projects.tsx:53 | k + n presses of "next" end where k presses do |
| `Carousel.DotStates` | components/projects.tsx:158-164 | one flag per project; a flag is set iff its position equals the current index |
| `Carousel.CountActiveAt` | components/projects.tsx:162-164 | a row of flags set only at position c has exactly one set flag when c is in range, none otherwise |
| `Carousel.ExactlyOneActiveDot` | components/projects.tsx:162-164 | exactly one dot is highlighted, and it is the dot of the current index |
| `Carousel.Enter` | components/projects.tsx:61-64 | an entering slide starts fully transparent, 1000 px off to one side, with no stacking order set |
| `Carousel.Center` | components/projects.tsx:65-69 | the slide on show rests at x = 0, fully opaque, stacked at zIndex 1 |
| `Carousel.ExitBelowCenter` | components/projects.tsx:65-74 | a leaving slide (zIndex 0) is stacked below the slide on show (zIndex 1) |
| `Carousel.Exit` | components/projects.tsx:70-74 | a leaving slide ends fully transparent, 1000 px off to one side, below the slide on show (zIndex 0) |
| `Carousel.EnterSide` | components/projects.tsx:61-64 | the entering slide starts on the right iff the custom value is positive, on the left iff it is not |
| `Carousel.ExitSide` | components/projects.tsx:70-74 | the leaving slide ends on the right iff the custom value is negative, on the left iff it is not |
| `Carousel.SlideSidesForIndex` | components/projects.tsx:86-93 | with the index as custom value, a slide always leaves to the left, and enters from the right except for the first project |
| `Carousel.ProjectCarousel.constructor` | components/projects.tsx:19-50 | the carousel holds the four projects and starts at index 0, inside the range |
| `Carousel.ProjectCarousel.NextProject` | components/projects.tsx:52-54 | the index keeps its range and becomes `NextIndex` of the old index: one further, with the last wrapping to the first |
| `Carousel.ProjectCarousel.PrevProject` | components/projects.tsx:56-58 | the index keeps its range and becomes `PrevIndex` of the old index: one back, with the first wrapping to the last |
| `Carousel.ProjectCarousel.SelectDot` | components/projects.tsx:158-161 | clicking the dot at a position (dots exist only for positions of the list) sets the index to that position |
| `Carousel.ProjectCarousel.Dots` | components/projects.tsx:157-167 | one flag per project, set exactly at the current index, with exactly one flag set |
| `Carousel.ProjectCarousel.CurrentProject` | components/projects.tsx:102-121 | the project shown is always an element of the list; the range invariant makes `projects[currentIndex]` defined |
| `Carousel.ProjectCarousel.EnterPose` | components/projects.tsx:86-91 | the slide on show came in from the right, or from the left when it is the first project |
| `Carousel.ProjectCarousel.ExitPose` | components/projects.tsx:86-93 | the slide on show will always leave to the left |
| `TechStack.TechStackItems` | components/techstack.tsx:11-30 | the list holds the 18 technologies shown |
| `TechStack.CategoryPresent` | components/techstack.tsx:32-38 | a category has a group iff some item carries that category |
| `TechStack.CategoriesDistinct` | components/techstack.tsx:33-35 | a key is created only once: the key list holds no duplicates |
| `TechStack.FirstIndexIsFirst` | components/techstack.tsx:33-35 | `FirstIndex` is the position of the first item of the category, or the list length when there is none |
| `TechStack.FirstIndexOfKnown` | components/techstack.tsx:33-35 | a category is a key iff its first occurrence lies in the list |
| `TechStack.FirstAppearanceOrder` | components/techstack.tsx:32-38 | keys are ordered by the position of their category's first occurrence |
| `TechStack.InCategoryMembers` | components/techstack.tsx:36 | every member of a group is an item of the list that carries the group's category |
| `TechStack.ItemInOwnGroup` | components/techstack.tsx:36 | every item is pushed into the group named by its category |
| `TechStack.ItemInExactlyOneGroup` | components/techstack.tsx:32-38 | an item is in a category's group iff that category is its own, so each item lands in exactly one group |
| `TechStack.InCategoryOfUnknown` | components/techstack.tsx:33-35 | a category no item carries has an empty group |
| `TechStack.GroupSizesSnoc` | components/techstack.tsx:36 | pushing one item grows only its own category's group, by one |
| `TechStack.GroupSizesSum` | components/techstack.tsx:32-38 | the group sizes add up to the number of items |
| `TechStack.InCategoryKeepsOrder` | components/techstack.tsx:36 | the k-th member of a group is the item at the k-th of a strictly increasing run of positions, so groups keep list order |
| `TechStack.GroupByCategory` | components/techstack.tsx:32-38 | the reduce's keys are the categories in first-appearance order; a key exists iff it is one of them, and its array is exactly that category's items in list order |
| `TechStack.Entries` | components/techstack.tsx:88 | `Object.entries` lists one pair per key, in key-creation order, pairing each key with its array |
| `TechStack.AppendRun` | components/techstack.tsx:32-38 | grouping a list extended by a run of one category adds that category as a key if it is new and appends the run to its group |
| `TechStack.TechStackCategories` | components/techstack.tsx:11-38 | the real list has three keys in the order Frontend, Backend, Tools, with 5, 8 and 5 items |
| `TechStack.Doubled` | components/techstack.tsx:63 | the strip has 2n tiles; tile i and tile i + n both show item i |
| `TechStack.SeamlessLoop` | components/techstack.tsx:41-63 | the strip is twice the width `n * 200`, and its second half repeats its first, so a shift by one copy's width restarts on the same picture |
| `TechStack.TotalWidth` | components/techstack.tsx:41-42 | the width of one copy is a whole number of 200 px tiles, one tile per item |
| `TechStack.Duration` | components/techstack.tsx:41-58 | duration × tile width = total width × speed: each tile moves one width per `speed` seconds, whatever the item count |
| `TechStack.Keyframes` | components/techstack.tsx:52 | two positions, 0 and minus the total width; a forward ticker starts at 0, a reversed one ends at 0 |
| `TechStack.ReversedKeyframes` | components/techstack.tsx:52 | the reverse keyframes are the forward keyframes in reverse order, and the other way round |
| `TechStack.DigitChar` | components/techstack.tsx:65 | a digit's character is between '0' and '9' and encodes that digit |
| `TechStack.NatToDecimal` | components/techstack.tsx:65 | an index prints as a non-empty run of decimal digits, one digit long iff the index is below 10 |
| `TechStack.NatToDecimalInjective` | components/techstack.tsx:65 | different indices print differently |
| `TechStack.SplitAtLastDash` | components/techstack.tsx:65 | from `name-digits` with dash-free digits, the digits are the text after the last dash and the name is the text before it |
| `TechStack.TileKey` | components/techstack.tsx:65 | the key starts with the item's name, and the text after its last dash is the decimal index |
| `TechStack.TileKeyInjective` | components/techstack.tsx:65 | two keys `${name}-${index}` are equal only when both the index and the name are equal |
| `TechStack.Tiles` | components/techstack.tsx:63-65 | the 2n tiles show the items twice in order, and their keys are pairwise distinct |
| `TechStack.RotatingTechStack` | components/techstack.tsx:40-81 | total width is `n * 200`, the duration is `n * speed` seconds, reverse keyframes are the forward ones reversed, and the tiles are the doubled list with pairwise distinct keys |
| `TechStack.SectionSpeed` | components/techstack.tsx:93 | a section's speed is 15 or 20, and it is below 20 exactly for the section that runs reversed |
| `TechStack.SectionReverse` | components/techstack.tsx:94 | a section runs reversed iff it sits at index 1 |
| `TechStack.SectionChoice` | components/techstack.tsx:93-94 | the section at index 1, and only it, runs reversed, with speed 15; every other section runs forward with speed 20 |
| `TechStack.RenderTechStack` | components/techstack.tsx:88-98 | one section per category in first-appearance order; section k shows that category's items in a ticker with speed 15 and reversed when k = 1, speed 20 and forward otherwise |
| `TechStack.TechStackTickers` | components/techstack.tsx:88-95 | on the real list the second section is Backend (8 items, 1600 px, 120 s, reversed); Frontend and Tools each loop in 100 s |

## Left out

- components/threescene.tsx is not part of this model. Its hover motion is floating-point integration run by the render loop and driven by pointer events.
- components/experiences.tsx is not part of this model. Its tilt card computes floating-point mouse percentages over DOM measurements and springs.
- lib/utils.ts, components/ui/typewriter-effect.tsx, components/ui/background-beams.tsx and components/navbar.tsx are not part of this model. They are class-name merging, asynchronous DOM animation, DOM event listeners, scrolling and theme switching.
- The static sections (hero, about, contact, footer, interactive, page) are not part of this model. They have no logic.
- All rendering and styling is left out, and so are the framer-motion transition parameters (spring stiffness and damping, opacity durations). `AnimatePresence initial={false}` is left out too: it skips the first slide's enter animation.
- `TechStack.Keyframes`: the source writes the keyframes as the strings `-${totalWidth}px` and `0px`. The model uses the pixel numbers. The text formatting is not modelled.
- `TechStack.GroupByCategory`: the model treats every category name as an ordinary new key. Two JavaScript object behaviours are not modelled, because no category in the list triggers them. An integer-like name (such as "1") would be listed first by `Object.entries`. A name inherited from `Object.prototype` (such as "constructor") would make `!acc[c]` false, and the `push` would then fail.
- The defaults of `RotatingTechStack` (`speed = 20`, `reverse = false`) are not modelled. `TechStack` always passes both props, so the defaults never apply.
- JavaScript numbers are doubles. The indices, widths and durations here are small integers, so the model uses unbounded integers.
- React's state mechanics are not modelled. A functional `setCurrentIndex` update is modelled as one call of the corresponding method, taking effect before the next press.
