# Portfolio page logic, modelled in Dafny

A single-page portfolio site is almost entirely markup and animation. Under
that markup sit five small pieces of sequential logic, and this project
models each one and proves what the code promises about it:

- **Project gallery** (`Projects`): each raw project record is normalised.
  The technology string is split on commas and each piece trimmed; the card
  is classified as mobile when the lower-cased technology string mentions
  "react native"; a missing image falls back to a default. A viewport-width
  breakpoint picks how many cards show at first (6, 4 or 2). The visible list
  is that prefix of the catalogue, or the whole catalogue when "show all" is
  on. The "Showing N of M" label is a `min`. The standalone `ShowMoreControls`
  component applies the same rule to a list it is given.
- **Sidebar** (`Sidebar`): the scroll-spy makes active the first registered
  section whose rectangle straddles the line 200 px below the viewport top,
  and keeps the previous section when none does. The nav buttons scroll to a
  section and close the narrow-viewport menu. The menu button and the overlay
  open and close that menu.
- **Page root** (`Index`): the initial theme comes from the stored preference,
  or from the system preference when nothing is stored. The toggle flips the
  theme, stores it under the key `"theme"` and sets the document's `dark`
  class to match. A loading flag hides all content until its timer fires,
  and it never comes back.
- **Loading screen** (`LoadingScreen`): a progress counter adds 10 per
  interval tick up to 100; the first tick that finds it full clears the
  interval, and unmounting the screen clears it too.
- **Contact form** (`Contact`): three bound fields, each edited on its own.
  A submission starts only when every field is filled and the button is
  enabled. It marks the form busy. When the simulated delay ends, it shows one
  success notification, clears the fields and goes idle.

Shared pieces: `Wrappers` (an `Option` type and `Min`), `Viewport` (the
1024 px and 768 px breakpoints) and `Text` (comma split, JavaScript `trim`,
lower-casing and substring search).

Browser inputs are explicit parameters or fields. These are the viewport
width, the section rectangles (a map from element id to its rectangle; an id
absent from the map is an element that does not exist), the stored theme, the
system colour-scheme preference, the document's `dark` class and the
browser's email-syntax verdict. Timers are events: `FireTimer`, `Tick` and
`CompleteSubmit` are what runs when the timer or interval fires.

Points of the code worth knowing:
- A nav click closes the menu only when the target element exists
  (src/components/Sidebar.tsx:44-50); a click on a missing id leaves the menu
  as it was.
- An empty technology string or image counts as missing, because the code
  tests truthiness (src/components/Projects.tsx:122 and :125).
- `ShowMoreControls` is never rendered by the page. It is modelled anyway, as
  the code defines it.

## Model

| member | source | states |
|---|---|---|
| `Text.Split` | src/components/Projects.tsx:122 | `split(",")` yields one more piece than there are commas, and no piece contains a comma |
| `Text.JoinSplit` | src/components/Projects.tsx:122 | joining the split pieces with the separator gives back the original string |
| `Text.SplitJoin` | src/components/Projects.tsx:122 | splitting a join of comma-free pieces gives back those pieces (round trip in the other direction) |
| `Text.TrimStart` | src/components/Projects.tsx:122 | the result is the longest suffix not starting with whitespace; everything removed is whitespace |
| `Text.TrimEnd` | src/components/Projects.tsx:122 | the result is the longest prefix not ending with whitespace; everything removed is whitespace |
| `Text.Trim` | src/components/Projects.tsx:122 | `trim()` returns the slice of the input between a whitespace-only head and a whitespace-only tail, and the slice neither starts nor ends with whitespace |
| `Text.TrimIdempotent` | src/components/Projects.tsx:122 | trimming twice is the same as trimming once |
| `Text.ToLower` | src/components/Projects.tsx:126 | `toLowerCase()` keeps the length and lower-cases each character |
| `Text.ToLowerConcat` | src/components/Projects.tsx:126 | lower-casing distributes over concatenation |
| `Text.Includes` | src/components/Projects.tsx:126 | `includes(t)` holds exactly when `t` occurs at some position of the string |
| `Projects.Tech` | src/components/Projects.tsx:122 | a missing or empty technology string gives no badges; otherwise one trimmed, comma-free badge per comma-separated piece (commas + 1 of them) |
| `Projects.KindOf` | src/components/Projects.tsx:126 | a card is mobile exactly when the technology string is non-empty and its lower-cased form contains "react native"; otherwise web |
| `Projects.ImageOf` | src/components/Projects.tsx:125 | the record's image is used unless it is missing or empty, in which case the default image is used |
| `Projects.Normalize` | src/components/Projects.tsx:119-127 | title, description, github and live links are copied unchanged; tech, image and kind follow the rules above |
| `Projects.NormalizeAll` | src/components/Projects.tsx:119-127 | normalisation keeps the list's length and normalises each position in place |
| `Projects.NormalizeAllConcat` | src/components/Projects.tsx:119 | normalisation commutes with concatenation, so relative order is preserved |
| `Projects.KindOfIgnoresCase` | src/components/Projects.tsx:126 | classification does not depend on letter case |
| `Projects.MobileWhenMentioned` | src/components/Projects.tsx:126 | any mention of React Native, in any letter case and at any position, makes a card mobile |
| `Projects.CatalogueImages` | src/components/Projects.tsx:23-116 | the catalogue holds ten projects, each with an image of its own, so no card falls back to the default image |
| `Projects.InitialCountFor` | src/components/Projects.tsx:134-139 | the first-view count is always 2, 4 or 6; it is 6 exactly from 1024 px, and 2 exactly below 768 px |
| `Projects.InitialCountMonotone` | src/components/Projects.tsx:134-139 | a wider viewport never shows fewer cards at first |
| `Projects.VisibleProjects` | src/components/Projects.tsx:145 | the visible list is a prefix of the catalogue: all of it when "show all" is on, else `min(initialCount, length)` cards |
| `Projects.ShowingCount` | src/components/Projects.tsx:337 | the "Showing N" number never exceeds the total; it is the total with "show all" on, else `min(initialCount, total)` |
| `Projects.ShowingCountIsVisibleLength` | src/components/Projects.tsx:337 | the "Showing N" number equals the number of visible cards |
| `Projects.WideViewportExample` | src/components/Projects.tsx:23-145 | with the ten catalogue entries at 1280 px, six cards show, and all ten with "show all" on |
| `Projects.ProjectsSection.constructor` | src/components/Projects.tsx:119-131 | first render: normalised catalogue, "show all" off, six cards |
| `Projects.ProjectsSection.Resize` | src/components/Projects.tsx:134-141 | each resize sets the count from the breakpoint rule and leaves "show all" alone |
| `Projects.ProjectsSection.ToggleShowAll` | src/components/Projects.tsx:333 | the button flips "show all", leaves the count alone and keeps the count in {2, 4, 6} |
| `Projects.ProjectsSection.Visible` | src/components/Projects.tsx:145 | the rendered cards are a prefix of the catalogue: all of it when "show all" is on, else `min(initialCount, length)` cards, never more than six |
| `Projects.ProjectsSection.Label` | src/components/Projects.tsx:337 | the label reads the number of rendered cards of the catalogue's length |
| `Projects.ToggleTwice` | src/components/Projects.tsx:333 | pressing the button twice restores "show all" and the visible list |
| `Projects.ShowMoreControls.constructor` | src/components/Projects.tsx:365-366 | first render: "show all" off, six cards, for the given list length |
| `Projects.ShowMoreControls.Resize` | src/components/Projects.tsx:368-378 | the same breakpoint rule as the gallery |
| `Projects.ShowMoreControls.ToggleShowAll` | src/components/Projects.tsx:395 | the button flips "show all" |
| `Projects.ShowMoreControls.VisibleCount` | src/components/Projects.tsx:380 | the announced count is the list length with "show all" on, else the breakpoint count |
| `Projects.ShowMoreControls.ShowingNumber` | src/components/Projects.tsx:399 | the label is the announced count capped at the list length, the same number the gallery's label shows |
| `Sidebar.FirstInBand` | src/components/Sidebar.tsx:29-36 | `find` returns the first index whose element exists and straddles the 200 px line; none means no index does |
| `Sidebar.Selected` | src/components/Sidebar.tsx:28-36 | a selected section is the first registered one, in registry order, on the spy line; no selection means no registered section is on it |
| `Sidebar.FindCurrent` | src/components/Sidebar.tsx:28-36 | the section-by-section search returns exactly the first match in registry order |
| `Sidebar.NavIdsDistinct` | src/components/Sidebar.tsx:52-59 | no two nav buttons share an id |
| `Sidebar.NavMatchesRegistry` | src/components/Sidebar.tsx:52-59 | the nav buttons list exactly the scroll-spy's registry, in order |
| `Sidebar.ExactlyOneHighlighted` | src/components/Sidebar.tsx:96-130 | in every sidebar state that keeps its invariant exactly one nav button is highlighted |
| `Sidebar.SidebarState.constructor` | src/components/Sidebar.tsx:23-24 | "home" starts active and the menu starts closed |
| `Sidebar.SidebarState.HandleScroll` | src/components/Sidebar.tsx:27-38 | a scroll makes the first section on the spy line active, or keeps the old one when none is; the active section stays registered; the menu is untouched |
| `Sidebar.SidebarState.ScrollToSection` | src/components/Sidebar.tsx:44-50 | a nav click closes the menu when the target exists and leaves it as it was otherwise |
| `Sidebar.SidebarState.ToggleMenu` | src/components/Sidebar.tsx:67 | the menu button flips the open flag |
| `Sidebar.SidebarState.CloseOverlay` | src/components/Sidebar.tsx:181 | a click on the overlay closes the menu |
| `Sidebar.SidebarState.IsHighlighted` | src/components/Sidebar.tsx:101 | a nav button is highlighted exactly when its id is the active section, which is always a registered id |
| `Sidebar.SidebarState.OverlayShown` | src/components/Sidebar.tsx:176-182 | the overlay is rendered exactly while the menu is open; then the sidebar shows at every width, and otherwise it is hidden below 1024 px (from 1024 px the overlay is `lg:hidden`) |
| `Sidebar.SidebarState.SidebarShown` | src/components/Sidebar.tsx:76 | from 1024 px the sidebar always shows; below it shows exactly when the menu is open |
| `Index.Saved` | src/pages/Index.tsx:17 | the stored preference is present exactly when storage has a `"theme"` entry |
| `Index.ResolveTheme` | src/pages/Index.tsx:17-21 | the stored theme wins when present; otherwise dark exactly when the system prefers dark |
| `Index.Flip` | src/pages/Index.tsx:32 | toggling always changes the theme |
| `Index.FlipTwice` | src/pages/Index.tsx:32 | two flips restore the theme |
| `Index.RenderedSectionsMatchRegistry` | src/pages/Index.tsx:46-53 | the rendered section anchors are exactly the sidebar's registry, in order |
| `Index.Page.constructor` | src/pages/Index.tsx:13-14 | first render: dark by default and loading |
| `Index.Page.Mount` | src/pages/Index.tsx:16-26 | the mount effect applies the resolved theme, keeps the dark class equal to `theme == dark` and starts the loading timer |
| `Index.Page.FireTimer` | src/pages/Index.tsx:24-26 | the timeout ends loading and changes nothing else |
| `Index.Page.Unmount` | src/pages/Index.tsx:28 | cleanup clears the pending timeout and changes nothing else |
| `Index.Page.ToggleTheme` | src/pages/Index.tsx:31-36 | the toggle flips the theme, stores the new one under `"theme"` and keeps the dark class equal to `theme == dark`; loading is untouched |
| `Index.Page.Render` | src/pages/Index.tsx:38-57 | while loading only the loading screen renders; afterwards the themed content with every registered section |
| `Index.ToggleTwice` | src/pages/Index.tsx:31-36 | two toggles restore the theme, and storage and the dark class agree with it |
| `LoadingScreen.Advance` | src/components/LoadingScreen.tsx:9-15 | a tick adds 10 below 100 and pins the counter at 100 from there |
| `LoadingScreen.ProgressAfter` | src/components/LoadingScreen.tsx:5-15 | the counter after any number of ticks from 0 is a multiple of 10 in [0, 100] |
| `LoadingScreen.ProgressClosedForm` | src/components/LoadingScreen.tsx:5-15 | after `n` ticks from 0 the counter is `min(10 n, 100)` |
| `LoadingScreen.ProgressMonotone` | src/components/LoadingScreen.tsx:9-15 | the counter never decreases from one tick to the next |
| `LoadingScreen.FullFromTenthTick` | src/components/LoadingScreen.tsx:10-14 | from the tenth tick on the counter is 100 |
| `LoadingScreen.TickClearsInterval` | src/components/LoadingScreen.tsx:10-12 | a tick finds the counter full, and clears the interval, exactly from tick 11 on |
| `LoadingScreen.Loader.constructor` | src/components/LoadingScreen.tsx:5-8 | the counter starts at 0 with the interval running |
| `LoadingScreen.Loader.Tick` | src/components/LoadingScreen.tsx:8-16 | a tick applies the updater while the interval runs and stops it on tick 11 unless the cleanup stopped it earlier; once stopped, ticks change nothing; the counter always equals the progress after the ticks delivered |
| `LoadingScreen.Loader.Unmount` | src/components/LoadingScreen.tsx:18 | the effect's cleanup clears the interval and leaves the counter and the tick count as they were |
| `Contact.ContactForm.constructor` | src/components/Contact.tsx:12-17 | the form starts with three empty fields, idle, with no notification |
| `Contact.ContactForm.EditName` | src/components/Contact.tsx:227-229 | editing the name changes only the name |
| `Contact.ContactForm.EditEmail` | src/components/Contact.tsx:249-251 | editing the email changes only the email |
| `Contact.ContactForm.EditMessage` | src/components/Contact.tsx:270-272 | editing the message changes only the message |
| `Contact.ContactForm.SubmitDisabled` | src/components/Contact.tsx:289 | the submit button is disabled exactly while a submission is in flight |
| `Contact.ContactForm.Submit` | src/components/Contact.tsx:19-21 | a submission starts exactly when all three required fields are filled, the email passes the browser's check and the button is not disabled; starting marks the form busy and changes nothing else |
| `Contact.ContactForm.CompleteSubmit` | src/components/Contact.tsx:24-31 | completion always succeeds: exactly one success notification, the fields reset to empty, the form idle |
| `Contact.SubmitRoundTrip` | src/components/Contact.tsx:19-31 | from idle, a full submission of a filled form ends idle with empty fields and one more notification; a blocked one changes nothing |

## Left out

- Markup, styling and animation (framer-motion props, gradients, the typing animation): presentation only.
- The static content components (About, Skills, Experience, Footer, Hero) and the not-found page: data and DOM scroll calls, no logic. Only the section ids they render are used, in `Index.RenderedSections`.
- `scrollIntoView` and `window.scrollTo`: the scroll itself is not modelled, only its effect on the menu flag.
- Listener registration and removal for `scroll` and `resize`: each event is a method call.
- The timer durations (2500 ms, 150 ms, 1000 ms) and event-loop scheduling: timers are explicit fire and tick events, so the model says nothing about elapsed time.
- The toast hook: a notification is modelled as an entry appended to `toasts`.
- The `CustomEvent` dispatch in `ShowMoreControls`: a foreign call with no local contract. Only the count it carries is modelled.
- Stored theme strings other than "light" and "dark": the code casts the stored string unchecked, so storage is modelled as holding only well-formed themes.
- Asset imports: image references are modelled as their file names.
- The `featured` flag: it is in the data but normalisation drops it.
- Text.ToLower: lower-cases ASCII letters only. JavaScript's full Unicode case mapping is not modelled; the catalogue and the marker are ASCII.
- Sidebar.Rect: DOM rectangles have floating-point coordinates, but the model uses `int`, so fractional positions near the 200 px line are not represented.
- Contact.ContactForm.Submit: the browser's `type="email"` syntax check is the parameter `emailAccepted` rather than a modelled grammar.
- Sidebar.SidebarState.SidebarShown: the width is read at render time in the code; the model takes it as a parameter and does not follow resizes.
- React's batching of state updates and Strict Mode's double-run of updaters: each handler runs to completion as one step.
