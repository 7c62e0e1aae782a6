# Portfolio site: the logic behind the components

This project models in Dafny the logic of a one-page React portfolio site, and
proves properties of that model. The site's components are mostly static. The
parts that carry logic are these:

- **Custom cursor** (`CustomCursor`): a ring and a dot that follow the mouse. Two
  flags, `visible` and `pointer`, are set by mouse listeners. `applyState` projects
  them onto the elements' inline styles. A mouse move skips `applyState` when
  nothing would change.
- **Hero** (`Hero`):
  - the typing-role animator, a four-cell state machine that types, pauses on,
    deletes and cycles through four role names;
  - the résumé download, which picks the file by language;
  - the greeting chip, whose text depends on the language.
- **Navigation** (`Navigation`):
  - the scroll-spy, which caches the offsets of the sections present in the page
    and scans them backwards for the section at the top third of the viewport;
  - the `scrolled` look of the top bar;
  - the mobile menu toggle;
  - the correspondence between menu entries and sections.
- **Scroll progress bar** (`ScrollProgress`): scroll events request at most one
  animation frame at a time. The frame scales the bar by how far the page has
  been scrolled.
- **Contact form** (`Contact`):
  - a schema of four per-field rules, where e-mail validity is a parameter;
  - the submission lifecycle: validate, wait, log, show the acknowledgement,
    reset the form, and bring the form back after a timer.
- **Build configuration** (`ViteConfig`):
  - the `manualChunks` classifier, which maps a module id to a chunk name by
    first-match substring tests;
  - the mode-dependent plugin list;
  - the `@` import alias.

Each component with mutable state is a `class`. Its methods are tied to pure
functions, and the lemmas about those functions state what the component
promises.

The typing-role animator is modelled as React runs it:
- Every change to a state cell re-renders the component.
- The effect's cleanup then cancels the timer the previous effect run returned,
  and the effect runs again.
- Pending timers are events kept in the order they fire. Only two timers are ever
  pending together: `setDeleting(true)` and then the un-pause timer, both with the
  same 1400 ms delay and scheduled in that order. So scheduling order is firing
  order.
- The `setDeleting(true)` timer is not returned to React, so no cleanup cancels
  it.
- The model takes each timer callback, the re-render it causes and the effect
  cleanup as one step. In that order, when the `setDeleting(true)` timer fires the
  re-render cancels the pending un-pause timer and schedules a new one, so the pause
  on the full word restarts once. `Hero.FireTable` states this.
- The code does not fix that order. Both timers wait 1400 ms. If the main thread is
  busy when they come due, both callbacks can run before React renders, and nothing
  restarts. `Hero.FireBatched` models that order, and `Hero.BatchedFiringAgrees`
  shows it keeps the invariant and reaches the same state as the two firings one
  after the other.

## Model

| member | source | states |
|---|---|---|
| CustomCursor.ApplyState | src/components/CustomCursor.tsx:17-22 | ring opacity is 1 exactly when visible and 0 otherwise; ring scale is 1.6 exactly when pointer and 1 otherwise; the dot shows exactly when visible and not pointer |
| CustomCursor.MoveShowsAndClassifies | src/components/CustomCursor.tsx:31-38 | after any mouse move the cursor is visible and `pointer` is the target's clickability |
| CustomCursor.LeaveEnterKeepPointer | src/components/CustomCursor.tsx:42-43 | leaving hides and entering shows the cursor; neither changes `pointer` |
| CustomCursor.SkipIsExact | src/components/CustomCursor.tsx:37-39 | a move calls `applyState` if and only if the styles for the new flags differ from those for the old flags, so skipping never leaves stale styles |
| CustomCursor.DotHiddenOverInteractive | src/components/CustomCursor.tsx:20-21 | over an interactive element the dot is hidden and the ring enlarged |
| CustomCursor.Cursor.constructor | src/components/CustomCursor.tsx:7-56 | both elements start off screen at opacity 0 with the flags cleared, and the styles equal `applyState` of the flags; the elements are rendered exactly when the device is not a touch device |
| CustomCursor.Cursor.Mount | src/components/CustomCursor.tsx:11-12 | on a touch device no listener is attached; otherwise exactly the three listeners are added |
| CustomCursor.Cursor.Unmount | src/components/CustomCursor.tsx:49-53 | teardown removes exactly the three listeners; the styles still equal `applyState` of the flags |
| CustomCursor.Cursor.Dispatch | src/components/CustomCursor.tsx:45-47 | an event changes the flags only if its listener is attached; a move puts ring and dot at the same point; the styles stay `applyState` of the flags |
| CustomCursor.Cursor.OnMove | src/components/CustomCursor.tsx:24-40 | moves both elements to the pointer and updates the flags; it reports that `applyState` ran exactly when the flags' projection changed, and the styles equal `applyState` of the new flags |
| CustomCursor.Cursor.OnLeave | src/components/CustomCursor.tsx:42 | clears `visible` and re-applies the styles |
| CustomCursor.Cursor.OnEnter | src/components/CustomCursor.tsx:43 | sets `visible` and re-applies the styles |
| CustomCursor.Cursor.Apply | src/components/CustomCursor.tsx:17-22 | writes exactly `applyState` of the flags |
| Hero.Untracked | src/components/Hero.tsx:17 | an effect cleanup cancels every timer it returned, and only the untracked `setDeleting(true)` timers survive |
| Hero.Render | src/components/Hero.tsx:14-41 | a render and its effect runs never change the text shown |
| Hero.RenderOnFullWord | src/components/Hero.tsx:22-26 | on a fully typed word the render pauses, leaving `setDeleting(true)` and then the un-pause timer pending |
| Hero.RenderOnEmptied | src/components/Hero.tsx:28-32 | on an emptied deletion the render moves to the next role and schedules a 70 ms typing tick for it |
| Hero.InitIsTyping | src/components/Hero.tsx:9-12 | on mount the animator starts typing the first role, one character every 70 ms, in a reachable state |
| Hero.RenderFromQuiet | src/components/Hero.tsx:14-41 | what one render schedules from each phase: un-pause while paused; pause with `setDeleting` then un-pause on a full word; the next role after an emptied deletion; a tick otherwise |
| Hero.FireTable | src/components/Hero.tsx:14-41 | the exact state after each timer fires from each reachable phase, taking each callback and its re-render as one step, which restarts the un-pause timer when deletion starts |
| Hero.BatchedFiringAgrees | src/components/Hero.tsx:15-26 | when `setDeleting(true)` and the un-pause timer both run before React renders, the invariant holds and the state reached is the one the two separate firings reach: deleting at 40 ms a character, not paused |
| Hero.FireKeepsInv | src/components/Hero.tsx:14-41 | every timer firing keeps the invariant: the text is a prefix of the role, and exactly one of the three phases is pending |
| Hero.RunKeepsInv | src/components/Hero.tsx:14-41 | the invariant holds after any number of timer firings |
| Hero.DisplayedIsPrefix | src/components/Hero.tsx:20-39 | from mount onward the text shown is always a prefix of the current role |
| Hero.TickTypesOrDeletes | src/components/Hero.tsx:35-39 | a typing tick appends the word's next character; a deleting tick drops the last character |
| Hero.IndexAdvancesOnlyWhenEmptied | src/components/Hero.tsx:28-31 | the role index changes only when a deleting tick empties the text; it then advances by one modulo 4 and deletion stops |
| Hero.DeletionStartsOnFullWord | src/components/Hero.tsx:22-25 | deletion begins only from a pause on the fully typed word, by the `setDeleting(true)` timer |
| Hero.PauseSchedulesNoTick | src/components/Hero.tsx:15-18 | while paused no character tick is pending; every pending tick waits 40 ms while deleting and 70 ms while typing |
| Hero.RolesNonEmpty | src/components/Hero.tsx:6 | every role name is non-empty |
| Hero.TypingRole.constructor | src/components/Hero.tsx:9-14 | mounting yields the initial state `Init()` |
| Hero.TypingRole.Effect | src/components/Hero.tsx:14-41 | one cleanup-and-effect run leaves the cells and timers as `Render` says |
| Hero.TypingRole.OnTimer | src/components/Hero.tsx:14-41 | the earliest timer's callback runs and the result is `Fire` of the old state |
| Hero.TypingRole.OnTimersBatched | src/components/Hero.tsx:14-41 | the two earliest callbacks run before one render, and the result is `FireBatched` of the old state |
| Hero.TypingRole.Unmount | src/components/Hero.tsx:14-41 | unmounting cancels the tracked timers; only an untracked `setDeleting(true)` timer can remain |
| Hero.DownloadPicksLanguage | src/components/Hero.tsx:61-71 | English opens `/Amadou Boubacar Niang cv anglais.pdf` and French opens `/Amadou Boubacar Niang - CV.pdf`, in a new tab; the toast describes the language of the file opened |
| Hero.Greeting | src/components/Hero.tsx:98 | the chip is in French exactly when the language is French |
| Navigation.MenuMatchesSections | src/components/Navigation.tsx:13-24 | the menu entries list the scroll-spy's section ids in its order, each linking to its own anchor, in the order the page renders the sections |
| Navigation.Ids | src/components/Navigation.tsx:25 | the ids of a list of offsets, position by position |
| Navigation.UpdateOffsets | src/components/Navigation.tsx:27-35 | an id is kept if and only if its section is in the document with a non-negative top; each kept top is that section's top; the kept ids are in `sectionIds` order |
| Navigation.ScanBack | src/components/Navigation.tsx:41-46 | finds the last cached section whose top is at or above the threshold, with every later one below it; -1 when none qualifies |
| Navigation.AtMostOneActive | src/components/Navigation.tsx:77-78 | at most one menu entry is highlighted |
| Navigation.MenuIndexOfItem | src/components/Navigation.tsx:13-21 | the menu's ids are pairwise distinct, each at its own position |
| Navigation.Nav.constructor | src/components/Navigation.tsx:8-10 | the menu starts closed, `home` is active and the bar is not scrolled |
| Navigation.Nav.Remeasure | src/components/Navigation.tsx:27-36 | the cache becomes `updateOffsets` of the section ids |
| Navigation.Nav.HandleScroll | src/components/Navigation.tsx:38-47 | `scrolled` is `scrollY > 40`; the active section becomes the last cached section at or above `scrollY + innerHeight / 3`, or stays as it was when none is |
| Navigation.ScanSettlesUniquely | src/components/Navigation.tsx:41-46 | the scan's outcome is determined: two active sections that both satisfy it are the same |
| Navigation.Nav.Mount | src/components/Navigation.tsx:36-51 | measures, adds the scroll and resize listeners and handles the scroll position once: `scrolled` follows the threshold and the active section becomes the last freshly measured section at or above `scrollY + innerHeight / 3`, or stays when none is |
| Navigation.Nav.Unmount | src/components/Navigation.tsx:52-55 | removes both listeners and nothing else |
| Navigation.Nav.OnScroll | src/components/Navigation.tsx:38-49 | a scroll reaches the handler only while its listener is attached, and then sets `scrolled` and the active section as `handleScroll` does; otherwise nothing changes |
| Navigation.Nav.OnResize | src/components/Navigation.tsx:50 | a resize re-measures only while its listener is attached |
| Navigation.Nav.ToggleMenu | src/components/Navigation.tsx:159 | the hamburger flips `isOpen` and nothing else |
| Navigation.Nav.SelectMobileItem | src/components/Navigation.tsx:211 | choosing a mobile entry closes the menu |
| ScrollProgress.Ratio | src/components/ScrollProgress.tsx:13-14 | for a positive scrollable height the scale times that height is `scrollY`; otherwise the scale is 0 |
| ScrollProgress.RatioInUnitInterval | src/components/ScrollProgress.tsx:13-14 | within the scrollable range the scale lies in [0, 1] and is 1 at the bottom |
| ScrollProgress.ProgressBar.constructor | src/components/ScrollProgress.tsx:33 | the bar starts at scale 0 with no frame pending |
| ScrollProgress.ProgressBar.Mount | src/components/ScrollProgress.tsx:22 | the listener is attached with no frame pending |
| ScrollProgress.ProgressBar.OnScroll | src/components/ScrollProgress.tsx:17-20 | a scroll with a frame pending does nothing; otherwise exactly one new frame is requested, so at most one frame is ever pending |
| ScrollProgress.ProgressBar.RunFrame | src/components/ScrollProgress.tsx:9-15 | the pending marker is cleared even when the bar is gone; the bar's attachment is unchanged, and if the bar is there its scale becomes `Ratio`, otherwise the scale is untouched |
| ScrollProgress.ProgressBar.Unmount | src/components/ScrollProgress.tsx:23-26 | teardown removes the listener and cancels the pending frame, so no frame is left |
| Contact.Validate | src/components/Contact.tsx:9-14 | each field fails if and only if its rule fails (name under 2, subject under 3, message under 20 characters, e-mail not valid), each with its own message text |
| Contact.FieldsIndependent | src/components/Contact.tsx:9-14 | a field's error depends on that field's value alone |
| Contact.FourErrorsExample | src/components/Contact.tsx:9-14 | a submission breaking every rule, with the e-mail left empty so that the browser lets it through, reports four errors, one per field |
| Contact.EmailErrorNeedsBrowserPass | src/components/Contact.tsx:136-137 | the schema's e-mail error can only appear for an empty address or one the browser's address check accepts and the schema rejects |
| Contact.ValidExample | src/components/Contact.tsx:9-14 | well-formed data yields no error |
| Contact.ContactForm.constructor | src/components/Contact.tsx:20-27 | the form starts empty, with no error, not submitting and not acknowledged |
| Contact.ContactForm.Edit | src/components/Contact.tsx:112-113 | typing changes only that field, and only while the form is shown |
| Contact.ContactForm.Submit | src/components/Contact.tsx:104-137 | nothing happens while the acknowledgement is shown or the button is disabled, nor when the `type="email"` input holds a non-empty address the browser rejects (the old errors stay); otherwise the errors become `Validate` of the values, and `onSubmit` starts if and only if there is no error |
| Contact.ContactForm.SubmitCompleted | src/components/Contact.tsx:29-34 | the submitted data is logged, the acknowledgement replaces the form, the form is reset and the hide timer starts |
| Contact.ContactForm.HideTimerFired | src/components/Contact.tsx:34 | the form comes back, enabled, with the values and errors it had |
| ViteConfig.Includes | vite.config.ts:29 | `includes` holds if and only if the fragment occurs at some position of the id |
| ViteConfig.FirstMatch | vite.config.ts:28-44 | returns the chunk of the first rule that matches, and nothing if and only if no rule matches |
| ViteConfig.ManualChunksIsFirstMatch | vite.config.ts:28-44 | the `manualChunks` if-chain is first-match over the rule table in source order, returning undefined when no rule matches |
| ViteConfig.ReactGoesToVendor | vite.config.ts:29-31 | any id containing `node_modules/react/` goes to `react-vendor` |
| ViteConfig.ReactRouterIsNotVendor | vite.config.ts:29-43 | `node_modules/react-router/index.js` is not taken by the vendor rule and lands in `router` |
| ViteConfig.RouterChunkWhenOnlyRouterMatches | vite.config.ts:29-43 | an id containing `node_modules/react-router/` and no fragment of an earlier rule goes to `router` |
| ViteConfig.Present | vite.config.ts:16 | `filter(Boolean)` keeps exactly the present entries, and a present first entry stays first |
| ViteConfig.TaggerOnlyInDevelopment | vite.config.ts:12-16 | the component tagger is built in if and only if the mode is `development`, and the React plugin always comes first |
| ViteConfig.AliasResolvesIntoSrc | vite.config.ts:17-21 | `@/rest` resolves under the source directory and `@` alone to the source directory itself; every other path, scoped packages such as `@radix-ui/react-toast` included, is left alone |

## Left out

- The real DOM and window APIs are parameters. These are `getBoundingClientRect` (a map from section id to top), `matchMedia` (the `isTouch` flag), `closest` (the `clickable` flag), `scrollY`, `innerHeight` and `scrollHeight`.
- `window.open` and the toast are the returned `Download` record.
- Real time is not modelled. Timers and animation frames are events. The 40 and 70 ms tick delays are kept as labels on the pending ticks. The 900, 1400 and 5000 ms delays appear only as the order in which their events fire: `SubmitCompleted`, the un-pause and `setDeleting(true)` timers, and `HideTimerFired` carry no duration.
- The 900 ms wait in `onSubmit` is the `SubmitCompleted` step. The `console.log` is the `sent` log.
- Floating point is not modelled. Offsets, the scroll ratio and style values are `real`, so rounding is absent.
- String lengths count Dafny characters, while JavaScript counts UTF-16 code units. The two differ only outside the Basic Multilingual Plane.
- The e-mail format checks are parameters: `isEmail` for the schema library and `htmlEmail` for the browser's check of the `type="email"` input. Neither definition of a valid address is part of this model.
- Hero.FireTable: takes a timer callback, the re-render it causes and the effect cleanup as one atomic step, so its `setDeleting(true)` case restarts the un-pause timer. Only the batched order of exactly the two pending timers is modelled beside it (`Hero.FireBatched`). The model keeps no clock, so the 1400 ms that the restart adds is not stated.
- Contact.ContactForm.Edit: leaves `errors` as they were. The form library re-validates fields on change after any submission, and that is not modelled.
- react-hook-form's other state is not modelled: touched and dirty flags, focus management, and the `isSubmitting` window during validation itself.
- The translation function `t`, the language provider and the language toggle are not part of this model. Translation keys appear as plain strings.
- Shader background, noise overlay, logo, footer and the static sections (About, Experience, Education, Certifications, Projects) are not modelled. They are WebGL rendering or fixed content with no logic to state.
- Framer-motion animations, CSS transitions and styling are not modelled.
- The dev-server settings and build constants of vite.config.ts are not modelled: host, port, target, CSS code splitting and the chunk-size warning limit. They are configuration values with no behaviour to state. `path.resolve` is string concatenation with the `srcDir` parameter.
- A `setDeleting(true)` or `setSubmitted(false)` callback that fires after unmount is a no-op in React. It is not modelled past `Hero.TypingRole.Unmount`.
