# Hush site logic in Dafny

Hush is a marketing site for a neonatal monitoring device, built with
Next.js and React. Most of it renders constant content through layout
variants. This project models the parts that compute something, and proves
what those parts promise:

- **The scroll-spy** (`useActiveSection`). An intersection observer reports
  entries for the home page's sections. The hook keeps the latest entry per
  section id in an insertion-ordered map that is overwritten in place. After
  each batch it makes the intersecting section with the largest visible
  height active. Near the bottom of the page the last section is forced.
  Modelled as the class `ActiveSection.ActiveSectionTracker`; the map is a
  `seq<Entry>` field, and the ranking is specified by functions
  (`PutAll`, `Visible`, `SortByHeight`, `Winner`).
- **The navigation bar** (`NavigationBar`). From the route and the active
  section id it derives each entry's link target and highlight. It also
  holds one menu flag.
- **The intro overlay** (`Preloader`). It is a small state machine driven
  by timers and video events. Timers are modelled as explicit handles and
  there is one method per event.
- **The icon classifiers** (`getIconForType`, `statIcon`). Each is an ordered,
  case-insensitive substring rule with a fallback. The bento layout rule and
  the card-grid image cycle sit beside them.
- **The content tables** (`content.ts`). These are constants whose
  consistency the pages rely on: unique React keys, navigation anchors that
  exist, and a bill of materials whose line totals add up to the stated
  budget.
- **The home page wiring** (`page.tsx`). While the intro plays, the scroll-spy
  gets no ids. Afterwards its active id drives the navigation highlight.

Browser APIs are inputs. An observer batch is a sequence of
`Entry(id, isIntersecting, height)`. A scroll event is a
`Geometry(innerHeight, scrollY, bodyHeight)`. The set of ids that
`getElementById` finds is a parameter `present`. React state setters are
immediate assignments.

## Where the code and its description differ

The model follows the code in each case:

- **Ties in the scroll-spy.** Of two intersecting sections of equal height,
  the one inserted into the map first wins, not the one reported last. `Map`
  keeps a key's first insertion position and `Array.prototype.sort` is
  stable (`ActiveSection.TieGoesToEarlierRecord`).
- **No section found.** When none of the given ids is in the document, the
  effect returns early and leaves the active id as it was, not "". For a hook
  mounted with the ids, that is the first id (`HomePage.NoTargetsKeepsFirstId`).
- **The overlay may complete twice.** It can call `onComplete` twice, and it
  can call it once more after it was torn down; see Findings.

## Model

| member | source | states |
|---|---|---|
| Strings.ToLower | app/components/SolutionSection.tsx:31 | lower-casing keeps the length and maps every character through ASCII lower-casing, position by position |
| Strings.ToLowerIdempotent | app/components/MainProduct_Centered.tsx:14-16 | lower-casing twice is lower-casing once, so the classifiers ignore the case of their input |
| Strings.Contains | app/components/SolutionSection.tsx:32-37 | `includes`: the empty keyword occurs in every text, and a keyword longer than the text never occurs |
| Strings.ContainsIffOccurs | app/components/SolutionSection.tsx:32-37 | `includes` holds exactly when the keyword occurs at some position |
| Strings.IndexOf | app/lib/content.ts:310 | the position found is an occurrence and no earlier position is one; none means no occurrence anywhere |
| Strings.TrimEnd | app/lib/content.ts:262 | the trimmed text is a prefix that does not end in a space, and only spaces were removed |
| Strings.ParseShowNat | app/lib/content.ts:262-325 | a decimal numeral parses back to its number |
| Strings.ShowParseNat | app/lib/content.ts:262-325 | a digit string without leading zeros is the numeral of the number it parses to |
| Content.AmountOfNumeral | app/lib/content.ts:262-325 | a numeral followed by trailing spaces reads as its number |
| Content.AmountOfParts | app/lib/content.ts:310 | a price written as two parts, "40 / 10", reads as the sum of the parts |
| Content.TotalIsSumOfAmounts | app/lib/content.ts:262-325 | when every line total reads as a number, the total of the table is the sum of those numbers |
| Content.LineTotalReads | app/lib/content.ts:262-325 | each row's `totalCost` reads as the row's line total |
| Content.BudgetIsStated | app/lib/content.ts:328 | the stated budget "NT$2355 " reads as 2355 after the currency |
| Content.BomTotalsMatchBudget | app/lib/content.ts:253-329 | the line totals, trailing spaces trimmed, sum to 2355, which is the stated budget |
| Content.SingleUnitTotalsMatchPrice | app/lib/content.ts:259-318 | every row of quantity 1 has a readable price, and its total equals that price, "40 / 10" counted as 50 |
| Content.BomPartsDistinct | app/components/BomSection.tsx:26 | part names, the rows' React keys, are pairwise distinct |
| Content.NavigationKeysDistinct | app/lib/content.ts:84-92 | navigation labels, the links' React keys, are pairwise distinct, and so are hrefs |
| Content.SectionLinksTargetHomeSections | app/page.tsx:33 | every section entry's href is one of the home page's section ids |
| Content.LayerStatMatchesArchitecture | app/lib/content.ts:121-125 | the "System Layers" statistic "4" equals the number of architecture layers |
| Content.PainPointsMatchCards | app/components/ProblemSection.tsx:27 | the heading's "4 Pain Points" equals the number of problem cards, and the card ids are distinct |
| Keywords.FirstMatch | app/components/SolutionSection.tsx:30-39 | the result is the icon of the earliest rule with a keyword in the text, or the fallback when no rule has one |
| Keywords.FiresPair | app/components/SolutionSection.tsx:32 | a two-keyword rule fires exactly when either keyword occurs |
| Keywords.KeywordAbsent | app/components/SolutionSection.tsx:31-32 | a keyword with a letter that the text lacks in both cases never occurs in the lower-cased text |
| Keywords.KeywordPresent | app/components/MainProduct_Centered.tsx:14 | a slice that lower-cases to the keyword makes the lower-cased text contain it |
| SolutionSection.IconForType | app/components/SolutionSection.tsx:30-39 | `getIconForType` equals the ordered first-match rule over the type rules: hardware/sensor → Cpu, software/app → Layers, ai/intelligence → BrainCircuit, data → Database, research/bio → Microscope, network → Network, else Activity |
| SolutionSection.IconForTypeIgnoresCase | app/components/SolutionSection.tsx:31 | the icon of a type equals the icon of its lower-cased form |
| SolutionSection.DefaultIconWhenLettersMissing | app/components/SolutionSection.tsx:38 | a type lacking a letter of every keyword maps to Activity |
| SolutionSection.ShippedFeatureIcons | app/lib/content.ts:156-173 | both shipped feature types, "Wearable " and "Edge Device ", fall through to Activity |
| SolutionSection.TagRowFor | app/components/SolutionSection.tsx:137-148 | the shown tags are the prefix of the key features of length min(limit, length), and "+ more" shows exactly when some key feature is left out |
| SolutionSection.BentoCards | app/components/SolutionSection.tsx:98-110 | one card per feature, in order, each built from its index and feature |
| SolutionSection.BentoLayout | app/components/SolutionSection.tsx:104-105 | cards 0 and 1 span 3 columns and show up to 3 tags, the rest span 2 and show up to 2; no tag row without key features; "+ more" exactly when the list exceeds the limit |
| SolutionSection.CardGridImage | app/components/SolutionSection.tsx:180 | the image of a card is one of the three card-grid images |
| SolutionSection.CardGridImagesCycle | app/components/SolutionSection.tsx:163-167 | images repeat with period three, starting from the first |
| MainProduct.StatIcon | app/components/MainProduct_Centered.tsx:13-18 | `statIcon` equals the ordered first-match rule: continuous → Activity before high-risk → ShieldCheck before layer → Layers, else Zap |
| MainProduct.StatIconIgnoresCase | app/components/MainProduct_Centered.tsx:14-16 | the icon of a label equals the icon of its lower-cased form |
| MainProduct.StatCards | app/components/MainProduct_Centered.tsx:57-58 | exactly one card per statistic, in input order, keyed by its label, with its icon, value and caption |
| MainProduct.ContinuousLabelIcon | app/components/MainProduct_Centered.tsx:14 | a label opening with "continuous", in any case, gets Activity |
| MainProduct.HighRiskLabelIcon | app/components/MainProduct_Centered.tsx:15 | a label opening with "high-risk" and lacking the letter c gets ShieldCheck |
| MainProduct.LayerLabelIcon | app/components/MainProduct_Centered.tsx:16 | a label holding "layer" and lacking the letters c and h gets Layers |
| MainProduct.ShippedStatIcons | app/lib/content.ts:110-126 | the shipped statistics show Activity, ShieldCheck and Layers, in that order |
| ActiveSection.IdIndex | app/lib/hooks/useActiveSection.ts:31 | the map position of an id is its first record, and there is none exactly when no record has that id |
| ActiveSection.Lookup | app/lib/hooks/useActiveSection.ts:31 | a recorded entry for an id carries that id; none exactly when the id is unrecorded |
| ActiveSection.Put | app/lib/hooks/useActiveSection.ts:31 | `map.set` makes the entry the id's record, leaves every other id's record alone, overwrites in place when the id is recorded, appends otherwise, and keeps ids unique |
| ActiveSection.PutAll | app/lib/hooks/useActiveSection.ts:30-32 | recording a batch keeps ids unique and introduces no entry from outside the map and the batch |
| ActiveSection.PutAllLookup | app/lib/hooks/useActiveSection.ts:30-32 | after a batch each reported id maps to its last report in the batch, and every unreported id keeps its record |
| ActiveSection.PutAllFresh | app/lib/hooks/useActiveSection.ts:30-32 | a batch of new, distinct ids is appended in report order |
| ActiveSection.Visible | app/lib/hooks/useActiveSection.ts:34-35 | the filter keeps exactly the intersecting records, and is empty exactly when none intersects |
| ActiveSection.SortByHeight | app/lib/hooks/useActiveSection.ts:36-39 | the sort is a permutation, tallest first |
| ActiveSection.InsertKeepsDescending | app/lib/hooks/useActiveSection.ts:36-39 | stable insertion into a tallest-first list keeps it tallest first |
| ActiveSection.HeadRanksFirst | app/lib/hooks/useActiveSection.ts:34-42 | with some record intersecting, the head of the sorted list is the earliest of the tallest intersecting records |
| ActiveSection.Winner | app/lib/hooks/useActiveSection.ts:34-43 | a new active id exists exactly when some record intersects, and it is the id of a record that ranks first: intersecting, no intersecting record taller, every earlier intersecting record shorter |
| ActiveSection.RanksFirstWins | app/lib/hooks/useActiveSection.ts:41-42 | the record that ranks first is the one whose id becomes active |
| ActiveSection.RanksFirstUnique | app/lib/hooks/useActiveSection.ts:36-39 | at most one record ranks first |
| ActiveSection.TieGoesToEarlierRecord | app/lib/hooks/useActiveSection.ts:36-42 | of two intersecting records of equal height, the later-inserted one never becomes active |
| ActiveSection.NearBottom | app/lib/hooks/useActiveSection.ts:57 | near the bottom means the viewport's bottom edge is at most 80 px above the end of the document, the comparison itself; `NearBottomStaysNear` and `AfterScroll` carry what follows from it |
| ActiveSection.NearBottomStaysNear | app/lib/hooks/useActiveSection.ts:57 | scrolling further down, with the same window and document, never leaves the bottom zone |
| ActiveSection.AfterScroll | app/lib/hooks/useActiveSection.ts:55-62 | within 80 px of the bottom the active id becomes the last configured id; otherwise, or with no ids, it is unchanged |
| ActiveSection.AfterScrollIdempotent | app/lib/hooks/useActiveSection.ts:55-62 | handling the same scroll position twice equals handling it once |
| ActiveSection.Targets | app/lib/hooks/useActiveSection.ts:17-19 | the targets are exactly the given ids found in the document |
| ActiveSection.ActiveSectionTracker.constructor | app/lib/hooks/useActiveSection.ts:6-7 | the initial active id is the first id, or "" for an empty list; the map is empty and nothing is installed |
| ActiveSection.ActiveSectionTracker.RunEffect | app/lib/hooks/useActiveSection.ts:11-26 | an empty list sets the active id to "" and installs nothing; ids none of which is found install nothing and keep the active id; otherwise the map is cleared, the found targets observed and the scroll listener attached |
| ActiveSection.ActiveSectionTracker.OnIntersect | app/lib/hooks/useActiveSection.ts:29-43 | the loop records the batch into the map, and the active id becomes the winner of the ranking, or stays when nothing intersects |
| ActiveSection.ActiveSectionTracker.OnScroll | app/lib/hooks/useActiveSection.ts:55-62 | the active id becomes the near-bottom result; nothing else changes |
| ActiveSection.ActiveSectionTracker.Cleanup | app/lib/hooks/useActiveSection.ts:66-70 | teardown disconnects the observer, detaches the listener and clears the map, so earlier records never affect a later ranking |
| Navigation.CurrentPath | app/components/NavigationBar.tsx:20-21 | a missing or empty pathname reads as "/", any other is kept |
| Navigation.NormalizedSectionId | app/components/NavigationBar.tsx:26 | a non-empty active id is kept; otherwise "overview" on the home page and nothing elsewhere |
| Navigation.ContextOf | app/components/NavigationBar.tsx:20-26 | the root route, also a missing or empty pathname, is the only home page (`isHome`); a non-empty active id is the selected section; without one the selected section is "overview" on the home page and absent elsewhere; it is never empty |
| Navigation.LinkHref | app/components/NavigationBar.tsx:39-41 | a section entry links to an anchor that leads to its section on every page, relative ("#") exactly on the home page; a route entry links to its href verbatim |
| Navigation.IsItemActive | app/components/NavigationBar.tsx:43-51 | a section entry is active exactly when the normalized id is defined, non-empty and is where its link leads; a route entry exactly when its link is the current path |
| Navigation.PageLinkIsRoute | app/components/NavigationBar.tsx:39-41 | a route entry links to its href verbatim, which is no anchor |
| Navigation.DesktopLinks | app/components/NavigationBar.tsx:38-65 | one link per entry, in order, keyed by label, with its target, highlighted exactly when the entry is active, and `aria-current="page"` exactly on highlighted links |
| Navigation.MobileLinks | app/components/NavigationBar.tsx:79-103 | a closed menu shows no links; the open dropdown shows the desktop list's keys, targets and highlights, entry by entry |
| Navigation.AtMostOneActivePerKind | app/components/NavigationBar.tsx:43-51 | with distinct hrefs, at most one section entry and at most one route entry are active |
| Navigation.OffHomeNoSectionActive | app/components/NavigationBar.tsx:43-45 | off the home page, without an active id, no section entry is active |
| Navigation.HomeDefaultsToOverview | app/components/NavigationBar.tsx:25-26 | on the home page, before any section is reported, "Overview" is the only active entry |
| Navigation.HomeHighlightsAtMostOne | app/components/NavigationBar.tsx:43-51 | on the home page the shipped entries highlight at most one link, whatever the active id |
| Navigation.NavigationBar.constructor | app/components/NavigationBar.tsx:19 | the mobile menu starts closed |
| Navigation.NavigationBar.ShownMobileLinks | app/components/NavigationBar.tsx:79-103 | the dropdown in the bar's current state: no links while the menu is closed, otherwise one per entry with its key, target and highlight |
| Navigation.NavigationBar.ToggleMenu | app/components/NavigationBar.tsx:69-71 | the menu button flips the open flag; closing an open menu leaves the dropdown empty |
| Navigation.NavigationBar.TapMobileLink | app/components/NavigationBar.tsx:103 | tapping a dropdown link closes the menu, so the dropdown then shows no links |
| Preloader.OpacityClass | app/components/Preloader.tsx:83-85 | the overlay is opaque exactly when it is visible and not faded |
| Preloader.PointerEvents | app/components/Preloader.tsx:91 | pointer events are enabled exactly when the overlay is visible |
| Preloader.Preloader.constructor | app/components/Preloader.tsx:7-12 | the overlay starts visible and not faded; with a video element the four listeners and the minimum timer are armed, without one nothing is |
| Preloader.Preloader.ArmFade | app/components/Preloader.tsx:37-40 | arming a fade timer, here and in the minimum timer's callback, adds a new handle to the armed timers and stores it over the slot's old handle, which stays armed; nothing else changes |
| Preloader.Preloader.MinTimerFires | app/components/Preloader.tsx:63-69 | the minimum timer fades the overlay and arms a fade timer, whose handle overwrites the slot |
| Preloader.Preloader.VideoEnded | app/components/Preloader.tsx:28-41 | a finished video clears the minimum timer, fades the overlay and arms another fade timer in the slot |
| Preloader.Preloader.VideoError | app/components/Preloader.tsx:43-52 | a failed video does the same as a finished one |
| Preloader.Preloader.FadeTimerFires | app/components/Preloader.tsx:37-40 | a fade timer hides the overlay and calls `onComplete` once more; the overlay stays faded |
| Preloader.Preloader.Cleanup | app/components/Preloader.tsx:71-78 | teardown cancels the minimum timer and only the fade timer in the slot, and removes exactly the four listeners |
| Preloader.MinTimerThenEndedCompletesTwice | app/components/Preloader.tsx:17-69 | the minimum timer and then the video's end arm two fade timers, and `onComplete` runs twice |
| Preloader.CompletionAfterCleanup | app/components/Preloader.tsx:71-78 | after teardown one fade timer is still armed, and `onComplete` runs after teardown |
| Preloader.GuardedPreloader.constructor | app/components/Preloader.tsx:7-12 | the corrected overlay starts as written: visible, not faded, listeners and minimum timer armed only with a video element |
| Preloader.GuardedPreloader.StartFade | app/components/Preloader.tsx:35-40 | fading arms a fade timer only when none was armed before; a second start keeps the one timer in the slot |
| Preloader.GuardedPreloader.MinTimerFires | app/components/Preloader.tsx:63-69 | the minimum timer fades the overlay and starts the fade at most once |
| Preloader.GuardedPreloader.VideoEnded | app/components/Preloader.tsx:28-41 | a finished video clears the minimum timer, fades the overlay and starts the fade at most once |
| Preloader.GuardedPreloader.VideoError | app/components/Preloader.tsx:43-52 | a failed video does the same as a finished one |
| Preloader.GuardedPreloader.FadeTimerFires | app/components/Preloader.tsx:37-40 | with the fade started only once, the fade timer completes for the first and only time |
| Preloader.GuardedPreloader.Cleanup | app/components/Preloader.tsx:71-78 | with the guard, teardown leaves no timer and no listener |
| Preloader.GuardedMinTimerThenEnded | app/components/Preloader.tsx:28-69 | the run that completes twice as written completes once with the guard, and nothing is armed after teardown |
| HomePage.FirstBatchWinner | app/lib/hooks/useActiveSection.ts:30-43 | in a first batch of distinct ids, the record that ranks first becomes active |
| HomePage.OnlySectionHighlighted | app/components/NavigationBar.tsx:43-51 | on the home page, an active id that names a section entry highlights that entry alone |
| HomePage.TrackHome | app/page.tsx:32-34 | the hook given no ids while loading has active id ""; given the section ids afterwards, a first batch in which "architecture" ranks first makes it active |
| HomePage.ArchitectureScenario | app/page.tsx:32-34 | while loading, the hook gets no ids and "Overview" alone is highlighted; after loading, a batch in which "architecture" ranks first makes "Architecture" the only highlighted entry |
| HomePage.NoTargetsKeepsFirstId | app/lib/hooks/useActiveSection.ts:21-23 | a hook mounted with ids, none of which is in the document, keeps its first id active |

## Left out

- Browser geometry is not modelled. The model leaves out IntersectionObserver root margins and thresholds, and how `intersectionRect.height` is measured. Heights are natural numbers given as input; the source's fractional pixels are not modelled.
- `getElementById` is abstracted as the set `present` of ids found in the document. `observer.observe` is modelled as recording the observed ids.
- React scheduling is not modelled. `useMemo`, render timing and the `queueMicrotask` around `setActiveId("")` are left out; every state setter is an immediate assignment.
- An effect re-run is modelled as `Cleanup` followed by `RunEffect`. The dependency comparison that triggers a re-run is left out.
- Preloader: re-running the effect when the `onComplete` identity changes is not modelled; the overlay is mounted once. `video.load()`, `console.log` and the bodies of the no-op `canplay` and `play` handlers are left out. Those two listeners are only attached and removed.
- Real time is left out. `PRELOAD_MS` and `FADE_MS` are constants, and timers fire when their event method is called. Any armed timer may fire in any order.
- Strings.ToLower: ASCII case only, because JavaScript's Unicode `toLowerCase` is not modelled. Every label and type in the content is ASCII.
- The `Array.isArray` guard in the navigation bar is left out; the navigation list is a sequence.
- The link `className` strings and all other markup are left out. The highlight is the `active` flag.
- `GoalsSection` chart scaling uses floating point and is left out. `useHashScroll`, the templating components and the page shells other than the home page's wiring are also left out.
- The icons of the shipped labels and types are proved for those strings only. The first-match rule itself is proved for every input.
- Content: `siteMetadataContent`, `heroContent`, the section titles, `businessGoals`, `teamMembers` and `heroPosterSrc` are left out. No consistency claim reads them, and they are only rendered.

## Findings

| source | as written | input that shows it | evidently intended | confidence | as-written member | corrected member |
|---|---|---|---|---|---|---|
| app/components/Preloader.tsx:37, 65 | every arming of a fade timer overwrites the single `fadeTimeout` slot, and nothing stops a second arming | the minimum timer fires, then the video ends before the first fade timer fires: two fade timers run and `onComplete` is called twice | the overlay completes once; the fade starts only if it has not started yet | not executed | Preloader.MinTimerThenEndedCompletesTwice | Preloader.GuardedPreloader.FadeTimerFires |
| app/components/Preloader.tsx:72-73 | cleanup clears only the timer in the `fadeTimeout` slot | the same two fade timers, then unmount: the first timer stays armed and `onComplete` runs after teardown | teardown leaves nothing armed | not executed | Preloader.CompletionAfterCleanup | Preloader.GuardedPreloader.Cleanup |

Both defects are latent in the component: no shipped page reaches them.
None of the pages that mount the overlay (app/page.tsx:44,
app/team/page.tsx:42, app/bom/page.tsx:26) passes a video source, so the
video element has no `src` and never plays to its end. Each page also unmounts the overlay on the first
completion, and that unmount's cleanup cancels the second fade timer, the
one in the slot.
