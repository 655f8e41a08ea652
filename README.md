# SME Connect: a verified model of the USSD menu navigator

SME Connect is a front-end prototype of a discovery platform for small
businesses. Everything it shows comes from static, in-memory sample data.
The one piece with real control logic is its simulated USSD phone menu
(`src/components/USSDFlow.tsx`). That menu is a fixed table of screens. Each
screen has keyed options that lead to other screens. One session keeps three
pieces of state: the current screen, the history of visited screens, and the
reply buffer. The keypad and Send buttons feed keys into it, and "Restart
Demo" resets it.

This project models that navigator in Dafny and proves what it promises. It
also models two smaller pieces: the business search filter of the customer
discovery page (`src/components/CustomerDiscovery.tsx`), with the views
derived from it, and the top-level router state (`src/App.tsx`).

Files and modules:

- `wrappers.dfy` (`Wrappers`): the `Option` type. It stands for the source's
  `undefined` and `null`.
- `ussd_menu.dfy` (`UssdMenu`): the `MenuOption` and `FlowStep` records and
  the demo's menu table, one constant per screen. It also holds
  `FindOption`, which is `Array.prototype.find` on a screen's options, and
  the partial lookup `Lookup`. Facts about the concrete table are proved
  here: every screen is stored under its own id, every key is one
  character, End Session occurs once, and some targets have no screen.
- `ussd_session.dfy` (`UssdSession`): the session as a value, and one
  function per handler: `HandleInput`, `PressKey`, `Send`, and `Run` for a
  sequence of keys. The lemmas state the navigator's properties.
- `ussd_flow.dfy` (`UssdFlow`): the `Navigator` class. Its three fields are
  updated in place by `HandleInput`, `HandleReset`, `PressKey` and `Send`.
  Each method is proved to keep the history invariant and to leave exactly
  the state that the matching `UssdSession` function gives.
- `discovery.dfy` (`CustomerDiscovery`): the sample businesses, ASCII
  lower-casing, substring search, and the filter as an order-preserving
  `Keep` (JavaScript's `filter`). Then the featured section, the count, the
  empty state and the map preview.
- `app.dfy` (`App`): the seven pages and the `Router` class with
  `navigateTo`.

Three behaviours of the code shape the model:

- The code never validates the table. Many option targets name no screen,
  for example `reg-start`, `quickfix-details` and `directions-sms`. On such a
  screen `ussdFlow[currentStep]` is `undefined`, every key is ignored, and
  only reset leaves it. There is no configuration error at load time. The
  model's lookup is partial. `WellFormed` says what a validated table would
  satisfy, and `TableHasDanglingTargets` proves that the demo's table does
  not satisfy it.
- A digit key REPLACES the reply buffer with itself and submits it at once.
  Only `*` and `#` accumulate.
- End Session is recognised by comparing the option's label: `next` must be
  `"exit"` and `text` must be `"End Session"`.

## Model

| member | source | states |
|---|---|---|
| UssdMenu.FindOption | src/components/USSDFlow.tsx:188 | the result is absent iff no option has exactly this key; otherwise it is an option with this key and no earlier option has the key (first match) |
| UssdMenu.IsEndSession | src/components/USSDFlow.tsx:191 | the definition of the End Session test (next is "exit" and text is "End Session"), with no contract of its own; EndSessionIsAbsorbing, PressKeyOnEndSession and TableEndSessionIsUnique state its properties |
| UssdMenu.Lookup | src/components/USSDFlow.tsx:187-188 | a found option belongs to the current screen and has the key; nothing is found iff the screen is missing from the table or none of its options has the key |
| UssdMenu.TableIdsMatchKeys | src/components/USSDFlow.tsx:18-179 | the entry screen "main" is in the table, and every screen is stored under its own id |
| UssdMenu.TableKeysAreSingleCharacters | src/components/USSDFlow.tsx:18-179 | every option key of every screen is one character long |
| UssdMenu.TableLacksScreens | src/components/USSDFlow.tsx:18-179 | "reg-start", "quickfix-details" and "directions-sms" have no screen in the table |
| UssdMenu.TableHasDanglingTargets | src/components/USSDFlow.tsx:103-114 | the table is not well formed: "Start Registration" targets "reg-start", which it lacks; two more options target missing screens |
| UssdMenu.TableEndSessionIsUnique | src/components/USSDFlow.tsx:170-178 | no screen other than "exit" has an End Session option; on "exit" only key "0" is End Session, and "1" and "2" are ordinary |
| UssdSession.Start | src/components/USSDFlow.tsx:182-184 | the start state satisfies the history invariant, its history is just the current screen, and its buffer is empty |
| UssdSession.HandleInput | src/components/USSDFlow.tsx:186-200 | keeps the history invariant; either nothing changes, or exactly the new screen is appended to the history and the buffer is cleared; a change needs a found option |
| UssdSession.OrdinaryTransition | src/components/USSDFlow.tsx:186-198 | if the first option with the key is not End Session, the session moves to its target: history gets the target appended and the buffer becomes "" |
| UssdSession.EndSessionIsAbsorbing | src/components/USSDFlow.tsx:190-193 | choosing an End Session option any number of times leaves the whole session unchanged |
| UssdSession.UnmatchedInputIsNoOp | src/components/USSDFlow.tsx:187-190 | a key that no option of the current screen has, or any key on a screen the table lacks, changes nothing |
| UssdSession.DanglingScreenIsStuck | src/components/USSDFlow.tsx:187-190 | on a screen the table lacks, no sequence of keys changes the session |
| UssdSession.RunOnlyAppendsHistory | src/components/USSDFlow.tsx:196-197 | any sequence of keys keeps the history invariant, keeps the old history as a prefix, and adds at most one entry per key |
| UssdSession.WellFormedKeepsScreen | src/components/USSDFlow.tsx:196-197 | with a well-formed table, a session on a screen of the table stays on one |
| UssdSession.PressKey | src/components/USSDFlow.tsx:344-351 | the definition of a keypad press, with no contract of its own; PressKeyBuffers, PressKeySubmits and PressKeyOnEndSession state its properties |
| UssdSession.Send | src/components/USSDFlow.tsx:361-365 | the definition of the Send button, with no contract of its own; SendEmptyIsNoOp, SendAfterKeyIsNoOp and SendOfLongBufferIsNoOp state its properties |
| UssdSession.PressKeyOnEndSession | src/components/USSDFlow.tsx:347-349 | a key that selects an End Session option only replaces the buffer with itself; screen and history stay |
| UssdSession.PressKeyBuffers | src/components/USSDFlow.tsx:345-346 | "*" and "#" append themselves to the buffer; screen and history stay |
| UssdSession.PressKeySubmits | src/components/USSDFlow.tsx:347-350 | any other key gives the screen and history that handleInput gives; the buffer ends "" after a transition and holds the key after an unmatched key or End Session |
| UssdSession.SendAfterKeyIsNoOp | src/components/USSDFlow.tsx:339-365 | pressing Send right after a key that is not "*" or "#" changes nothing further |
| UssdSession.SendEmptyIsNoOp | src/components/USSDFlow.tsx:362-364 | Send with an empty buffer changes nothing |
| UssdSession.SendOfLongBufferIsNoOp | src/components/USSDFlow.tsx:362-364 | with the demo's table, Send with a buffer that is not one character long (for example "**") changes nothing |
| UssdSession.EntryScenario | src/components/USSDFlow.tsx:19-28 | from the start, key "1" gives screen "find-business", history ["main", "find-business"] and an empty buffer |
| UssdSession.EntryKeypadScenario | src/components/USSDFlow.tsx:339-350 | pressing keypad "1" on the start state gives the same session, with the buffer cleared |
| UssdSession.SelfLoopsGrowHistory | src/components/USSDFlow.tsx:137-169 | on "sms-inquiry" and "hours", key "1" keeps the screen and appends it to the history once more |
| UssdSession.ExitEndSessionIsAbsorbing | src/components/USSDFlow.tsx:170-178 | on the exit screen, submitting "0" to handleInput any number of times leaves the session unchanged |
| UssdSession.ExitKeypadZeroKeepsScreen | src/components/USSDFlow.tsx:344-350 | on the exit screen, keypad "0" keeps the screen and history and leaves "0" in the buffer; pressing it again changes nothing more |
| UssdSession.RestartIsOrdinaryTransition | src/components/USSDFlow.tsx:175 | "Restart" on the exit screen appends "main" to the history and keeps the old entries, so it never yields the reset state |
| UssdSession.RegistrationPath | src/components/USSDFlow.tsx:103-114 | from the start, "2" then "1" reaches "reg-start" with history ["main", "register-business", "reg-start"] |
| UssdSession.RegistrationIsDeadEnd | src/components/USSDFlow.tsx:187-190 | on "reg-start", every sequence of keys leaves the session unchanged |
| UssdFlow.Navigator.constructor | src/components/USSDFlow.tsx:182-184 | a new session uses the demo table, is on "main" with history ["main"] and an empty buffer, and is valid |
| UssdFlow.Navigator.HandleInput | src/components/USSDFlow.tsx:186-200 | the fields end as UssdSession.HandleInput gives, and the history invariant is kept |
| UssdFlow.Navigator.HandleReset | src/components/USSDFlow.tsx:202-206 | from any state the fields become "main", ["main"], ""; the result does not depend on the old state, so reset is idempotent |
| UssdFlow.Navigator.PressKey | src/components/USSDFlow.tsx:344-351 | the fields end as UssdSession.PressKey gives, and the history invariant is kept |
| UssdFlow.Navigator.Send | src/components/USSDFlow.tsx:361-365 | the fields end as UssdSession.Send gives, and the history invariant is kept |
| CustomerDiscovery.LowerChar | src/components/CustomerDiscovery.tsx:97 | the result is never an upper-case ASCII letter; upper-case letters map to their lower-case letter and every other character is kept |
| CustomerDiscovery.Lower | src/components/CustomerDiscovery.tsx:97-98 | same length as the input, each character lower-cased in place |
| CustomerDiscovery.LowerIsIdempotent | src/components/CustomerDiscovery.tsx:97-98 | lower-casing twice is lower-casing once |
| CustomerDiscovery.Includes | src/components/CustomerDiscovery.tsx:97-98 | true iff the needle occurs in the text at some index |
| CustomerDiscovery.MatchesSearch | src/components/CustomerDiscovery.tsx:97-98 | the definition of the search test, with no contract of its own; EmptyQueryMatchesEverything and SearchIgnoresQueryCase state its properties, and Includes and Lower carry the contracts it is built on |
| CustomerDiscovery.MatchesCategory | src/components/CustomerDiscovery.tsx:99 | the definition of the category test, with no contract of its own; CategoryNarrowsAll and AbsentCategoryIsEmpty state its properties |
| CustomerDiscovery.Keep | src/components/CustomerDiscovery.tsx:96 | the result is a subsequence of the input, and holds each element that passes the test exactly as often as the input, and no other |
| CustomerDiscovery.KeepIsMonotone | src/components/CustomerDiscovery.tsx:99-100 | filtering with a stronger test gives a subsequence of filtering with a weaker one |
| CustomerDiscovery.KeepEverything | src/components/CustomerDiscovery.tsx:96 | when every element passes, filtering returns the input itself |
| CustomerDiscovery.FilterBusinesses | src/components/CustomerDiscovery.tsx:96-101 | the result is the subsequence, in original order, of exactly the businesses whose name or description contains the query (ignoring case) and whose category matches ("All" matches every category) |
| CustomerDiscovery.EmptyQueryMatchesEverything | src/components/CustomerDiscovery.tsx:97-98 | the empty query matches every business, and with "All" the filter returns the list unchanged |
| CustomerDiscovery.SearchIgnoresQueryCase | src/components/CustomerDiscovery.tsx:97-98 | a query and its lower-cased form match the same businesses |
| CustomerDiscovery.CategoryNarrowsAll | src/components/CustomerDiscovery.tsx:99-100 | for the same query, any category's result is a subsequence of the "All" result and no longer than it |
| CustomerDiscovery.Featured | src/components/CustomerDiscovery.tsx:253-254 | the featured cards are the featured businesses of the result, in order, each exactly once per occurrence |
| CustomerDiscovery.ShowFeatured | src/components/CustomerDiscovery.tsx:249 | the definition of the `some(b => b.featured)` test, with no contract of its own; FeaturedShownIffNonEmpty states its property |
| CustomerDiscovery.FeaturedShownIffNonEmpty | src/components/CustomerDiscovery.tsx:249-254 | the Featured section is shown iff it has at least one card |
| CustomerDiscovery.EmptyStateIffNothingMatches | src/components/CustomerDiscovery.tsx:267-277 | the count is 0 (so "No businesses found" is shown) iff no business passes both tests |
| CustomerDiscovery.MapPreview | src/components/CustomerDiscovery.tsx:297 | the map view lists min(4, n) businesses of a result of length n, and they are the first ones in order |
| CustomerDiscovery.SampleCategories | src/components/CustomerDiscovery.tsx:26-87 | every sample business is Automotive, Restaurant, Beauty & Health or Grocery |
| CustomerDiscovery.AbsentCategoryIsEmpty | src/components/CustomerDiscovery.tsx:99 | selecting a category other than "All" that no listed business has gives the empty result |
| CustomerDiscovery.CategoryWithoutBusinessesIsEmpty | src/components/CustomerDiscovery.tsx:26-89 | over the sample data, every category outside the four used ones, other than "All", gives the empty result for any query |
| CustomerDiscovery.UnusedCategoriesAreEmpty | src/components/CustomerDiscovery.tsx:89 | "Electronics" and "Clothing" are category buttons, and selecting either gives the empty result for any query |
| App.PageFromName | src/App.tsx:11 | a page read from a string has that string as its name |
| App.PagesAreSevenNamedValues | src/App.tsx:11 | there are exactly seven pages, their names are pairwise distinct, and each page is read back from its name |
| App.Router.constructor | src/App.tsx:14-15 | the app starts on the landing page with no business selected |
| App.Navigate | src/App.tsx:17-20 | the definition of `navigateTo` on the router's two fields, with no contract of its own; NavigateSetsPageAndSelection and NavigateIsIdempotent state its properties |
| App.Router.NavigateTo | src/App.tsx:17-20 | the fields end as App.Navigate gives from the old fields |
| App.NavigateSetsPageAndSelection | src/App.tsx:18-19 | the page is always the one asked for; the selection becomes a truthy id and otherwise stays; a change of selection implies a truthy id |
| App.NavigateIsIdempotent | src/App.tsx:17-20 | navigating twice with the same arguments gives the same state as navigating once |

## Left out

- Rendering and styling: all markup, style classes, and the UI primitives
  (Card, Button, Badge, Label, Textarea, Separator). They are presentational.
- The USSD display conditionals (src/components/USSDFlow.tsx:265-333), such
  as the extra lines shown for `hours`, `call-action` or a `details` screen.
  They are display text. Navigation does not depend on them.
- The `backTo` field of a screen. The handlers never read it; "back" is an
  ordinary option (key "9") in the table.
- The "Back to Home" and "End" buttons (`onNavigate('landing')`,
  src/components/USSDFlow.tsx:220, 372). They navigate in the host, outside
  the session.
- Navigator.PressKey and UssdSession.PressKey accept any key string. The
  page only ever passes the twelve keypad keys (1-9, "*", "0", "#"), and
  the lemmas hold for every key.
- React's batching of state updates. The keypad handler sets the buffer to
  the key and `handleInput` may then set it to "". The model runs these
  assignments in order, and the last one wins, as in the batched update.
- Full Unicode `toLowerCase`. `CustomerDiscovery.Lower` maps only the ASCII
  letters A-Z.
- Business fields that only the cards display (rating, reviews, distance,
  address, phone, hours, image, and the open/closed badge `isOpen`). The filter and the derived views do not
  read them.
- The list/map view toggle and the search and category inputs of the
  discovery page. The setters only replace these values, so the model takes
  them as parameters of `FilterBusinesses` and the view functions.
- The "All Businesses" and "Local Businesses" heading (line 265). It is
  chosen by the same test as `ShowFeatured`.
- The static dashboards (AnalyticsDashboard.tsx, SMEDashboard.tsx) with
  their chart library and floating-point widths, and the local form and
  message toggles of EngagementPage.tsx and SMEDashboard.tsx. None of them
  has navigation logic.
- Image loading, and the business profile page's own lookup of the selected
  id. BusinessProfile.tsx is not part of this model.
