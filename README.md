# Billed administrator dashboard — a Dafny model

Billed is an expense-report front-end. The administrator's dashboard lists
the submitted bills in three groups: pending, accepted and refused. Each
group sits under an arrow icon that expands or collapses it. Clicking a
bill's card opens its edit form, and accept and refuse send the bill back
to the store with a new status. This project models the dashboard
controller, `Billed-app-FR-Front/src/containers/Dashboard.js`, and proves
what it promises.

- `wrappers.dfy`: `Option` and `Result`.
- `js_values.dfy` (`JsValues`): the part of JavaScript's object model that
  bill records use.
  - A record is a map from property names to values.
  - Reading a missing property gives `undefined` (`Get`).
  - An object spread with one property overridden is `With`.
- `js_strings.dfy` (`JsStrings`): `String.prototype.split` with a
  one-character separator (`Split`), `indexOf`, `join`, and the round trip
  between split and join.
- `dashboard_helpers.dfy` (`DashboardHelpers`): the exported pure helpers.
  - `filteredBills`, with the test-runner check replaced by a `Mode`.
  - `card`, modelled as the values a card shows, including the first and
    last name taken from the email.
  - `cards` and `getStatus`.
  - The two record shapes the controller builds: the normalised store
    record and the patched bill sent on accept and refuse.
- `dashboard.dfy` (`DashboardController`): the controller.
  - A `View` value holds the controller's state and the page it drives.
    - The state is the toggle counter of each group, and the edit counter
      and selected id.
    - The page (`Page`) is the cards in each group container, the click
      handlers bound on each card, the highlighted cards, and the right
      panel.
  - `ShowTickets` and `EditTicket` are the two handlers as functions on a
    `View`.
  - The class `Dashboard` holds the same state in fields. Its methods
    follow the source statement by statement, with its `forEach` loops as
    `while` loops, and each method's contract ties the new state to the
    function.
  - Store and navigation calls are recorded in order in `calls`.

The model treats the page as follows:

- A jQuery selection of an element that is not on the page changes nothing.
- Only cards rendered in some container exist.
- A card is identified by its bill id.
- Re-rendering a container replaces its card elements, so the new cards
  carry no handler and no highlight.

`Consistent` is the invariant of every reachable view:

- all three containers exist;
- each card on the page has exactly one click handler;
- only cards on the page are highlighted;
- a group whose counter is even shows no cards;
- the form's buttons carry one handler each.

The constructor establishes it, and both handlers preserve it (`Valid()`).

The three arrow handlers are bound once, in the constructor
(`Dashboard.js:81-83`), and all of them use the constructor's `bills`.
`ShowsBills` (`Synced()` in the class) is the matching invariant:

- every expanded group (odd counter) shows the cards of that list's bills
  with the group's status;
- the constructor establishes it;
- an arrow click (`ArrowClick`) and a card click preserve it.

On such a state, two clicks on the same arrow always give the containers
back exactly (`ShowTicketsTwice`).

Two behaviours of the code are worth stating:

- The comment at `Dashboard.js:158` speaks of the group's displayed bills.
  The loop at `Dashboard.js:159-162`, however, unbinds and rebinds the edit
  handler on the card of every bill handed to the handler, wherever that
  card is on the page. `ShowTicketsEffect` states this.
- A card click clears the highlight of the card of every bill in its list
  (`Dashboard.js:102-104`), whichever group the card is in.
  `EditTicketEffect` states this.

## Model

| member | source | states |
|---|---|---|
| DashboardHelpers.HiddenEmails | Billed-app-FR-Front/src/containers/Dashboard.js:25 | the hidden list holds exactly the test accounts' emails and the signed-in user's email, one entry each |
| DashboardHelpers.SelectedMeaning | Billed-app-FR-Front/src/containers/Dashboard.js:12-28 | the filter callback `Selected` keeps a bill iff its status matches and, outside the test runner, its email is neither the user's nor a test account's |
| DashboardHelpers.Filter | Billed-app-FR-Front/src/containers/Dashboard.js:11-29 | the filter never lengthens the list, and every bill it keeps satisfies the selection condition |
| DashboardHelpers.FilteredBills | Billed-app-FR-Front/src/containers/Dashboard.js:9-30 | an absent or empty list gives `[]`; any other list gives the filtered list |
| DashboardHelpers.FilterIsSubsequence | Billed-app-FR-Front/src/containers/Dashboard.js:11-29 | the result is a subsequence of the input: relative order is kept |
| DashboardHelpers.FilterCounts | Billed-app-FR-Front/src/containers/Dashboard.js:11-29 | a selected bill occurs in the result exactly as often as in the input, and an unselected one not at all; a bill is in the result iff it is in the input and matches |
| DashboardHelpers.FilterUnique | Billed-app-FR-Front/src/containers/Dashboard.js:11-29 | any order-keeping sub-list of selected bills that keeps every selected bill equals the filter result |
| DashboardHelpers.ProductionHidesAccounts | Billed-app-FR-Front/src/containers/Dashboard.js:19-26 | in production a bill is returned iff it is in the input, has the status, and its email is neither the user's nor a test account's |
| JsStrings.Split | Billed-app-FR-Front/src/containers/Dashboard.js:34-38 | split yields at least one piece, at least two exactly when the separator occurs, and no piece contains the separator |
| JsStrings.JoinSplit | Billed-app-FR-Front/src/containers/Dashboard.js:34-38 | joining the pieces with the separator gives the original string back |
| JsStrings.SplitJoin | Billed-app-FR-Front/src/containers/Dashboard.js:34-38 | splitting a join of separator-free pieces gives the pieces back |
| DashboardHelpers.NameOf | Billed-app-FR-Front/src/containers/Dashboard.js:34-38 | neither name contains `@` or `.` |
| JsStrings.SplitAvoids | Billed-app-FR-Front/src/containers/Dashboard.js:34-38 | no piece of a split contains the separator, nor any character the string lacks |
| DashboardHelpers.NameSplit | Billed-app-FR-Front/src/containers/Dashboard.js:34-38 | the local part is what precedes the first `@`; with a dot, the first name precedes the first dot and the last name runs from there to the next dot or the end; without a dot, the first name is empty and the last name is the whole local part |
| DashboardHelpers.NameExampleDotted | Billed-app-FR-Front/src/containers/Dashboard.js:34-38 | `a.b@x` shows first name `a`, last name `b` |
| DashboardHelpers.NameExamplePlain | Billed-app-FR-Front/src/containers/Dashboard.js:34-38 | `a@x` shows an empty first name and last name `a` |
| DashboardHelpers.Card | Billed-app-FR-Front/src/containers/Dashboard.js:33-56 | the card carries the bill's id and the name pair derived from its email |
| DashboardHelpers.CardList | Billed-app-FR-Front/src/containers/Dashboard.js:60 | one card per bill, in the bills' order, the i-th being `card(bills[i])` |
| DashboardHelpers.Cards | Billed-app-FR-Front/src/containers/Dashboard.js:59-61 | an absent or empty list renders nothing; any other list renders `CardList` of it, one card per bill in order |
| DashboardHelpers.CardListConcat | Billed-app-FR-Front/src/containers/Dashboard.js:60 | mapping `card` over a concatenation concatenates the card lists |
| DashboardHelpers.CardsConcat | Billed-app-FR-Front/src/containers/Dashboard.js:59-61 | the cards of `a + b` are the cards of `a` followed by the cards of `b` |
| DashboardHelpers.GetStatus | Billed-app-FR-Front/src/containers/Dashboard.js:64-73 | index 1 gives pending, 2 accepted, 3 refused, and every other index falls through to `undefined` (`None`) |
| DashboardHelpers.GetStatusInjective | Billed-app-FR-Front/src/containers/Dashboard.js:64-73 | distinct groups show distinct statuses |
| DashboardHelpers.Normalize | Billed-app-FR-Front/src/containers/Dashboard.js:181-186 | the normalised record has the document's properties plus `id`, `date` and `status`, and every property reads as in the document |
| DashboardHelpers.NormalizeAll | Billed-app-FR-Front/src/containers/Dashboard.js:180-187 | the snapshot's documents are normalised one by one, same length and order |
| DashboardHelpers.Patched | Billed-app-FR-Front/src/containers/Dashboard.js:126-130 | the copy has `status` and `commentAdmin` set to the given values and every other property as in the bill |
| DashboardController.InitialConsistent | Billed-app-FR-Front/src/containers/Dashboard.js:76-86 | the dashboard as first shown satisfies the invariant |
| DashboardController.Render | Billed-app-FR-Front/src/containers/Dashboard.js:154-155 | rendering into a missing container changes nothing; otherwise only that container's contents change and the panel is untouched |
| DashboardController.Off | Billed-app-FR-Front/src/containers/Dashboard.js:160 | `.off('click')` never adds or removes a card element |
| DashboardController.On | Billed-app-FR-Front/src/containers/Dashboard.js:161 | `.on('click', ...)` never adds or removes a card element |
| DashboardController.OffOnOnce | Billed-app-FR-Front/src/containers/Dashboard.js:160-161 | off then on leaves a card on the page with exactly one handler, whatever it had before; for a card that is not on the page, nothing happens |
| DashboardController.Rebind | Billed-app-FR-Front/src/containers/Dashboard.js:159-162 | the loop over the bills as a fold of off/on; its contract is `RebindCounts`, which proves it equal to the closed form `Rebound` |
| DashboardController.Rebound | Billed-app-FR-Front/src/containers/Dashboard.js:159-162 | the closed form of that loop keeps the set of cards that have handlers |
| DashboardController.RebindCounts | Billed-app-FR-Front/src/containers/Dashboard.js:159-162 | unbinding before each bind leaves every bill's card with exactly one handler, whatever count it had and however often its id repeats |
| DashboardController.RenderConsistent | Billed-app-FR-Front/src/containers/Dashboard.js:154-155 | after a render only the new cards lack a handler; every other card keeps exactly one, and the highlight stays on the page |
| DashboardController.ToggleCollapsed | Billed-app-FR-Front/src/containers/Dashboard.js:148-168 | moving one group's counter while emptying its container when the counter becomes even keeps every even-counter group empty |
| DashboardController.ShowTickets | Billed-app-FR-Front/src/containers/Dashboard.js:147-171 | the clicked group's counter moves by one, and the set of counters gains that index; the edit state and the panel are untouched; a missing container leaves the containers as they were |
| DashboardController.ShowTicketsConsistent | Billed-app-FR-Front/src/containers/Dashboard.js:147-171 | a toggle preserves the invariant |
| DashboardController.InitialShowsBills | Billed-app-FR-Front/src/containers/Dashboard.js:76-86 | in the initial dashboard, every expanded group shows the arrows' bills (there is none) |
| DashboardController.ShowTicketsShowsBills | Billed-app-FR-Front/src/containers/Dashboard.js:81-83 | a toggle with the arrows' bill list keeps every expanded group showing that list's cards of its status |
| DashboardController.ShowTicketsEffect | Billed-app-FR-Front/src/containers/Dashboard.js:147-171 | see the toggle item below the table |
| DashboardController.ShowTicketsTwice | Billed-app-FR-Front/src/containers/Dashboard.js:147-171 | on a state where even groups are empty and expanded groups show the arrows' bills, two toggles add two to the counter and give every container back exactly |
| DashboardController.BindButtons | Billed-app-FR-Front/src/containers/Dashboard.js:119-121 | binding the view, accept and refuse handlers adds one handler to each button of a shown form; with the placeholder shown there are no buttons, and nothing changes |
| DashboardController.EditTicket | Billed-app-FR-Front/src/containers/Dashboard.js:97-122 | the selected id becomes the bill's id and the counter becomes one more than its reset value; the form is shown iff that counter was even; counters, containers and card handlers are untouched |
| DashboardController.EditTicketEffect | Billed-app-FR-Front/src/containers/Dashboard.js:97-122 | see the card-click item below the table |
| DashboardController.EditTicketShowsBills | Billed-app-FR-Front/src/containers/Dashboard.js:97-122 | a card click keeps every expanded group showing the arrows' bills |
| DashboardController.EditTicketTwice | Billed-app-FR-Front/src/containers/Dashboard.js:97-122 | two clicks on the same card add two to the counter and bring back the panel of the opposite parity; from an even counter the card ends de-highlighted with the placeholder shown |
| DashboardController.Dashboard.constructor | Billed-app-FR-Front/src/containers/Dashboard.js:76-86 | a new dashboard keeps the given bill list for its arrows, is in the initial state, satisfies both invariants, and has made no call |
| DashboardController.Dashboard.RenderContainer | Billed-app-FR-Front/src/containers/Dashboard.js:154-155 | the jQuery `.html(content)` call leaves the page at `Render` of the page before it |
| DashboardController.Dashboard.RebindCards | Billed-app-FR-Front/src/containers/Dashboard.js:159-162 | the `forEach` loop of off/on calls leaves the handler counts at `Rebound` of the old ones |
| DashboardController.Dashboard.UnhighlightCards | Billed-app-FR-Front/src/containers/Dashboard.js:102-104 | the loop removes the highlight from the card of every listed bill and from nothing else |
| DashboardController.Dashboard.SelectCard | Billed-app-FR-Front/src/containers/Dashboard.js:102-105 | after clearing all the listed bills' cards, the selected card is highlighted when it is on the page |
| DashboardController.Dashboard.HandleShowTickets | Billed-app-FR-Front/src/containers/Dashboard.js:147-171 | the handler takes the state to `ShowTickets` of the old one, keeps the invariant, and returns the bills unchanged |
| DashboardController.Dashboard.ShowTicketsSteps | Billed-app-FR-Front/src/containers/Dashboard.js:148-170 | the handler's statements, in order, compute `ShowTickets` of the old state |
| DashboardController.Dashboard.ArrowClick | Billed-app-FR-Front/src/containers/Dashboard.js:81-83 | a click on an arrow runs `handleShowTickets` with the constructor's bills, takes the state to `ShowTickets` of the old one, and keeps both invariants |
| DashboardController.Dashboard.HandleEditTicket | Billed-app-FR-Front/src/containers/Dashboard.js:97-122 | the handler takes the state to `EditTicket` of the old one and keeps both invariants |
| DashboardController.Dashboard.EditTicketSteps | Billed-app-FR-Front/src/containers/Dashboard.js:98-121 | the handler's statements, in order, compute `EditTicket` of the old state |
| DashboardController.Dashboard.UpdateBill | Billed-app-FR-Front/src/containers/Dashboard.js:196-204 | with a store, exactly one update is sent, whose selector is the bill's id and whose data is the bill; without a store nothing is sent |
| DashboardController.Dashboard.HandleAcceptSubmit | Billed-app-FR-Front/src/containers/Dashboard.js:125-133 | the bill patched to `accepted` with the comment is sent as an update when a store is configured, and navigation to the dashboard always follows |
| DashboardController.Dashboard.HandleRefuseSubmit | Billed-app-FR-Front/src/containers/Dashboard.js:136-144 | the same as accept, with status `refused` |
| DashboardController.Dashboard.GetBillsAllUsers | Billed-app-FR-Front/src/containers/Dashboard.js:174-193 | no store gives `undefined` and makes no call; otherwise one list request, then the normalised snapshot or the store's error passed on unchanged |

`ShowTicketsEffect`, for one activation of a group's arrow:

- Only that group's counter moves, and by one.
- An even counter fills the group's container with the cards of its
  filtered bills, each with exactly one handler.
- An odd counter empties the container.
- A missing container stays missing.
- The edit state and the panel are untouched.
- Every listed bill's card that is on the page has exactly one handler.
- The invariant holds afterwards.

`EditTicketEffect`, for one click on a card:

- The selected id becomes the bill's id.
- The counter, reset to 0 by a change of bill, moves by one.
- From an even counter, the form is shown with one handler per button. The
  clicked card is highlighted if it is on the page, and no other listed
  bill's card is highlighted.
- From an odd counter, the placeholder is shown and the card is not
  highlighted.
- Groups and card handlers are untouched.
- The invariant holds afterwards.

## Left out

- Markup and styling are left out: the card's HTML, the arrow rotation and
  the navbar height changes. A container's HTML is the list of cards it
  shows, and the empty string is the empty list.
- `formatDate` is not part of this model. The card keeps the raw `date`
  value the formatter would receive.
- `handleClickIconEye` is left out: it computes an image width in floating
  point and opens a modal. Only the binding of its handler to the form's
  eye button is counted, in `buttonHandlers`.
- Promises are left out.
  - `getBillsAllUsers` takes the outcome of the store's `list()` as a
    parameter and returns it directly.
  - `updateBill` records the request without awaiting it.
  - The `console.log` on a failed update is not modelled.
- The store's `update` receives `JSON.stringify(bill)`. The model records
  the record itself, because serialisation is not modelled.
- The test-runner check (`typeof jest`) and `localStorage` are replaced by
  `Mode`. In production, the list of test accounts and the signed-in user's
  email are parameters.
- `USERS_TEST`, `ROUTES_PATH`, `DashboardUI`, `DashboardFormUI`,
  `BigBilledIcon` and `Logout` are not part of this model. The route is the
  key `DashboardRoute`, and the arrows start with empty containers.
- The constructor's `click` bindings on the three arrows are not modelled
  as handler counts. A click on arrow `i` is the method `ArrowClick(i)`;
  nothing in the controller rebinds the arrows.
- `document` and `onNavigate` are not fields.
  - Navigation is recorded as a `Navigate` call.
  - The store is reduced to whether it is configured (`hasStore`).
- The comment field's value (`$('#commentary2').val()`) is a parameter of
  accept and refuse.
- `Card`: the source's `TypeError` on a bill whose email is not a string is
  a precondition (`HasTextEmail`, `CanShow`), not an error path.
- `FilteredBills`: a `data` that is truthy but not an array is not modelled.
  Absence is `None`.
- Numbers are integers. Strict equality on JavaScript's floating-point
  numbers, including `NaN`, is not modelled.
- Duplicate element ids are not modelled. The same bill rendered in two
  containers is one card element.
- `HandleShowTickets` can also be called directly with any bill list, as
  the source's method can. Such a call keeps `Valid()`, but not `Synced()`,
  which only `ArrowClick` preserves.
