# LondonHome customer flow: booking, wallet and catalog search

LondonHome is a front-end prototype of a London home-services marketplace.
This project models the only two parts of its customer view that hold real
logic:

- **Booking confirmation and wallet debit.** A customer picks a service from
  the catalog and reviews the order. Gold members get 15% off. Confirming pays
  from the in-app wallet. The confirmation is all-or-nothing:
  - it returns early, with no change, when no service is selected or the
    balance is below the final price;
  - otherwise it debits the balance and adds 50 loyalty points;
  - it puts a `DEBIT` transaction in front of the wallet history;
  - it puts a `PENDING` booking in front of the booking list;
  - it shows the confirmation page.

  The back button, "Track Active Tasks" and the bottom navigation move the
  flow between its three pages (home, review, confirmed).
- **Catalog search.** The Discover tab narrows the catalog by a category chip
  ("ALL" or one category), then by a free-text query. The query is matched
  case-insensitively against service names. Catalog order is kept.

Files:

- `types.dfy` (module `Types`): the records (`Service`, `Booking`,
  `Transaction`, `UserProfile`) and their enumerations.
- `catalog.dfy` (module `Catalog`): the static catalog of eight services.
- `text.dfy` (module `Text`): ASCII lower-casing and substring containment.
- `catalog_filter.dfy` (module `CatalogFilter`): the search filter and its
  order-preserving-subsequence properties.
- `customer.dfy` (module `Customer`): the flow has two forms.
  - The reducer `Next(state, action)` is the specification.
  - The class `CustomerSession` has the same fields, updated in place by the
    handlers. Each of its methods is proved to agree with `Next`.

  The class invariant is `Reconciled`. Since the session opened, every new
  booking sits beside its own debit for the same price. The balance has gone
  down by exactly those debits, and the points have gone up by 50 per
  booking.

Money is an exact `real`. Booking and transaction ids are parameters.

## Model

| member | source | states |
|---|---|---|
| `Text.LowerChar` | App.tsx:45 | the lower-cased character is never an ASCII capital; a capital becomes the same letter in lower case; any other character is kept |
| `Text.Lower` | App.tsx:45 | lower-casing keeps the length and lower-cases every position |
| `Text.LowerIdempotent` | App.tsx:45 | lower-casing twice gives the same result as lower-casing once |
| `Text.IncludesIffOccurs` | App.tsx:45 | `includes` holds exactly when the query occurs at some position of the name, so the empty query is contained in every name |
| `Text.ContainsIgnoringCaseIsCaseBlind` | App.tsx:45 | the search test gives the same answer whatever the case of the name or the query |
| `Text.EmptyQueryMatches` | App.tsx:45 | an empty query matches every name |
| `CatalogFilter.Filter` | App.tsx:44-45 | `filter` keeps exactly the elements its predicate accepts: each result element is in the input and accepted, and each accepted input element is in the result |
| `CatalogFilter.FilterSelects` | App.tsx:44-45 | `filter` returns the order-preserving subsequence at exactly the accepted positions, listed in increasing order |
| `CatalogFilter.FilterTwice` | App.tsx:43-46 | two chained filters equal one filter by the conjunction of their predicates |
| `CatalogFilter.FilterKeepsAll` | App.tsx:43-46 | a filter that accepts every element returns its input unchanged |
| `CatalogFilter.FilteredServices` | App.tsx:42-47 | a service is listed exactly when it is in the catalog, has the chosen category (any for `ALL`) and its name contains the query ignoring case (any name for an empty query); `ALL` with an empty query lists the whole catalog |
| `CatalogFilter.FilteredServicesIsOneFilter` | App.tsx:42-47 | the category filter followed by the name filter is one filter by `Matches` |
| `CatalogFilter.FilteredServicesSelects` | App.tsx:42-47 | the list is the order-preserving subsequence of the catalog made of exactly the matching services |
| `CatalogFilter.CleaningChipExample` | constants.tsx:4-84 | the `CLEANING` chip with no query shows only Regular Cleaning |
| `Customer.FinalPrice` | App.tsx:57 | for a non-negative price, the charge lies between 0 and the list price; for Gold it is the list price minus the 15% savings line of the review screen (App.tsx:193-198); for Basic it is the list price |
| `Customer.Outcome` | App.tsx:56-62 | confirming returns early with no service selected exactly when none is selected, and for insufficient funds exactly when the balance is below the final price |
| `Customer.BookedIffAffordable` | App.tsx:59 | a booking goes through exactly when a service is selected and the final price is at most the balance, so an equal balance is accepted |
| `Customer.FinalizeRefusedChangesNothing` | App.tsx:56-62 | an order that is not booked leaves the whole state unchanged: balance, points, history, bookings and page |
| `Customer.FinalizeBooked` | App.tsx:64-91 | after a booked order: the new balance plus the final price is the old balance, and a non-negative balance stays non-negative; points rise by exactly 50; the history is one `DEBIT` for the final price, described as "Booking: " plus the service name, followed by the old history; the bookings are one `PENDING` booking for that service at that price, followed by the old list; the page is the confirmation page; name, tier, selection and tab are unchanged |
| `Customer.NextPreserves` | App.tsx:49-92 | every action keeps the state well formed and reconciled with the session's start |
| `Customer.BookedPreserves` | App.tsx:83-91 | a booked order keeps the state reconciled: the new booking is paid by the new debit, and the balance and points move by one booking's worth |
| `Customer.RunReconciled` | App.tsx:49-92 | after any sequence of actions, each booking made since the start is paid by its own debit, the balance equals the start balance minus those debits, and the points equal the start points plus 50 per booking |
| `Customer.InitialReconciled` | App.tsx:21-38 | the freshly opened view is well formed and reconciled with itself |
| `Customer.RunKeepsBalanceNonNegative` | App.tsx:59-62 | no sequence of actions makes a non-negative balance negative |
| `Customer.SeedBookingExample` | App.tsx:10-19 | the seeded Gold customer (245.50, 1250 points) booking Regular Cleaning at 18 is charged 15.30, ends at 230.20 with 1300 points, with the debit "Booking: Regular Cleaning" first in the history |
| `Customer.InsufficientFundsExample` | App.tsx:59-62 | a Basic customer holding 50 cannot book the Boiler Service at 85, and nothing changes |
| `Customer.CustomerSession.constructor` | App.tsx:9-38 | the view opens on the Discover tab's home page with nothing selected, and it is reconciled |
| `Customer.CustomerSession.HandleBook` | App.tsx:49-53 | selects the service and opens its review page; everything else is unchanged |
| `Customer.CustomerSession.BackToServices` | App.tsx:178 | returns to the home page; everything else is unchanged |
| `Customer.CustomerSession.TrackActiveTasks` | App.tsx:216 | returns to the home page and switches to the Tasks tab; everything else is unchanged |
| `Customer.CustomerSession.SelectTab` | App.tsx:392 | switches to the chosen tab and returns to the home page; everything else is unchanged |
| `Customer.CustomerSession.FinalizeBooking` | App.tsx:55-92 | returns early, changing nothing, when nothing is selected or the balance is below the final price. Otherwise it sets the balance to old minus the final price and adds 50 points. It puts the debit in front of the history, puts the pending booking in front of the bookings, and moves to the confirmation page. The new state is `Next` of the old one, and the session stays reconciled |

## Left out

- Rendering, styling, the provider and admin views, and the presentational components of components/UI.tsx are left out. They hold no logic.
- The chat concierge (components/AIConcierge.tsx, services/geminiService.ts) is not part of this model. It is asynchronous network I/O to an external text-generation service.
- `window.scrollTo` and the window resize listener are left out. They are browser side effects.
- The refusal `alert` is left out. The model returns the outcome `InsufficientFunds` and leaves the state unchanged instead.
- Booking and transaction ids come from `Math.random` in the app. Here they are parameters of the confirming action.
- Prices are exact reals, not IEEE doubles. `toFixed(2)` display rounding is not modelled.
- Text.Lower: lower-cases ASCII capitals only. The app's `toLowerCase` also folds non-ASCII letters.
- FinalizeBooking checks the balance against the `user` value of the render. It then updates through the functional `prev` form. With one synchronous actor the two are the same, so the model treats the confirmation as one atomic update.
- The provider fixtures are left out. The seeded `IN_PROGRESS` booking is also left out: the session's constructor takes the initial bookings as a parameter.
- The chip handler and the search-box handler (App.tsx:139, App.tsx:125) only store the two inputs of `FilteredServices`. They are not modelled as actions.
- The Discover header's wallet button (App.tsx:109) is not modelled. It switches tab without resetting the page.
- No handler adds funds: the Add Funds button (App.tsx:235) has no `onClick`, so the wallet has no credit operation to model.
- `finalizeBooking` does not check the page, but the app renders its button only on the review page (App.tsx:175-202). `Next` accepts `Finalize` on any page, which is more than the UI allows.
- The Tasks tab's "Book a service" button (App.tsx:326) is not modelled separately. It switches to the Discover tab without resetting the page; on every reachable state the page is already home there, so `SelectTab(Discover)` gives the same state.
