# Sittara Restaurante: screen router and form state, in Dafny

This project models the part of the Sittara Restaurante mobile app that has
behaviour of its own, apart from drawing and backend calls:

- the application shell (`src/App.tsx`): the current screen, the payload
  handed to it, the authenticated flag and the notification flag; `navigate`,
  the login/register/logout/splash transitions, the hard-coded back links,
  and which screen component is mounted for a given state;
- the explore screen's case-insensitive search filter and list/map tab;
- the reservation form: time slot, party size clamped to [1, 20], and the
  confirmation flag;
- the review form: star rating, hover preview, rating label, comment, and
  the submit-disabled rule;
- the reservations list split into upcoming and past;
- the five-star row of a review card and the four-item tab bar.

Layout, one module per source file: `types.dfy` (records of
`src/types/index.ts`), `app.dfy`, `explore_screen.dfy`,
`create_reservation_screen.dfy`, `add_review_screen.dfy`,
`reservations_screen.dfy`, `review_card.dfy`, `bottom_navigation.dfy`, plus
three helper modules: `seqs.dfy` (`Array.prototype.filter` and its laws),
`text.dfy` (`toLowerCase`, `includes`, `trim`) and `wrappers.dfy` (`Option`).

Screens that update state cells in place are classes whose fields are those
cells (`App.Shell`, `ExploreScreen.ExploreState`,
`CreateReservationScreen.ReservationForm`, `AddReviewScreen.ReviewForm`);
each handler is a method that states the whole new state. The shell's and
each form's `Valid()` predicate is the invariant its handlers keep. The filters, guards
and display rules are functions, with lemmas for the properties the screens
rely on.

Modelling choices:

- Screen identifiers are the twelve members of the `Screen` union plus
  `Unknown(name)`. At run time screens pass plain strings to `onNavigate`,
  and the profile screen asks for `'edit-profile'`, which the union lacks.
  `FromName` and `Name` convert between the two forms. A call
  `navigate(name, data)` is `Navigate(FromName(name), data)`, so the shell
  only ever holds an identifier some name denotes (`WellFormed`).
- The payload is `any` in the source. Here it is `NoData`, a restaurant or a
  reservation, and only its presence is ever checked. `navigate(s)` without
  data passes `NoData`.
- A screen's callbacks are methods of `Shell`. A callback that re-sends the
  current payload (back from the reservation or review form) requires that
  its screen is the one mounted. That is the only time the callback exists.
- The restaurant and reservation lists are parameters. In these versions of
  the screens they come from a static mock-data module.
- Handlers that run after a two-second timer (confirming a reservation,
  returning after a review, leaving the splash screen) are ordinary method
  calls.
- Only the restaurant page calls the backend facade `src/services/api.ts`.
  The explore and reservations screens modelled here read static mock lists
  (src/components/screens/ExploreScreen.tsx:3,
  src/components/screens/ReservationsScreen.tsx:1). The reservation form's
  `handleConfirm` sends nothing anywhere. It only sets the success flag, and
  the shell's `onConfirm` then moves to the reservations list.
- The form handlers require that the form is on display, and the bell
  requires that the home screen is. Those are the only times the buttons
  exist.

## Model

| member | source | states |
|---|---|---|
| `App.FromName` | src/App.tsx:17-29 | the identifier for a name carries that name back, is well formed, and is `Unknown` exactly for names outside the union |
| `App.NameRoundTrip` | src/App.tsx:17-29 | converting a well-formed identifier to its name and back gives the identifier |
| `App.Mounted` | src/App.tsx:63-126 | one guard per component: `currentScreen === '<id>'`, plus `&& screenData` on the four payload screens; only a member of the union mounts anything, and a payload screen only with a payload |
| `App.Rendered` | src/App.tsx:63-126 | the mounted component is the one whose guard holds, and no other guard holds, so at most one screen is on display |
| `App.BlankScreen` | src/App.tsx:90-121 | nothing is rendered iff the id is outside the union, or it is restaurant-detail, create-reservation, reservation-detail or add-review without a payload; for an id a name denotes, "outside the union" means its name is not one of the twelve |
| `App.EditProfileIsBlank` | src/components/screens/ProfileScreen.tsx:53 | the "edit profile" button's target renders no screen |
| `App.Shell.constructor` | src/App.tsx:32-35 | start on splash, no payload, not authenticated, notification hidden; splash is on display; the shell invariant holds |
| `App.Shell.Navigate` | src/App.tsx:37-40 | the screen becomes the one the passed name denotes and the payload is replaced with it; authenticated and notification flags unchanged; the shell invariant (the screen is one a name denotes) is kept |
| `App.Shell.HandleLogin` | src/App.tsx:42-45 | authenticated, on home without payload, home on display, notification unchanged |
| `App.Shell.HandleRegister` | src/App.tsx:47-50 | same end state as login |
| `App.Shell.HandleLogout` | src/App.tsx:52-55 | not authenticated, on login without payload, login on display |
| `App.Shell.HandleSplashComplete` | src/App.tsx:57-59 | on login without payload; authenticated flag unchanged |
| `App.Shell.ShowNotification` | src/App.tsx:79-83 | only the home screen gets the bell's callback; notification shown; screen, payload and auth unchanged, home still on display |
| `App.Shell.CloseNotification` | src/App.tsx:128-129 | notification hidden; screen, payload and auth unchanged |
| `App.Shell.BackToLogin` | src/App.tsx:71-77 | register and forgot-password go back to login without payload |
| `App.Shell.BackFromRestaurantDetail` | src/App.tsx:93 | back to explore without payload; explore on display |
| `App.Shell.BackToRestaurant` | src/App.tsx:98-124 | back from create-reservation (line 101) or add-review (line 124) reaches restaurant-detail with the same payload, which is then on display |
| `App.Shell.ConfirmReservation` | src/App.tsx:102 | confirming a reservation lands on the reservations list |
| `App.Shell.BackFromReservationDetail` | src/App.tsx:113 | back to the reservations list without payload |
| `ExploreScreen.Matches` | src/components/screens/ExploreScreen.tsx:18-19 | the lowered name or cuisine includes the lowered query; the empty query, and a query equal to the name or cuisine up to case, always match |
| `ExploreScreen.Filtered` | src/components/screens/ExploreScreen.tsx:17-20 | the result is an order-preserving subsequence of the list; a restaurant is in it iff it is in the list and its lowered name or cuisine includes the lowered query; each matching entry is kept as often as it occurs |
| `ExploreScreen.EmptyQueryKeepsAll` | src/components/screens/ExploreScreen.tsx:17-20 | an empty query keeps the whole list |
| `ExploreScreen.CaseInsensitive` | src/components/screens/ExploreScreen.tsx:18-19 | queries that differ only in letter case give the same list |
| `ExploreScreen.LongerQueryNarrows` | src/components/screens/ExploreScreen.tsx:18-19 | typing more characters never brings back a restaurant |
| `ExploreScreen.ExploreState.constructor` | src/components/screens/ExploreScreen.tsx:14-15 | the list tab is active and the query is empty |
| `ExploreScreen.ExploreState.SelectTab` | src/components/screens/ExploreScreen.tsx:39-57 | the tab becomes the chosen one (only list or map exist); query unchanged |
| `ExploreScreen.ExploreState.SetQuery` | src/components/screens/ExploreScreen.tsx:33 | the query becomes the typed text; tab unchanged |
| `ExploreScreen.ExploreState.Cards` | src/components/screens/ExploreScreen.tsx:63-72 | the map tab shows no cards; the list tab shows exactly `Filtered(rs, searchQuery)`, the whole list for an empty query; every card shown matches the query |
| `ExploreScreen.CardTarget` | src/components/screens/ExploreScreen.tsx:69 | a card opens restaurant-detail with that restaurant, and that screen is then on display |
| `ExploreScreen.MapCardTarget` | src/components/screens/ExploreScreen.tsx:101 | the floating map card opens the first restaurant of the unfiltered list; the list must not be empty |
| `CreateReservationScreen.Fewer` | src/components/screens/CreateReservationScreen.tsx:106 | "-" gives one fewer guest, but never fewer than 1 |
| `CreateReservationScreen.More` | src/components/screens/CreateReservationScreen.tsx:113 | "+" gives one more guest, but never more than 20 |
| `CreateReservationScreen.PressesStayInRange` | src/components/screens/CreateReservationScreen.tsx:104-117 | no sequence of presses takes the party size out of [1, 20] |
| `CreateReservationScreen.EveryPartySizeReachable` | src/components/screens/CreateReservationScreen.tsx:104-117 | starting from 2, every size in [1, 20] can be reached, so the clamps allow exactly this range |
| `CreateReservationScreen.OneSlotHighlighted` | src/components/screens/CreateReservationScreen.tsx:19-22 | the listed slots are distinct, so `time === t` highlights one button at most |
| `CreateReservationScreen.ReservationForm.constructor` | src/components/screens/CreateReservationScreen.tsx:15-17 | the form opens on 20:00 for 2 guests, not confirmed; 20:00 is a listed slot |
| `CreateReservationScreen.ReservationForm.DecreaseGuests` | src/components/screens/CreateReservationScreen.tsx:106 | guests becomes `Fewer(guests)`; the slot stays listed and guests stay in [1, 20] |
| `CreateReservationScreen.ReservationForm.IncreaseGuests` | src/components/screens/CreateReservationScreen.tsx:113 | guests becomes `More(guests)`; the invariant is kept |
| `CreateReservationScreen.ReservationForm.SelectTime` | src/components/screens/CreateReservationScreen.tsx:83-87 | the time becomes the clicked slot, always a listed one |
| `CreateReservationScreen.ReservationForm.Confirm` | src/components/screens/CreateReservationScreen.tsx:24-43 | the success flag is set and only the confirmation view is shown from then on |
| `AddReviewScreen.DisplayRating` | src/components/screens/AddReviewScreen.tsx:68 | the hovered star while one is hovered, else the rating; within 0..5 when both are |
| `AddReviewScreen.Highlighted` | src/components/screens/AddReviewScreen.tsx:68 | star k is filled iff k ≤ the hovered star while one is hovered, else iff k ≤ the rating |
| `AddReviewScreen.HighlightRow` | src/components/screens/AddReviewScreen.tsx:58-72 | there are exactly five star buttons |
| `AddReviewScreen.SameStarsAsReviewCard` | src/components/screens/AddReviewScreen.tsx:68 | star k is filled iff k ≤ (hovered if non-zero, else rating), which is the review card's row for that number |
| `AddReviewScreen.HoverOverridesRating` | src/components/screens/AddReviewScreen.tsx:62-68 | while a star is hovered the rating does not affect the row; without hover exactly `rating` stars are filled |
| `AddReviewScreen.Label` | src/components/screens/AddReviewScreen.tsx:76-83 | a label is shown iff rating > 0; ratings 1..5 give Malo, Regular, Bueno, Muy bueno, ¡Excelente!; a rating above 5 gives an empty label |
| `AddReviewScreen.LabelsDistinct` | src/components/screens/AddReviewScreen.tsx:78-82 | different ratings in 1..5 get different labels |
| `AddReviewScreen.SubmitDisabled` | src/components/screens/AddReviewScreen.tsx:101 | submit is enabled iff the rating is non-zero and the comment is not all white space |
| `Text.Trim` | src/components/screens/AddReviewScreen.tsx:101 | `trim` gives the middle slice left after cutting white space from both ends: what is cut is white space, the result neither starts nor ends with it, and it is empty iff the string is all white space |
| `Text.Contains` | src/components/screens/ExploreScreen.tsx:18-19 | `includes`: the needle occurs at some offset; every string includes the empty string and itself |
| `Text.Lower` | src/components/screens/ExploreScreen.tsx:18-19 | `toLowerCase` keeps the string up to letter case and leaves no upper-case letter |
| `Seqs.Filter` | src/components/screens/ExploreScreen.tsx:17 | `filter` keeps an order-preserving subsequence: an element is kept iff the predicate accepts it, every copy of it |
| `AddReviewScreen.ReviewForm.constructor` | src/components/screens/AddReviewScreen.tsx:13-16 | rating 0, no hover, empty comment, not submitted; submit disabled |
| `AddReviewScreen.ReviewForm.Rate` | src/components/screens/AddReviewScreen.tsx:61 | the rating becomes the clicked star (1..5) and its label is shown; 0 ≤ rating ≤ 5 is kept |
| `AddReviewScreen.ReviewForm.Hover` | src/components/screens/AddReviewScreen.tsx:62 | the hovered star becomes the entered one (1..5) |
| `AddReviewScreen.ReviewForm.Unhover` | src/components/screens/AddReviewScreen.tsx:63 | hover resets to 0, and the row shows the rating again |
| `AddReviewScreen.ReviewForm.EditComment` | src/components/screens/AddReviewScreen.tsx:94 | the comment becomes the typed text |
| `AddReviewScreen.ReviewForm.Submit` | src/components/screens/AddReviewScreen.tsx:18-37 | reachable only when submit is enabled; after it only the thank-you view is shown |
| `ReservationsScreen.Upcoming` | src/components/screens/ReservationsScreen.tsx:10 | exactly the reservations that are not cancelled, in list order, each kept as often as it occurs |
| `ReservationsScreen.Past` | src/components/screens/ReservationsScreen.tsx:11 | exactly the cancelled reservations, in list order, each kept as often as it occurs |
| `ReservationsScreen.Partition` | src/components/screens/ReservationsScreen.tsx:10-11 | the two sections are disjoint, their multisets add up to the list's, and their lengths add up to its length |
| `ReservationsScreen.ShowsEmptyState` | src/components/screens/ReservationsScreen.tsx:51 | the guard "both sections empty" holds iff there are no reservations |
| `ReservationsScreen.CardTarget` | src/components/screens/ReservationsScreen.tsx:29 | a card in either section (lines 29 and 44) opens reservation-detail with that reservation, which is then on display |
| `ReservationsScreen.EmptyStateTarget` | src/components/screens/ReservationsScreen.tsx:55 | the empty state's link opens explore |
| `ReviewCard.StarRow` | src/components/ReviewCard.tsx:11 | exactly five slots for any rating |
| `ReviewCard.StarRowShape` | src/components/ReviewCard.tsx:11-15 | filled slots form a prefix: the row is the clamped rating's worth of filled slots, then empty ones |
| `ReviewCard.FilledCount` | src/components/ReviewCard.tsx:11-15 | the number of filled slots is the rating clamped to [0, 5]: none for a rating ≤ 0, all five for a rating ≥ 5 |
| `BottomNavigation.AtMostOneActive` | src/components/BottomNavigation.tsx:9-21 | the four ids are distinct, so at most one item is active |
| `BottomNavigation.IsActive` | src/components/BottomNavigation.tsx:21 | an item is active iff the current screen's name denotes the same screen as the item's id |
| `BottomNavigation.ActiveIndex` | src/components/BottomNavigation.tsx:21 | the active item, if any, is the one whose id equals the current screen; none is active iff no id equals it |
| `BottomNavigation.TabBarOf` | src/components/screens/HomeScreen.tsx:69 | the home, explore, reservations and profile screens (also ExploreScreen.tsx:126, ReservationsScreen.tsx:65, ProfileScreen.tsx:117) and no other hand their tab bar a name; that name mounts the screen itself and highlights one item |
| `BottomNavigation.ClickTarget` | src/components/BottomNavigation.tsx:26 | clicking navigates to the item's id, without payload |
| `BottomNavigation.ClickActivatesItem` | src/components/BottomNavigation.tsx:19-26 | clicking item i shows a screen whose tab bar has item i active |

## Left out

- `src/services/api.ts`, the backend facade, is not part of this model. Every operation in it is an asynchronous call into the managed backend, whose behaviour is not visible here.
- Timers: the two-second delays before `onConfirm`, before the review form's `onBack`, and on the splash screen are not modelled. The transitions they trigger are plain method calls.
- The reservation date picker is not modelled. It holds a `Date`, and its disable rule compares with the wall clock.
- `RestaurantDetailScreen`'s half-star rendering is not modelled. It uses floating-point floor, ceiling and remainder. Its review fetch is I/O.
- Locale date formatting, and the status colour and label tables, are presentational and not modelled.
- The login, register, forgot-password, profile, home, splash and notification screens, and the restaurant card, only draw and call back. Their callbacks are modelled as `Shell` methods. Their markup is not.
- `ReviewCard.FilledCount`: ratings are integers. The source's `number` rating can be fractional, in which case `i < rating` fills the ceiling of the rating; that case is not modelled.
- `Text.Trim`: white space is the ASCII set plus the no-break space. `toLowerCase` maps only ASCII letters. The remaining Unicode case mappings and space characters are not modelled.
- `ExploreScreen.MapCardTarget`: the map tab reads `restaurants[0]` while drawing. With an empty list it throws instead of drawing, so an empty list is excluded by a precondition rather than modelled as an error.
- Restaurant ratings and coordinates are `real`. Within the modelled screens they are only displayed. The one computation on a restaurant rating is the half-star row of `RestaurantDetailScreen` (floor, remainder and ceiling), which is not modelled, as listed above.
