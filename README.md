# Lakbay jeepney information app: a Dafny model of its page logic

Lakbay is a React front end for the jeepney routes of Iligan City: commuters browse
routes, stops, fares and drivers, scan a driver's QR code, and leave feedback.
Drivers and administrators each have their own dashboard. All of its data are
literal tables inside the components. This project models the logic that sits
between those tables and the screen:

- **Root component.** The `currentPage`/`user` state machine with its login, logout
  and navigate handlers, and the `renderPage` switch with its landing-page fallback
  (`App`).
- **Login and navigation.** The role guessed from the e-mail address and the record
  handed to the root component on login (`LoginPage`). The navigation-bar link
  tables and highlight rule (`Navbar`). The user side menu and its mobile labels
  (`UserSidebar`).
- **QR lookup.** The scanner for `DRIVER-<digits>` codes: an unanchored, leftmost,
  greedy match, decimal parsing, the table lookup, the three error messages, reset,
  and the demo buttons (`DriverQRScanner`).
- **Search, filter and map.** The case-insensitive searches of the routes and stops
  pages, and the map descriptors they derive: centre, zoom, lines, markers
  (`RoutesPage`, `StopsPage`, `MapProps`). The stop-type badges and the landmark
  preview (`StopsPage`). The distance-category filter of the fares page
  (`FaresPage`).
- **Display rules.** Avatar initials, the header statistics and the star rule of the
  driver directory (`DriversPage`). The mock fare estimate (`UserDashboard`). The
  star buttons and the five-way rating label shared by three pages (`StarRating`).
- **Forms.** The feedback, driver-feedback and settings forms: which state cells
  each handler resets or keeps (`FeedbackPage`, `DriverFeedbackPage`,
  `UserSettings`).

Components whose handlers change state step by step are classes:
- `App.AppState`, `DriverQRScanner.Scanner`, `UserDashboard.Dashboard`,
  `FeedbackPage.FeedbackForm`, `DriverFeedbackPage.DriverFeedbackForm` and
  `UserSettings.SettingsForm`.
- Their fields are the components' `useState` cells.
- Their methods are the handlers, with `modifies` clauses.

Components whose behaviour is expressions over their tables are functions and
lemmas. Their one or two state cells are plain values, changed by pure transition
functions (`RoutesPage.PageState`, `StopsPage.PageState`, `DriversPage.Dialog`).

Modelling conventions:
- JavaScript strings are `seq<char>`, and `toLowerCase` folds ASCII letters only.
- Ratings are held in integer tenths (4.8 is 48).
- `Math.round` is `Floor(x + 0.5)`.
- Reading past the end of an array gives `undefined`, which is modelled as `None`.
- The random draw of the fare estimate is a parameter in `[0, 1)`.
- A form's submit handler requires the fields the browser's `required` attributes
  demand (`Complete()`), because the browser blocks submission before the handler
  runs otherwise.

## Model

| member | source | states |
|---|---|---|
| Common.ToLower | src/components/RoutesPage.tsx:222 | `toLowerCase` keeps the length and folds each ASCII capital to its small letter, leaving every other character |
| Common.Contains | src/components/RoutesPage.tsx:222 | `includes` holds only for a text no longer than the searched one |
| App.RenderPage | src/App.tsx:46-71 | each of the ten routed page names renders its own view; any other name renders the landing view |
| App.RenderPageRoundTrip | src/App.tsx:46-71 | every view is produced by its own page name and by no other routed name |
| App.UnroutedPagesShowLanding | src/App.tsx:46-71 | "driver-feedback", "user-settings" and "scan-driver", which the menus navigate to, fall through to the landing view |
| App.LoginTarget | src/App.tsx:26-35 | the dashboard the login handler moves to for roles user, driver and admin; none for the null role |
| App.AppState.constructor | src/App.tsx:23-24 | the app starts on "landing" with no user |
| App.AppState.HandleLogin | src/App.tsx:26-35 | stores the user and moves to the role's dashboard; a null role leaves the page unchanged |
| App.AppState.HandleLogout | src/App.tsx:37-40 | clears the user and shows the landing view |
| App.AppState.HandleNavigate | src/App.tsx:42-44 | any string becomes the current page, the user is kept, and the view is `renderPage` of it |
| App.NavigateTwice | src/App.tsx:42-44 | navigating twice to a page leaves the state one navigation gives: that page, the user kept, the page's view |
| App.NavigationScenario | src/App.tsx:26-44 | after any navigation, login then logout ends signed out on "landing" |
| LoginPage.DetermineRole | src/components/LoginPage.tsx:20-28 | "admin" wins over "driver"; "driver" without "admin" gives driver; neither gives user; never null |
| LoginPage.BeforeAt | src/components/LoginPage.tsx:35 | `split('@')[0]` is the longest '@'-free prefix of the address: the whole address or the text before its first '@' |
| LoginPage.UserName | src/components/LoginPage.tsx:35 | a non-empty name is used as is; otherwise the '@'-free prefix of the address |
| LoginPage.Submit | src/components/LoginPage.tsx:30-42 | no login iff e-mail or password is empty; otherwise the e-mail unchanged, the role from the e-mail and the derived name |
| LoginPage.PasswordIrrelevant | src/components/LoginPage.tsx:33-40 | any two non-empty passwords give the same login, and a submitted role is never null |
| LoginPage.CapitalisedAdminIsUser | src/components/LoginPage.tsx:22-27 | the test is case-sensitive: "Admin@x" is a user |
| LoginPage.BeforeAtWithoutAt | src/components/LoginPage.tsx:35 | an address without '@' is its own local part |
| LoginPage.BeforeAtFirstAt | src/components/LoginPage.tsx:35 | the local part is the text before the first '@', whatever follows it |
| LoginPage.NameFromAddress | src/components/LoginPage.tsx:35 | with no name, "maria@lakbay.com" gives "maria" and an address without '@' gives itself |
| LoginPage.SubmitLandsOnDashboard | src/components/LoginPage.tsx:30-42 | a successful submit passed to the login handler always moves to one of the three dashboards |
| Navbar.HomeTarget | src/components/Navbar.tsx:18 | the Home link goes to the user or driver dashboard for those roles and to the admin dashboard for any other role, null included |
| Navbar.NavLinks | src/components/Navbar.tsx:16-31 | six links ending with Feedback when signed in, five without Feedback otherwise; Home first, with the role's home page or "landing" |
| Navbar.NavLinksRouted | src/components/Navbar.tsx:16-31 | every link's page is one the root switch routes; only the signed-out Home link asks for the landing view |
| Navbar.NavLinksDistinct | src/components/Navbar.tsx:16-31 | in both tables the link ids are pairwise distinct, and so are the link pages |
| Navbar.RoleDashboard | src/components/Navbar.tsx:39 | `${role}-dashboard` spells the Home target for each of the three roles, and "null-dashboard" for the null role |
| Navbar.LogoTarget | src/components/Navbar.tsx:39 | "landing" when signed out; equals the Home target for the three roles; "null-dashboard" for a null role |
| Navbar.NullRoleLogoShowsLanding | src/components/Navbar.tsx:39 | for a user with a null role the logo leads to an unrouted page, which renders the landing view |
| Navbar.HighlightedIndices | src/components/Navbar.tsx:50-58 | a link is highlighted exactly when the current page equals its page |
| Navbar.AtMostOneHighlighted | src/components/Navbar.tsx:50-58 | at most one link is highlighted, and exactly one when the current page is a link's page |
| UserSidebar.MenuItems | src/components/UserSidebar.tsx:9-17 | seven items with pairwise distinct ids |
| UserSidebar.MobileLabel | src/components/UserSidebar.tsx:51-57 | Routes→Map, Fares→Fare, Driver Reviews→Drivers, Feedback→Help, Settings→Profile; other labels unchanged |
| UserSidebar.MobileLabelsOfMenu | src/components/UserSidebar.tsx:48-57 | the bottom bar reads Home, Map, Fare, Stops, Drivers, Help, Profile |
| UserSidebar.ClickActivatesOnlyThatItem | src/components/UserSidebar.tsx:26-30 | after clicking item k, item j is active iff j = k |
| UserSidebar.AtMostOneActive | src/components/UserSidebar.tsx:26 | at most one item is active for any current page, and one is when the page is an item id |
| UserSidebar.UnroutedMenuItems | src/components/UserSidebar.tsx:14-16 | "Driver Reviews" and "Settings" lead to the landing view; the other five items reach their own view |
| DriverQRScanner.QrDrivers | src/components/DriverQRScanner.tsx:37-90 | four drivers whose ids are 1 to 4 in order |
| DriverQRScanner.IsJsWhitespace | src/components/DriverQRScanner.tsx:96 | no character `trim` removes is a digit or a letter of the `DRIVER-` tag |
| DriverQRScanner.IsBlank | src/components/DriverQRScanner.tsx:96 | a code that trims to nothing never matches the pattern |
| DriverQRScanner.ParseDecimal | src/components/DriverQRScanner.tsx:107 | `parseInt` of n digits is below 10^n and is zero exactly when every digit is '0' |
| DriverQRScanner.FindFrom | src/components/DriverQRScanner.tsx:101 | the leftmost position at or after `from` where "DRIVER-" is followed by a digit, or none |
| DriverQRScanner.FirstMatch | src/components/DriverQRScanner.tsx:101 | the regex matches iff some position holds "DRIVER-" and a digit; the match is the leftmost one |
| DriverQRScanner.DigitRun | src/components/DriverQRScanner.tsx:101 | `\d+` is greedy: the longest all-digit prefix |
| DriverQRScanner.DigitRunStops | src/components/DriverQRScanner.tsx:101 | a digit run ends at the first non-digit |
| DriverQRScanner.Captured | src/components/DriverQRScanner.tsx:101-105 | a capture exists iff the code matches, and it is a non-empty run of digits |
| DriverQRScanner.DigitChar | src/components/DriverQRScanner.tsx:190 | each digit value prints as a digit that reads back as that value |
| DriverQRScanner.NatToDecimal | src/components/DriverQRScanner.tsx:190 | an id prints as a non-empty run of digits with no leading zero unless it is 0 |
| DriverQRScanner.ParsePrinted | src/components/DriverQRScanner.tsx:107 | `parseInt` of a printed id gives the id back |
| DriverQRScanner.ParseLeadingZero | src/components/DriverQRScanner.tsx:107 | a leading zero does not change the parsed value |
| DriverQRScanner.FindDriver | src/components/DriverQRScanner.tsx:108 | `find` returns the first driver with the id, or none iff no driver has it |
| DriverQRScanner.FindInTable | src/components/DriverQRScanner.tsx:37-108 | ids 1 to 4 find the driver at index id − 1; any other id finds none |
| DriverQRScanner.ScanOutcome | src/components/DriverQRScanner.tsx:92-117 | blank code iff EmptyCode; non-blank with no match iff BadFormat; parsed id absent iff NotFound; otherwise Found with the driver whose id was parsed |
| DriverQRScanner.ErrorText | src/components/DriverQRScanner.tsx:93-115 | the three error messages; the error is empty iff a driver was found |
| DriverQRScanner.TaggedDigitsCaptured | src/components/DriverQRScanner.tsx:101 | "DRIVER-" + digits + a tail that starts with a non-digit captures exactly those digits |
| DriverQRScanner.SameNumberSameOutcome | src/components/DriverQRScanner.tsx:101-116 | two matching codes whose captures parse to the same number scan alike |
| DriverQRScanner.TaggedCodeReadsId | src/components/DriverQRScanner.tsx:101-108 | a printed id after "DRIVER-", followed by a non-digit or nothing, is read back as that id |
| DriverQRScanner.ScanPrintedCode | src/components/DriverQRScanner.tsx:101-116 | "DRIVER-n" finds driver n for n in 1..4 and is NotFound otherwise |
| DriverQRScanner.DemoCodesScanToTheirDriver | src/components/DriverQRScanner.tsx:184-192 | every demo button's code scans back to exactly its driver |
| DriverQRScanner.TrailingTextIgnored | src/components/DriverQRScanner.tsx:101 | text after the digits that starts with a non-digit does not change the outcome |
| DriverQRScanner.LeadingZeroAccepted | src/components/DriverQRScanner.tsx:107-108 | "DRIVER-0n" scans like "DRIVER-n" |
| DriverQRScanner.ScanExamples | src/components/DriverQRScanner.tsx:96-104 | lower-case "driver-1" is an invalid format; a code of spaces and tabs is empty |
| DriverQRScanner.Scanner.constructor | src/components/DriverQRScanner.tsx:32-34 | all three cells start empty |
| DriverQRScanner.Scanner.SetQrCode | src/components/DriverQRScanner.tsx:159 | typing changes only the code |
| DriverQRScanner.Scanner.HandleScan | src/components/DriverQRScanner.tsx:92-117 | error set from the outcome; Found shows the driver, NotFound clears it, the first two errors keep it; from no driver, error empty iff a driver is shown |
| DriverQRScanner.Scanner.HandleReset | src/components/DriverQRScanner.tsx:119-123 | all three cells cleared and the input card shown |
| DriverQRScanner.Scanner.PressDemo | src/components/DriverQRScanner.tsx:189-192 | the code becomes "DRIVER-" + id and the error is cleared; the shown driver is kept |
| DriverQRScanner.DemoScan | src/components/DriverQRScanner.tsx:184-192 | pressing a demo button and scanning shows that driver with no error, hiding the input card |
| MapProps.At | src/components/RoutesPage.tsx:261-286 | indexing is defined iff the index is in range, and then gives that element |
| RoutesPage.RouteTableFacts | src/components/RoutesPage.tsx:22-220 | six routes, distinct ids, minimum fare ≤ maximum fare, at least two coordinates each |
| RoutesPage.Routes | src/components/RoutesPage.tsx:22-220 | six routes with ids 1 to 6 in order |
| RoutesPage.MatchesQuery | src/components/RoutesPage.tsx:222-224 | the empty query matches every route, and so does any query the lower-cased name starts with |
| RoutesPage.RouteHasLine | src/components/RoutesPage.tsx:22-220 | every route of the table has at least two coordinates |
| RoutesPage.FilterRoutes | src/components/RoutesPage.tsx:222-226 | a route is kept iff the lower-cased query occurs in its lower-cased name, origin or destination; order kept; empty iff nothing matches |
| RoutesPage.EmptySearchShowsAll | src/components/RoutesPage.tsx:222-226 | the empty query keeps every route |
| RoutesPage.SearchIgnoresCase | src/components/RoutesPage.tsx:222-226 | the result depends only on the lower-cased query |
| RoutesPage.TypingNarrows | src/components/RoutesPage.tsx:222-226 | extending the query never adds a route |
| RoutesPage.RouteMap | src/components/RoutesPage.tsx:259-292 | with no selection: zoom 13, the default centre, one green line per route in order, no markers. With one: zoom 14, centre at coordinates[n/2], one line, terminal markers at both ends labelled origin and destination |
| RoutesPage.SelectedMapOnRoute | src/components/RoutesPage.tsx:260-290 | for a route with coordinates, the centre and both markers lie on its line |
| RoutesPage.EmptyLineLeavesMapUndefined | src/components/RoutesPage.tsx:260-290 | for a route with no coordinates, the centre and marker positions are undefined |
| RoutesPage.InitialPage | src/components/RoutesPage.tsx:259-292 | the page opens showing every route on the whole-city map |
| RoutesPage.Search | src/components/RoutesPage.tsx:406-467 | typing keeps the selection and the map; "No routes found" shows iff no route matches the new query |
| RoutesPage.Select | src/components/RoutesPage.tsx:418-422 | clicking a shown card selects and highlights it and zooms the map onto its line |
| RoutesPage.ClearSelection | src/components/RoutesPage.tsx:313 | closing the details clears the selection and restores the whole-city map |
| RoutesPage.AtMostOneCardSelected | src/components/RoutesPage.tsx:419-421 | no two cards are highlighted at once |
| StopsPage.Stops | src/components/StopsPage.tsx:23-134 | ten stops with ids 1 to 10 in order |
| StopsPage.MatchesQuery | src/components/StopsPage.tsx:137-139 | the empty query matches every stop, and so does any query the lower-cased name starts with |
| StopsPage.FilterStops | src/components/StopsPage.tsx:136-140 | a stop is kept iff the lower-cased query occurs in its name, in some landmark, or in its type; order kept; empty iff nothing matches |
| StopsPage.EmptySearchShowsAll | src/components/StopsPage.tsx:136-140 | the empty query keeps every stop |
| StopsPage.SearchIgnoresCase | src/components/StopsPage.tsx:136-140 | the result depends only on the lower-cased query |
| StopsPage.TypingNarrows | src/components/StopsPage.tsx:136-140 | extending the query never adds a stop |
| StopsPage.MarkerOf | src/components/StopsPage.tsx:212-216 | a stop's marker is at its position with its name, and is a terminal marker iff its type is "Terminal" |
| StopsPage.OverviewMarkers | src/components/StopsPage.tsx:212-216 | one marker per stop, in order |
| StopsPage.TerminalMarkersMatchBadge | src/components/StopsPage.tsx:212-227 | the number of terminal markers equals the Terminals badge count |
| StopsPage.OverviewMap | src/components/StopsPage.tsx:177-217 | centre (8.2285, 124.2460), zoom 14, three lines, one marker per stop |
| StopsPage.DetailMap | src/components/StopsPage.tsx:304-315 | the dialog map is centred on the stop at zoom 16 with the stop's marker only |
| StopsPage.DetailMarkerMatchesOverview | src/components/StopsPage.tsx:308-314 | the dialog marker equals the stop's overview marker |
| StopsPage.KindCount | src/components/StopsPage.tsx:227-233 | a badge count never exceeds the number of stops |
| StopsPage.KindCountsPartition | src/components/StopsPage.tsx:224-233 | the three type counts add up to at most the number of stops, and exactly to it when every stop has one of the three types |
| StopsPage.TableBadges | src/components/StopsPage.tsx:224-233 | the badges read 10 stops: 7 terminals, 2 major stops, 1 regular stop |
| StopsPage.CountsOfTableKinds | src/components/StopsPage.tsx:224-233 | any ten stops typed like the table give the badge counts 7, 2 and 1 |
| StopsPage.TableKinds | src/components/StopsPage.tsx:23-134 | ten stops, all terminals except the second and third (major) and the eighth (regular) |
| StopsPage.TableLandmarkCounts | src/components/StopsPage.tsx:23-134 | the city-centre stop lists four landmarks, every other stop three |
| StopsPage.LandmarkPreview | src/components/StopsPage.tsx:261-270 | at most the first two landmarks are shown; a "+k more" badge iff there are more than two; shown plus k is the count |
| StopsPage.TablePreviews | src/components/StopsPage.tsx:261-270 | every stop shows its first two landmarks and "+1 more", except the sixth, which shows "+2 more" |
| StopsPage.Search | src/components/StopsPage.tsx:164 | typing keeps the dialog; "No stops found" shows iff no stop matches the new query |
| StopsPage.Select | src/components/StopsPage.tsx:240 | clicking a shown card opens its dialog with the map on that stop |
| StopsPage.CloseDialog | src/components/StopsPage.tsx:291 | closing the dialog clears the selection |
| StopsPage.ViewRoute | src/components/StopsPage.tsx:330-335 | "View Route" closes the dialog and navigates to "routes" |
| FaresPage.Fares | src/components/FaresPage.tsx:21-34 | twelve rows, each of category "short" or "medium" |
| FaresPage.FilterFares | src/components/FaresPage.tsx:49-52 | "all" keeps every row; any other value keeps exactly the rows of that category, in order |
| FaresPage.FilterFaresIdempotent | src/components/FaresPage.tsx:49-52 | filtering the shown rows again changes nothing |
| FaresPage.ShortAndMediumPartition | src/components/FaresPage.tsx:49-52 | over rows that are short or medium, the two filters together give every row exactly once |
| FaresPage.ShortAndMediumCoverTable | src/components/FaresPage.tsx:21-34 | the table is split exactly between "short" and "medium" |
| FaresPage.LongFilterIsEmpty | src/components/FaresPage.tsx:21-34 | the "long" option shows no rows |
| FaresPage.InitialFilterShowsAll | src/components/FaresPage.tsx:19-51 | the page opens on the whole table |
| DriversPage.Drivers | src/components/DriversPage.tsx:30-109 | six drivers with ids 1 to 6 in order, every rating at most five stars |
| DriversPage.SplitOnSpace | src/components/DriversPage.tsx:205 | `split(' ')` gives at least one piece, no piece contains a space, and joining the pieces with single spaces gives back the name |
| DriversPage.WordStarts | src/components/DriversPage.tsx:205 | the reference reading of the initials never contains a space and is no longer than the name |
| DriversPage.InitialsAreWordStarts | src/components/DriversPage.tsx:205 | the first characters of the pieces of `split(' ')`, empty pieces giving nothing, are the first letters of the space-separated words, in order; repeated spaces add nothing |
| DriversPage.Initials | src/components/DriversPage.tsx:205 | the avatar text is exactly the first letter of every space-separated word of the name |
| DriversPage.TripTotal | src/components/DriversPage.tsx:178 | the trip total is at least every driver's own trip count |
| DriversPage.YearsTotal | src/components/DriversPage.tsx:187 | the years total is at least every driver's own years of service |
| DriversPage.TotalsAdditive | src/components/DriversPage.tsx:178-187 | the trip and year sums add over any split of the list |
| DriversPage.RoundHalfUp | src/components/DriversPage.tsx:187 | `Math.round` gives the integer within one half, halves going up |
| DriversPage.AverageYears | src/components/DriversPage.tsx:187 | the average is undefined exactly for the empty list; otherwise it is the mean rounded half up, (2·total + n) div (2·n) |
| DriversPage.RoundedAverageFormula | src/components/DriversPage.tsx:187 | the rounded average of natural numbers is (2·sum + len) div (2·len) |
| DriversPage.BetweenMultiples | src/components/DriversPage.tsx:187 | a real whose m-fold lies between q·m and (q+1)·m rounds down to q |
| DriversPage.HeaderStatistics | src/components/DriversPage.tsx:161-187 | the header reads 6 drivers, 7250 trips and an 8-year average |
| DriversPage.StarFillAt | src/components/DriversPage.tsx:114-123 | a star is full iff its number is at most the rating, and partial iff it exceeds the rating by less than one |
| DriversPage.StarRow | src/components/DriversPage.tsx:114-123 | five stars are drawn |
| DriversPage.StarFillRule | src/components/DriversPage.tsx:114-123 | star s is full iff s ≤ floor(rating), and partial iff it is the next star and the rating is not whole |
| DriversPage.StarRowShape | src/components/DriversPage.tsx:114-123 | floor(rating) full stars, then one partial star iff the rating is not whole |
| DriversPage.SelectDriver | src/components/DriversPage.tsx:255-258 | a card or its button opens the dialog on that driver |
| DriversPage.CloseDialog | src/components/DriversPage.tsx:271 | the backdrop and the close button close the dialog |
| StarRating.StarButtons | src/components/FeedbackPage.tsx:124-133 | five buttons; button i is filled iff i ≤ rating |
| StarRating.FilledStarsCountRating | src/components/FeedbackPage.tsx:124-133 | for ratings 1 to 5, exactly `rating` stars are filled and they come first |
| StarRating.RatingLabel | src/components/FeedbackPage.tsx:135 | 5 Excellent, 4 Good, 3 Average, 2 Poor, anything else Very Poor |
| StarRating.LabelsDistinct | src/components/DriverFeedbackPage.tsx:152 | different ratings from 1 to 5 get different labels |
| UserDashboard.TripDistance | src/components/UserDashboard.tsx:32 | `floor(draw·10) + 1` lies in 1..10 |
| UserDashboard.MockFare | src/components/UserDashboard.tsx:31-33 | the fare is even and between 12 and 30 |
| UserDashboard.EveryEvenFareReachable | src/components/UserDashboard.tsx:31-33 | every even fare from 12 to 30 comes from some draw |
| UserDashboard.FareEstimate | src/components/UserDashboard.tsx:28-36 | with both places filled the estimate is the mock fare; otherwise the previous estimate is kept |
| UserDashboard.SameEndpointsArePriced | src/components/UserDashboard.tsx:29-34 | the same origin and destination still get a fare of 12 to 30 |
| UserDashboard.Dashboard.constructor | src/components/UserDashboard.tsx:22-26 | empty places, no estimate, rating 5, no feedback |
| UserDashboard.Dashboard.SetPlaces | src/components/UserDashboard.tsx:184-200 | typing changes only origin and destination |
| UserDashboard.Dashboard.CalculateFare | src/components/UserDashboard.tsx:28-36 | the estimate becomes FareEstimate of the places and the previous estimate; nothing else changes |
| UserDashboard.Dashboard.SetRating | src/components/UserDashboard.tsx:254-263 | a star button sets the rating in 1..5 and fills stars up to it |
| UserDashboard.Dashboard.SetFeedback | src/components/UserDashboard.tsx:272 | typing changes only the feedback text |
| UserDashboard.Dashboard.SubmitFeedback | src/components/UserDashboard.tsx:38-45 | clears the text and resets the rating to 5; places and estimate untouched |
| FeedbackPage.InitialContact | src/components/FeedbackPage.tsx:24-25 | name and e-mail start from the user, or empty without one |
| FeedbackPage.RequiredFields | src/components/FeedbackPage.tsx:193-241 | category, subject and message are always required; the name iff not anonymous; the e-mail never |
| FeedbackPage.FeedbackForm.Complete | src/components/FeedbackPage.tsx:193-241 | every field in the required set holds text, which is: category, subject and message, and the name unless anonymous |
| FeedbackPage.VisibleFields | src/components/FeedbackPage.tsx:193-217 | the name and e-mail inputs exist iff not anonymous |
| FeedbackPage.FeedbackForm.constructor | src/components/FeedbackPage.tsx:21-28 | rating 5, empty fields, contact from the user, not anonymous |
| FeedbackPage.FeedbackForm.SetRating | src/components/FeedbackPage.tsx:124-135 | a star button sets only the rating |
| FeedbackPage.FeedbackForm.SetAnonymous | src/components/FeedbackPage.tsx:183-184 | the checkbox changes only the anonymous flag |
| FeedbackPage.FeedbackForm.Submit | src/components/FeedbackPage.tsx:30-41 | rating back to 5, category, route, subject and message cleared; name, e-mail and anonymity kept |
| DriverFeedbackPage.DriverFeedbackForm.constructor | src/components/DriverFeedbackPage.tsx:21-27 | rating 5, every text field empty, not anonymous |
| DriverFeedbackPage.DriverFeedbackForm.SetRating | src/components/DriverFeedbackPage.tsx:141-152 | a star button sets only the rating |
| DriverFeedbackPage.DriverFeedbackForm.Submit | src/components/DriverFeedbackPage.tsx:29-41 | rating back to 5 and five fields cleared; anonymity kept |
| DriverFeedbackPage.ReviewStars | src/components/DriverFeedbackPage.tsx:355-362 | a listed review draws five stars |
| DriverFeedbackPage.ReviewStarsMatchButtons | src/components/DriverFeedbackPage.tsx:355-362 | a review rated k shows exactly k filled stars, the same row as the form's buttons |
| DriverFeedbackPage.RankBadgeAt | src/components/DriverFeedbackPage.tsx:273-278 | index 0 gets the trophy; index i > 0 shows i + 1 |
| DriverFeedbackPage.RankBadgesDistinct | src/components/DriverFeedbackPage.tsx:273-278 | no two positions share a rank marker |
| DriverFeedbackPage.TopDriversRanked | src/components/DriverFeedbackPage.tsx:107-111 | the top-drivers list is in non-increasing rating order, with the trophy on Pedro Gonzales |
| UserSettings.WithField | src/components/UserSettings.tsx:128-196 | editing one field sets it and leaves the other five unchanged |
| UserSettings.FormExtensional | src/components/UserSettings.tsx:20-27 | two forms that agree on all six fields are equal |
| UserSettings.EditUndone | src/components/UserSettings.tsx:128-196 | typing a field's old value back restores the form |
| UserSettings.InitialForm | src/components/UserSettings.tsx:20-27 | name and e-mail from the user or empty, and the four fixed defaults |
| UserSettings.SettingsForm.constructor | src/components/UserSettings.tsx:19-27 | not editing, the initial form |
| UserSettings.SettingsForm.StartEditing | src/components/UserSettings.tsx:106-108 | editing starts with the form kept; Save and Cancel replace the Edit button |
| UserSettings.SettingsForm.Edit | src/components/UserSettings.tsx:128-196 | while editing, only the typed field changes; inputs are disabled otherwise |
| UserSettings.SettingsForm.Save | src/components/UserSettings.tsx:29-35 | callable only while editing with name, e-mail, phone and address filled (the `required` inputs); editing stops and the edited form is kept |
| UserSettings.SettingsForm.Cancel | src/components/UserSettings.tsx:37-47 | editing stops and all six fields return to the initial defaults |
| UserSettings.CancelDiscardsSavedEdits | src/components/UserSettings.tsx:29-47 | for a signed-in user with a name and e-mail, a saved non-empty phone number is lost by a later cancel, which restores the default rather than the last save |

## Left out

- The map widget (`src/components/InteractiveMap.tsx`) is a wrapper over the Leaflet library and the DOM. The model stops at the props it receives.
- The admin dashboard, the driver dashboard and the landing page hold literal tables and toggle UI flags only.
- Toast notifications, the mobile-menu and sidebar toggles, `preventDefault` and `stopPropagation`, and the JSX layout and CSS classes are presentation only.
- Floating point: the average rating's `toFixed(1)` and `toLocaleString` formatting are left out; coordinates are opaque pairs of reals.
- `toLowerCase` folds ASCII letters only; other Unicode case mappings are not modelled.
- `parseInt` is modelled on unbounded naturals; the loss of precision beyond 2^53 is not modelled.
- StopsPage.Stops: the per-stop tips text is not part of the model's stop record; it is shown only in the dialog and no rule reads it.
- FaresPage: the `fareStructure` cards and the discounts table are display text only and are not modelled; the page never relates the cards to the rows of the fare matrix.
- UserDashboard: the safety tips list is display text only.
- FeedbackPage and DriverFeedbackPage: the recent-feedback lists are display text only.
- UserSettings.SettingsForm.Save: the e-mail format check the browser makes for the `type="email"` input is not modelled; only the `required` attributes are.
- FeedbackPage.FeedbackForm.Submit: the e-mail format check the browser makes for the `type="email"` input is not modelled; only the `required` attributes are.
- LoginPage.Submit: models only the handler's own check that the e-mail and the password are non-empty. The browser's `required` and `type="email"` checks on the login form are not modelled, and neither is the name field that is `required` when registering. So `LoginPage.BeforeAtWithoutAt` and the address without '@' in `LoginPage.NameFromAddress` describe input that the handler accepts but the browser would refuse to submit.
- FeedbackPage and DriverFeedbackPage: the text inputs and selects other than the rating and the anonymous flag each set one state cell; they are not modelled as separate methods. DriverFeedbackPage's anonymous checkbox is left out for the same reason.
- The random draw of the fare estimate is a parameter; `Math.random` itself is not modelled.
