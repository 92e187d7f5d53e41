# PaintPerfect business rules in Dafny

PaintPerfect is a web shop for house painting. Customers browse painting designs in a
gallery, put designs into a cart or ask for a quote from a design's dialog, and check
out. Checkout turns each cart item into a painting request that carries the room counts,
the wall dimensions, an estimated cost and the vendor. Vendors upload designs and move
their requests through the life cycle
`pending -> accepted -> in_progress -> completed`. Admins approve vendors, assign
pending requests to vendors and watch the revenue. Routing sends each signed-in role to
its own dashboard. Roles are `user`, `vendor` and `admin`.

This project models the rules those pages implement and proves properties about them:

- **Data.** JavaScript plain objects (room counts per room type, dimensions per cart
  item, the vendor picked per request) are ordered association lists (`Records`).
  Spread update is `Put`; property lookup is `Get`.
- **Cost.** Prices, areas and costs are exact reals.
  - A room costs price x area x count. A count that is not positive, or a room type
    without a price, adds nothing.
  - The cart and the request dialog share that rule (`Pricing.RoomsCost`). They differ
    only in how they default missing dimensions.
- **Backend calls.** Supabase inserts, updates, deletes and storage uploads are values
  in a call log. Which calls fail is a parameter: `failing` holds the positions, in the
  planned call sequence, of the calls that fail.
  - A specification function (`Cart.CheckoutRun`, `RequestDialog.SubmitRun`,
    `VendorDashboard.UploadRun`) gives the calls an operation makes and how it ends.
  - The page's method is proved to make exactly those calls and to leave the page
    state that the source leaves.
- **Stateful pages.** The cart page, the request dialog, the vendor's upload form, the
  landing carousel and the sign-up form are classes. Their fields are the React
  state, and their methods are the event handlers.
- **Pure pages.** Routing, the dashboard redirect, statistics, filters and labels are
  functions with lemmas.

Where the documented behaviour and the code differ, the model follows the code. The
request dialog checks for a signed-in user before it checks the design, the rooms and
the image. The checkout skips only cart items whose room object has no keys. Items
whose counters were all brought back to 0 are still submitted, at a cost of 0
(`Cart.ZeroCountItemIsSubmitted`).

Three defects of the sources are modelled as written and listed under "## Findings":
- the navbar's About link;
- the cart dropping the uploaded dimension image;
- the user dashboard opening the request dialog without a design.

## Model

| member | source | states |
|---|---|---|
| Enums.ParseRole | src/integrations/supabase/types.ts:264 | A parsed role names back to the string it was parsed from |
| Enums.ParseStatus | src/integrations/supabase/types.ts:266 | A parsed request status names back to the string it was parsed from |
| Enums.NamesRoundTrip | src/integrations/supabase/types.ts:264-266 | Every role and every status parses back from its name; distinct statuses have distinct ranks |
| Records.Put | src/pages/admin/AdminDashboardPage.tsx:307 | `{...r, [k]: v}`: afterwards `k` maps to `v` and every other key maps to what it did before |
| Records.FilterValues | src/components/requests/CreateRequestDialog.tsx:143-145 | Keeps exactly the entries whose value passes the test, taken from the input, no more of them than the input has |
| RoomCounts.Bump | src/components/requests/CreateRequestDialog.tsx:88-90 | The room's count becomes `max(0, count + change)`; every other room keeps its entry |
| RoomCounts.BumpNonNegative | src/components/requests/CreateRequestDialog.tsx:88-90 | Counters that are all non-negative stay non-negative after any change |
| RoomCounts.BumpKeys | src/components/requests/CreateRequestDialog.tsx:88-90 | A change keeps the key order and appends a room that was not there yet |
| RoomCounts.BumpUpDown | src/components/requests/CreateRequestDialog.tsx:88-90 | `+` then `-` gives back the count; `-` on 0 stays at 0 |
| Pricing.FindCategorySpec | src/pages/cart/CartPage.tsx:150-151 | `categories.find`: none exactly when no category has that value; otherwise the first one that does |
| Pricing.FindPricingSpec | src/pages/cart/CartPage.tsx:151-152 | `pricing.find`: none exactly when no row has that category id; otherwise the first one that does |
| Pricing.RoomsCostAppend | src/pages/cart/CartPage.tsx:148-155 | The cost of two lists of room entries is the sum of their costs |
| Pricing.RoomsCostStep | src/pages/cart/CartPage.tsx:148-155 | The running total of the room loop grows by the cost of the next entry |
| Pricing.RoomsCostCons | src/components/requests/CreateRequestDialog.tsx:94-109 | The cost of a non-empty list is its first entry's cost plus the cost of the rest |
| Pricing.RoomsCostOfPositive | src/components/requests/CreateRequestDialog.tsx:143-145 | Dropping the entries that are not positive does not change the cost |
| Pricing.RoomsCostPut | src/pages/cart/CartPage.tsx:117-125 | Setting one room's count changes the cost by exactly the difference of that room's old and new costs |
| Pricing.RoomsCostNonNegative | src/components/requests/CreateRequestDialog.tsx:92-111 | With non-negative prices and area, no list of rooms costs less than 0 |
| Pricing.RoomCostNonNegative | src/pages/cart/CartPage.tsx:153-154 | With non-negative prices and area, no single room entry costs less than 0 |
| Requests.CountsBounded | src/pages/admin/AdminDashboardPage.tsx:160-162 | Pending and completed requests together never outnumber all requests |
| Requests.RevenueIsCompletedShare | src/pages/admin/AdminDashboardPage.tsx:163-165 | Filter-then-reduce revenue equals the sum of every request's share |
| Requests.RevenueAppend | src/pages/admin/AdminDashboardPage.tsx:163-165 | One more request adds exactly its share to the revenue |
| Requests.RevenueNonNegative | src/pages/admin/AdminDashboardPage.tsx:163-165 | Revenue is non-negative when no cost is negative |
| Requests.RoomSummaryAppend | src/pages/admin/AdminDashboardPage.tsx:152-157 | One more room entry appends `, ` and its text to the summary |
| Requests.RoomSummarySmall | src/pages/vendor/VendorDashboardPage.tsx:209-217 | An empty room object gives the empty summary; one entry gives just its text |
| Requests.RoomEntryPlural | src/pages/user/UserDashboardPage.tsx:89-91 | For every count, including 0 and negatives, the entry is the count's decimal text, a space and the room, with a plural `s` exactly when the count is above 1; the number reads back as the count |
| Requests.VendorLabelSpec | src/pages/admin/AdminDashboardPage.tsx:297-299 | The label starts with the vendor's name, is just the name without a company, and otherwise adds ` (company)` |
| Cart.ApplyRoomChange | src/pages/cart/CartPage.tsx:117-125 | The item's room count becomes `max(0, count + change)`; other rooms and other items are untouched |
| Cart.RoomChangeNonNegative | src/pages/cart/CartPage.tsx:117-125 | The room counters of every item stay non-negative |
| Cart.ApplyDimensionChange | src/pages/cart/CartPage.tsx:127-135 | The item's field takes the typed value; its other field is kept, or absent for a new item; other items are untouched |
| Cart.CartSide | src/pages/cart/CartPage.tsx:145-146 | `parseFloat(x) \|\| 10`: a side used for pricing is never 0 |
| Cart.CartAreaDefaults | src/pages/cart/CartPage.tsx:144-146 | No dimensions price as 10 x 10; a missing or 0 side counts as 10; typed sides multiply |
| Cart.ItemPriceUnselected | src/pages/cart/CartPage.tsx:142-156 | An item without room entries is priced 0 |
| Cart.RoomChangePrice | src/pages/cart/CartPage.tsx:117-125 | A counter change moves the item's price by exactly that room's cost difference and leaves every other item's price alone |
| Cart.TotalPriceNonNegative | src/pages/cart/CartPage.tsx:158 | With non-negative prices and areas the cart total is non-negative |
| Cart.WithoutItemSpec | src/pages/cart/CartPage.tsx:108 | Removing keeps the order, drops every item with that id and keeps every other item |
| Cart.ItemCallsShape | src/pages/cart/CartPage.tsx:165-201 | An item without room keys makes no call; otherwise it makes an optional upload, then the insert of its user, price, rooms, dimensions and vendor, then the delete |
| Cart.CheckoutRunSpec | src/pages/cart/CartPage.tsx:159-221 | A checkout completes exactly when no planned call fails; otherwise it stops right after the first failing call |
| Cart.RunFails | src/pages/cart/CartPage.tsx:196-201 | A run whose calls are the plan up to a first failed call is the failed checkout run |
| Cart.RunCompletes | src/pages/cart/CartPage.tsx:165-203 | A run where no planned call fails makes the whole plan and completes |
| Cart.CartRoomCost | src/pages/cart/CartPage.tsx:148-155 | One room entry adds price x length x breadth x count, or nothing when it is unpriced or not positive |
| Cart.CartRoomStep | src/pages/cart/CartPage.tsx:148-155 | Each loop step of `calculateItemPrice` adds that entry's cart cost |
| Cart.ItemCallsLog | src/pages/cart/CartPage.tsx:186-200 | One item's calls delete it exactly when it has room keys and insert exactly its price |
| Cart.CheckoutTotals | src/pages/cart/CartPage.tsx:165-201 | A complete checkout deletes exactly the items with room keys and files requests worth the cart total |
| Cart.UploadedImageIsLost | src/pages/cart/CartPage.tsx:172-192 | An item with an image is uploaded, but its request is inserted with an undefined image, never the stored URL |
| Cart.CorrectedRequestKeepsUrl | src/pages/cart/CartPage.tsx:180-192 | Reading the URL under `data`, the row carries the uploaded image's URL, or "" without an image, and agrees on every other field |
| Cart.ZeroCountItemIsSubmitted | src/pages/cart/CartPage.tsx:170 | An item whose counts were set back to 0 is still inserted, at cost 0, and deleted |
| Cart.CartPage.constructor | src/pages/cart/CartPage.tsx:37-47 | The page starts empty and loading |
| Cart.CartPage.RemoveItem | src/pages/cart/CartPage.tsx:97-115 | Deletes the item, drops it from the list unless the delete fails, and clears `removingId` |
| Cart.CartPage.HandleRoomChange | src/pages/cart/CartPage.tsx:117-125 | The room counters become `ApplyRoomChange` of the old ones; nothing else changes |
| Cart.CartPage.HandleDimensionChange | src/pages/cart/CartPage.tsx:127-135 | The dimensions become `ApplyDimensionChange` of the old ones; nothing else changes |
| Cart.CartPage.HandleImageChange | src/pages/cart/CartPage.tsx:137-140 | Stores the picked file and its preview URL (or empty) for the item; nothing else changes |
| Cart.CartPage.CalculateItemPrice | src/pages/cart/CartPage.tsx:142-156 | The loop's total is the item's price |
| Cart.CartPage.CheckoutItem | src/pages/cart/CartPage.tsx:166-200 | One pass makes the item's calls in order, and stops at the first failing one; the inserted row's image is read as the source reads it |
| Cart.CartPage.SubmitItems | src/pages/cart/CartPage.tsx:165-201 | The loop makes exactly the calls of `CheckoutRun` and ends as it does |
| Cart.CartPage.HandleCheckout | src/pages/cart/CartPage.tsx:159-221 | Does nothing without a user; otherwise performs `CheckoutRun`, clears the cart only on success, and ends not loading |
| RequestDialog.SelectedRoomsSpec | src/components/requests/CreateRequestDialog.tsx:143-145 | The selected rooms are exactly the positive entries, in order, and price the same as all rooms |
| RequestDialog.NoSelectedRooms | src/components/requests/CreateRequestDialog.tsx:143-156 | No room is selected exactly when no count is positive |
| RequestDialog.RequestDims | src/components/requests/CreateRequestDialog.tsx:181-187 | Dimensions are sent exactly when both sides were typed, and then as typed |
| RequestDialog.SubmitGuardSpec | src/components/requests/CreateRequestDialog.tsx:141-172 | A submit passes exactly with a user, a design, a positive room count and an image; each stop has its exact condition |
| RequestDialog.SubmitRunSpec | src/components/requests/CreateRequestDialog.tsx:140-217 | A stopped submit calls nothing; otherwise it uploads, then inserts the row with that vendor, those rooms, those dimensions, that estimate, the user and the uploaded image's URL, and succeeds exactly when no call fails |
| RequestDialog.DashboardSubmitStops | src/pages/user/UserDashboardPage.tsx:270-274 | As the dashboard opens the dialog, without a design, a signed-in submit always stops at the design guard and calls nothing |
| RequestDialog.CorrectedDashboardSubmits | src/components/requests/CreateRequestDialog.tsx:141-217 | With the chosen design passed, a complete form creates the request for that design's vendor when no call fails |
| RequestDialog.DialogAgainstCartArea | src/components/requests/CreateRequestDialog.tsx:101 | The dialog and the cart agree on the area with no sides or two non-zero sides, and differ with one side or a 0 side |
| RequestDialog.DialogState.constructor | src/components/requests/CreateRequestDialog.tsx:39-47 | The dialog starts with no rooms, no dimensions, no image and not loading |
| RequestDialog.DialogState.UpdateRoomCount | src/components/requests/CreateRequestDialog.tsx:88-90 | The counters become `Bump` of the old ones |
| RequestDialog.DialogState.SetLength | src/components/requests/CreateRequestDialog.tsx:290 | Only the length changes, to the typed value |
| RequestDialog.DialogState.SetBreadth | src/components/requests/CreateRequestDialog.tsx:295 | Only the breadth changes, to the typed value |
| RequestDialog.DialogState.HandleDimensionImageChange | src/components/requests/CreateRequestDialog.tsx:114-120 | A picked file and its preview are stored; no file leaves both as they were |
| RequestDialog.DialogState.CalculateEstimatedCost | src/components/requests/CreateRequestDialog.tsx:92-111 | The loop's total is the estimated cost |
| RequestDialog.DialogState.ResetForm | src/components/requests/CreateRequestDialog.tsx:219-224 | Clears rooms, dimensions, image and preview |
| RequestDialog.DialogState.Submit | src/components/requests/CreateRequestDialog.tsx:140-217 | Performs `SubmitRun`; a stop changes nothing, a success resets the form, a failure keeps it; loading ends false |
| VendorDashboard.GetNextStatusSpec | src/pages/vendor/VendorDashboardPage.tsx:219-226 | A next status exists exactly for the three statuses before `completed`, and it is one rank later |
| VendorDashboard.AdvanceReachesCompleted | src/pages/vendor/VendorDashboardPage.tsx:219-226 | From any status, advancing reaches `completed` after `3 - rank` steps and nothing after one more |
| VendorDashboard.PendingToCompleted | src/pages/vendor/VendorDashboardPage.tsx:219-226 | A pending request is completed after three advances, and cannot advance a fourth time |
| VendorDashboard.AdvanceButton | src/pages/vendor/VendorDashboardPage.tsx:374-382 | The advance button is shown exactly when a next status exists |
| VendorDashboard.StatusNameReadable | src/pages/vendor/VendorDashboardPage.tsx:181 | Replacing the first `_` makes every status name readable, with no `_` left |
| VendorDashboard.AdvanceButtonSpec | src/pages/vendor/VendorDashboardPage.tsx:374-382 | The button is shown exactly for a known status before `completed`, and its text has no `_` |
| VendorDashboard.StatusUpdateCallsSpec | src/pages/vendor/VendorDashboardPage.tsx:167-197 | The status update comes first; the job update follows exactly when it succeeded, for that request and status, with a note without `_` |
| VendorDashboard.StatusUpdateCallsShape | src/pages/vendor/VendorDashboardPage.tsx:167-197 | For any new status: the status update first, then the job update with its note exactly when the update succeeded |
| VendorDashboard.StatusNoteReadable | src/pages/vendor/VendorDashboardPage.tsx:181 | For every status of the life cycle the job note holds no `_` |
| VendorDashboard.GetStatsSpec | src/pages/vendor/VendorDashboardPage.tsx:228-237 | Completed requests never outnumber the requests; earnings are the completed costs, and non-negative for non-negative costs |
| VendorDashboard.CleanTagsIsFilterMap | src/pages/vendor/VendorDashboardPage.tsx:90-93 | Cleaning the tags is `map(trim)` followed by `filter(non-empty)` |
| VendorDashboard.CleanTagsSpec | src/pages/vendor/VendorDashboardPage.tsx:90-93 | Every kept tag is non-empty, has no space at either end and holds no separator; at most as many tags as pieces |
| VendorDashboard.ParseTagsSpec | src/pages/vendor/VendorDashboardPage.tsx:90-93 | Parsed tags are clean, no comma inside, taken in order from the trimmed pieces, at most one more than the commas |
| VendorDashboard.ParseTagsOfEmpty | src/pages/vendor/VendorDashboardPage.tsx:90-93 | An empty tags field gives no tags |
| VendorDashboard.CleanTagsOfClean | src/pages/vendor/VendorDashboardPage.tsx:90-93 | Tags that are already clean pass unchanged |
| VendorDashboard.ParseTagsOfJoin | src/pages/vendor/VendorDashboardPage.tsx:90-93 | Joining clean tags with commas and parsing them back gives the same tags |
| VendorDashboard.UploadRunGuards | src/pages/vendor/VendorDashboardPage.tsx:79-88 | An upload stops, calling nothing, exactly without a user, a title, a category or an image; otherwise the image is stored first |
| VendorDashboard.UploadRunInserts | src/pages/vendor/VendorDashboardPage.tsx:98-123 | The design is inserted exactly when the store succeeded with a public URL, with the form's fields, parsed tags, that URL and the vendor; it is uploaded exactly when the insert succeeds |
| VendorDashboard.UploadForm.constructor | src/pages/vendor/VendorDashboardPage.tsx:39-46 | The form starts empty, not uploading and hidden |
| VendorDashboard.UploadForm.UploadDesign | src/pages/vendor/VendorDashboardPage.tsx:78-142 | Performs `UploadRun`; a stop changes nothing, a success clears and hides the form, a failure keeps it; uploading ends false |
| AdminDashboard.SplitVendorsSpec | src/pages/admin/AdminDashboardPage.tsx:102-103 | Every vendor lands in exactly one of the approved and awaiting lists, each in fetch order |
| AdminDashboard.GetStatsSpec | src/pages/admin/AdminDashboardPage.tsx:159-168 | Pending plus completed never exceed the total; revenue is the completed costs and grows by each request's share |
| AdminDashboard.CanAssignSpec | src/pages/admin/AdminDashboardPage.tsx:303 | The assign control appears exactly for pending requests without a vendor |
| AdminDashboard.SelectVendor | src/pages/admin/AdminDashboardPage.tsx:306-307 | The chosen vendor is recorded for that request; every other request keeps its choice |
| AdminDashboard.AssignEnabledSpec | src/pages/admin/AdminDashboardPage.tsx:322 | Assign starts disabled; choosing a vendor enables that request's button only |
| AdminDashboard.AssignSpec | src/pages/admin/AdminDashboardPage.tsx:75-92 | An assignment is sent exactly when a vendor is chosen, for that request and vendor, as pending |
| AdminDashboard.SelectThenAssign | src/pages/admin/AdminDashboardPage.tsx:305-323 | Choosing a vendor and clicking Assign sends exactly that vendor |
| UserDashboard.NormalizeAllSpec | src/pages/user/UserDashboardPage.tsx:48-53 | Normalising keeps every request, keeps a joined profile and turns anything else into none; it is idempotent |
| UserDashboard.VendorTextSpec | src/pages/user/UserDashboardPage.tsx:251-254 | "Not assigned yet" is shown exactly without a vendor profile, or for a vendor of that very name without a company |
| UserDashboard.StatusIconSpec | src/pages/user/UserDashboardPage.tsx:76-84 | Unknown statuses get the clipboard icon; each known status has its own, different icon |
| UserDashboard.GetStatsSpec | src/pages/user/UserDashboardPage.tsx:96-105 | Pending plus completed never exceed the total; spending is the completed costs |
| UserDashboard.StatsIgnoreProfiles | src/pages/user/UserDashboardPage.tsx:48-53 | Normalising profiles does not change the statistics |
| Gallery.MatchesSpec | src/pages/GalleryPage.tsx:53-59 | 'All' admits every category, otherwise only an equal one; the search matches exactly when the lower-cased term occurs in the title or a non-empty description |
| Gallery.FilteredSpec | src/pages/GalleryPage.tsx:53-59 | The shown designs are exactly the matching ones, in order |
| Gallery.ClearFiltersShowsAll | src/pages/GalleryPage.tsx:166 | After clearing the filters every design is shown |
| Gallery.SearchIgnoresCase | src/pages/GalleryPage.tsx:55-57 | Lower-casing the search term changes nothing |
| Gallery.LongerTermNarrows | src/pages/GalleryPage.tsx:53-59 | Typing more of the term only removes designs |
| Landing.IndexSpec | src/pages/LandingPage.tsx:92-98 | Next and previous stay in range; next wraps from the last slide to 0 and previous from 0 to the last |
| Landing.IndexInRange | src/pages/LandingPage.tsx:92-98 | From any non-negative index, both land in range |
| Landing.NextPrevInverse | src/pages/LandingPage.tsx:92-98 | Next and previous undo each other |
| Landing.NextTimesNoWrap | src/pages/LandingPage.tsx:92-94 | Before the end, k nexts advance by k |
| Landing.NextTimesCompose | src/pages/LandingPage.tsx:92-94 | a nexts then b nexts are a + b nexts |
| Landing.NextFullCircle | src/pages/LandingPage.tsx:92-94 | n nexts on n slides come back to the start |
| Landing.FeaturedSpec | src/pages/LandingPage.tsx:76 | The featured designs are the first five, or all of them when there are fewer |
| Landing.NavButtonsMeanSlides | src/pages/LandingPage.tsx:201 | The arrows show exactly when five designs are featured |
| Landing.LandingPage.constructor | src/pages/LandingPage.tsx:43-46 | Starts at slide 0, with no designs, loading |
| Landing.LandingPage.FetchDesigns | src/pages/LandingPage.tsx:65-86 | Stores the designs and the first five as featured, unless the fetch fails; loading ends false |
| Landing.LandingPage.NextSlide | src/pages/LandingPage.tsx:92-94 | The slide becomes `NextIndex` of the old one, in range |
| Landing.LandingPage.PrevSlide | src/pages/LandingPage.tsx:96-98 | The slide becomes `PrevIndex` of the old one, in range |
| AppRoutes.ResolveSpec | src/App.tsx:152-264 | A matched route has that path; the catch-all has no roles; a protected route admits exactly one role |
| AppRoutes.ProtectedRouteSpec | src/App.tsx:102-128 | Spinner exactly while loading; children exactly for a signed-in profile of an allowed role; `/auth` without one; `/` for a wrong role |
| AppRoutes.Visit | src/App.tsx:66-79 | The spinner shows exactly while loading on the home page or a protected route; other pages show at once; a protected route shows its page after loading exactly to an allowed signed-in profile |
| AppRoutes.DashboardRoutes | src/App.tsx:187-228 | Each role's dashboard path shows that role's dashboard and admits that role only |
| AppRoutes.DashboardAdmitsOnlyItsRole | src/App.tsx:187-228 | A signed-in profile sees a dashboard exactly when its role is that dashboard's, and is sent to `/` otherwise |
| NavBarMain.GetDashboardPathSpec | src/components/layout/NavBarMain.tsx:15-26 | A path exists exactly for a known role, and it is that role's dashboard path |
| NavBarMain.DashboardPathAdmitsRole | src/components/layout/NavBarMain.tsx:15-26 | The navbar's dashboard link opens a route that admits the profile's role |
| NavBarMain.NavActionsSpec | src/components/layout/NavBarMain.tsx:74-104 | Dashboard and logout show exactly for a signed-in known role, with that role's path and label |
| NavBarMain.AboutLinkIsNotFound | src/components/layout/NavBarMain.tsx:48 | The "About" link as written resolves to the not-found page |
| NavBarMain.CorrectedLinksResolve | src/App.tsx:231-238 | With `/about-us`, every desktop link opens a real, unprotected page, the second one About |
| DashboardPage.DashboardViewSpec | src/pages/Dashboard.tsx:24-35 | Nothing without a profile; a redirect exactly to the navbar's dashboard path; invalid-role text exactly for an unknown role |
| DashboardPage.RedirectIsAdmitted | src/pages/Dashboard.tsx:26-35 | Every redirect lands on a route that admits the profile |
| DashboardPage.ShouldSignOutSpec | src/pages/Dashboard.tsx:11-20 | Only a non-user whose approval is exactly false is signed out |
| SignUp.FullNameSpec | src/components/auth/SignUpForm.tsx:43 | The full name has no space at either end and is `first + " " + last` with only spaces cut from both ends |
| SignUp.FullNameOfTidy | src/components/auth/SignUpForm.tsx:43 | Tidy non-empty names are joined with one space, unchanged |
| SignUp.FullNameOfOne | src/components/auth/SignUpForm.tsx:43 | A first or last name typed as white space only leaves just the other, tidy name |
| SignUp.SignUpForm.constructor | src/components/auth/SignUpForm.tsx:18-25 | The form starts empty, role `user`, terms not agreed |
| SignUp.SignUpForm.SetRole | src/components/auth/SignUpForm.tsx:195-202 | The role becomes the chosen one of the two offered |
| SignUp.SignUpForm.SetAgreeToTerms | src/components/auth/SignUpForm.tsx:210 | The terms flag becomes the checkbox's value |
| SignUp.SignUpForm.PressSubmit | src/components/auth/SignUpForm.tsx:126-226 | The button does nothing while loading or with an empty required input; otherwise it runs `handleSubmit`, so every sign-up call carries non-empty names and email |
| SignUp.SignUpForm.Submit | src/components/auth/SignUpForm.tsx:28-60 | Without terms only a reminder; with them a sign-up with the full name and the role, never admin, and loading ends false |
| Strings.TrimSpec | src/pages/vendor/VendorDashboardPage.tsx:92 | `trim()` cuts only spaces, from both ends, and leaves none at either end |
| Strings.TrimIdempotent | src/pages/vendor/VendorDashboardPage.tsx:92 | Trimming twice is trimming once |
| Strings.JoinSplit | src/pages/vendor/VendorDashboardPage.tsx:91 | Splitting and re-joining with the separator gives the string back |
| Strings.SplitJoin | src/pages/vendor/VendorDashboardPage.tsx:91 | Joining pieces without the separator and splitting gives the pieces back |

## Left out

- Fetching data (the category, pricing, cart, request, design and vendor loaders) is left out. Fetched rows are parameters. For the landing page, a fetch result and a failure flag are parameters.
- The Supabase client is not modelled. Each call is a value, and its success or failure is a parameter (`failing`, or a flag).
- Toasts, `console` output and the two-second `setTimeout` before sign-out are left out. They show messages and never change state.
- `Date.now()`, `Math.random()` and `URL.createObjectURL` are left out. They name uploaded files and previews, so the URLs are parameters.
- The URL storage holds for an uploaded file is a parameter. How each page reads it from `getPublicUrl`'s response is modelled.
- `parseFloat` yielding `NaN` on typed text is left out. Number inputs give an empty string for invalid text, so a dimension is either absent or a number.
- JavaScript numbers are modelled as exact reals and integers. There is no floating-point rounding.
- `toLocaleString` and currency formatting are display only and are left out.
- `toLowerCase` is modelled for ASCII letters only.
- The browser's check that the sign-up email input (`type="email"`) holds a well-formed address is left out. Only the `required` check that each input is non-empty is modelled (`SignUp.SignUpForm.PressSubmit`).
- `Object.entries` is modelled in insertion order. JavaScript lists integer-like keys first; room type keys are names.
- React Router's case-insensitive and trailing-slash matching is left out. Paths match exactly.
- The `useAuth` session listener, profile fetch and sign-up row insert are left out. In that insert, `is_approved` is the role being `user`. Sign-up is one call with a success flag.
- Dark mode, `localStorage`, styling, the carousel's translate offset and the gallery's two-tag preview are presentation only and are left out.
- The static pages (About, Services, Auth) and the older `Navbar` component are not part of this model.
- The intermediate `loading = true` states of the async handlers are left out. Each method states the state after the handler finishes.
- The cart's expanded-item toggle is display only and is left out.
- The landing page footer's `/about` link has the same defect as the navbar link. Only the navbar link is modelled.
- The admin's vendor drop-down option label (`name (company)`) is left out. The assigned-vendor text is modelled by `Requests.VendorLabel`.
- VendorDashboard.AdvanceButtonSpec: states that the button text for a status holds no `_`, not the exact capitalised words.
- VendorDashboard.StatusUpdateCallsSpec: states that the job note holds no `_` for life-cycle statuses, not its exact words.
- Landing.LandingPage.NextSlide: requires the arrows to be visible (five featured designs), because the arrows are the only way to call it. Automatic cycling is not in the source.
- Landing.LandingPage.PrevSlide: requires the arrows to be visible, for the same reason.

## Findings

| source | as written | input that shows it | evidently intended | confidence | as-written member | corrected member |
|---|---|---|---|---|---|---|
| src/components/layout/NavBarMain.tsx:48 | The desktop "About" link goes to `/about` | Click "About": the router has no `/about` route, only `/about-us` (src/App.tsx:231-238), so the catch-all not-found page shows | The link goes to `/about-us` and shows the About page | high, not executed | NavBarMain.AboutLinkIsNotFound | NavBarMain.CorrectedLinksResolve |
| src/pages/cart/CartPage.tsx:180-183 | `const { publicUrl } = getPublicUrl(fileName)` reads the URL from the top level of the response, which holds it under `data` only, so `imageUrl` is undefined | Check out a cart item with a dimension image: the image is uploaded, but the request's `dimension_image` is left out | Read `{ data: { publicUrl } }`, as src/components/requests/CreateRequestDialog.tsx:133 does, and store the URL with the request | high, not executed | Cart.UploadedImageIsLost | Cart.CorrectedRequestKeepsUrl |
| src/pages/user/UserDashboardPage.tsx:270-274 | The dashboard opens the request dialog without `selectedDesign`, and the dialog never calls its own `fetchDesigns` | Sign in as a user, press "New Project" on the dashboard, pick a room and an image, submit: the dialog asks for a design and stops (src/components/requests/CreateRequestDialog.tsx:147-154) | The dialog receives the design to request, and a complete form creates the request | medium, not executed | RequestDialog.DashboardSubmitStops | RequestDialog.CorrectedDashboardSubmits |
