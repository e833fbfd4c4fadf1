# Takaful food listing and forms — a Dafny model

Takaful is a food-donation site. Restaurants and hotels publish surplus food, and charities reserve it. This project models the browser-side logic of four of its scripts:

- **The available-food page** (`food-available.js`). It converts backend food records into card records and maps the backend status to one of four UI statuses (available, reserved, delivered, expired). It also computes the "time left" label, filters the list, counts the filter badges, draws the cards, reloads from the backend (keeping the current list, at first the built-in sample items, when a load fails) and handles a reservation click: the login and charity checks, the charity lookup, the reservation request, the closing alert and the reload.
- **The add-food page, in its two versions.** Both reject visitors who are not logged in and users without a restaurant or hotel role, and both build the same payload from the form. One version first looks up the user's hotel and creates the food under the hotel's id. The other creates it under the user's id.
- **The login form.** It trims the e-mail, rejects empty fields and sends a logged-in user to a page chosen by role.

Modules:

| module | file | contents |
|---|---|---|
| `Wrappers` | `text.dfy` | `Option`, standing for a JavaScript value that may be missing |
| `JsText` | `text.dfy` | The string operations the scripts use: `toUpperCase` on ASCII letters, `trim`, `includes`, and integers printed in decimal |
| `FoodMapping` | `food_mapping.dfy` | The record-to-card mapping, the status mapping and the time-left computation |
| `FoodPage` | `food_page.dfy` | The listing page. Its state is the class `FoodListing`, which holds the item list, the drawn cards, the empty-state flag and the badge counts |
| `Ui` | `forms.dfy` | The submit button whose caption and enabled flag the form handlers change |
| `AddFoodPage`, `AddFoodByHotel`, `AddFoodByUser` | `forms.dfy` | The shared part of the add-food page, and its two submit handlers |
| `Login` | `forms.dfy` | Field validation, the submit handler and the role-based redirect |

Things outside the scripts are inputs to the model:

- The current time, in milliseconds.
- What each backend request answered.
- Whether the user confirmed a dialog.
- The stored login.
- Which badge elements exist on the page.

Each request a handler sends is returned as a value (`ApiCall`, `Endpoint`, `ReserveRequest`), so the contracts can say which requests go out and with which ids.

Two facts about the listing page shape the model:

- **PICKED_UP.** The status mapping has no case of its own for PICKED_UP. It falls to the default and shows as *available*.
- **What the page loads.** The page loads either the available foods or a keyword search, and nothing else.

## Model

| member | source | states |
|---|---|---|
| `JsText.ToUpper` | Takaful/Takaful/project/js/food-available.js:131 | The result has the input's length, and each character is the input's character upper-cased (ASCII letters only). |
| `JsText.ToUpperIdempotent` | Takaful/Takaful/project/js/food-available.js:131 | Upper-casing twice equals upper-casing once. So the status and role checks, which upper-case their input, ignore its case. |
| `JsText.Contains` | Takaful/Takaful/project/js/food-available.js:214 | `includes` is true exactly when the substring occurs at some index of the string. |
| `JsText.ContainsAfterPrefix` | Takaful/Takaful/project/js/food-available.js:285 | When the first character of `sub` appears nowhere in a prefix, every occurrence of `sub` after that prefix lies in the suffix. |
| `JsText.Trim` | Takaful/project/js/login-script.js:13 | `trim` returns a contiguous slice of its input with only JavaScript white space before and after it, and no white space at either end of its own. The result is empty exactly when the input was all white space. |
| `JsText.NatToStringRoundTrip` | Takaful/Takaful/project/js/food-available.js:146 | Reading back the decimal text of a natural number gives the number. |
| `JsText.IntToStringRoundTrip` | Takaful/Takaful/project/js/food-available.js:146 | Reading back the printed text of any integer, negative ones included, gives the integer. So the quantity label determines the quantity. |
| `FoodMapping.MapFoodStatus` | Takaful/Takaful/project/js/food-available.js:131-138 | The result is always one of the four UI statuses. Reserved iff RESERVED; delivered iff COMPLETED; expired iff EXPIRED or CANCELLED; available iff none of these. Unknown and empty statuses show as available. |
| `FoodMapping.StatusCaseInsensitive` | Takaful/Takaful/project/js/food-available.js:131-138 | A record whose backend status is upper-cased gets the same card status and the same type as the record as sent. |
| `FoodMapping.PickedUpShowsAvailable` | Takaful/Takaful/project/js/food-available.js:132-138 | A PICKED_UP record shows as available, so it stays reservable. |
| `FoodMapping.ComputeTimeLeft` | Takaful/Takaful/project/js/food-available.js:157-166 | Expired iff the deadline is not after now. Otherwise the label's whole minutes are the floor of the time left in minutes. Below one hour the label shows minutes only (fewer than 60); from one hour on it shows hours (at least 1) and minutes (fewer than 60). |
| `FoodMapping.TimeLeftNeverGrows` | Takaful/Takaful/project/js/food-available.js:157-166 | For a fixed deadline, a later `now` never shows more minutes left. |
| `FoodMapping.TimeLeftExamples` | Takaful/Takaful/project/js/food-available.js:157-166 | 65 minutes before the deadline gives 1 h 5 min. 5 minutes before gives 5 min. 59.999 s before gives 0 min. 1 ms after gives expired. |
| `FoodMapping.MapFoodResponse` | Takaful/Takaful/project/js/food-available.js:130-155 | The card keeps the record's id and gets the mapped UI status. Each missing or empty field becomes its placeholder: no title, "not specified", a dash, or an empty phone. The quantity becomes "N meals". So name, type, quantity, location and restaurant are never empty. With a non-empty deadline, the card carries it and its computed time left; without one, the expiry placeholder and no time left. `reservedBy` is never set. |
| `FoodMapping.MapResponses` | Takaful/Takaful/project/js/food-available.js:186 | Each record is mapped position by position into a new list: the result has the same length and order. |
| `FoodPage.FallbackStatuses` | Takaful/Takaful/project/js/food-available.js:5-112 | Every sample item has a UI status, and every reserved sample item names the charity holding it. |
| `FoodPage.WithStatus` | Takaful/Takaful/project/js/food-available.js:249 | The filtered list holds exactly the items with that status, and no more items than the input. |
| `FoodPage.WithStatusAppend` | Takaful/Takaful/project/js/food-available.js:249 | Filtering distributes over concatenation, so the filter keeps list order. |
| `FoodPage.Filtered` | Takaful/Takaful/project/js/food-available.js:246-250 | "all" shows the whole list. Any other filter shows exactly the items whose status equals it. |
| `FoodPage.FilterCount` | Takaful/Takaful/project/js/food-available.js:399-405 | The "all" badge is the list's length. Any other badge is at most the length; it is zero iff no item has that status, and the length iff every item has it. |
| `FoodPage.FilterCountMatchesCards` | Takaful/Takaful/project/js/food-available.js:399-405 | Each badge equals the number of cards its filter shows. |
| `FoodPage.StatusCountsSumToAll` | Takaful/Takaful/project/js/food-available.js:393-410 | When every item has a UI status, the four status badges add up to the "all" badge. |
| `FoodPage.MappedFilter` | Takaful/Takaful/project/js/food-available.js:247-250 | Filtering the loaded list by a status gives the mapped backend records whose status maps to it, in backend order. |
| `FoodPage.LoadedCountsAddUp` | Takaful/Takaful/project/js/food-available.js:393-410 | After a successful load, the four status badges add up to the number of records received. |
| `FoodPage.ReservedLabelAsWritten` | Takaful/Takaful/project/js/food-available.js:285 | The label starts with "محجوز - " and continues with the `reservedBy` text when present. It contains "undefined" iff `reservedBy` is missing or itself contains it. |
| `FoodPage.MappedReservedShowsUndefined` | Takaful/Takaful/project/js/food-available.js:285 | As written, every backend record with status RESERVED is labelled "reserved - undefined", and the label contains "undefined". |
| `FoodPage.ReservedLabel` | Takaful/Takaful/project/js/food-available.js:283-285 | A present charity name gives "reserved - name". A missing or empty one gives the bare "reserved". The label contains "undefined" only when that name does. |
| `FoodPage.ReservedLabelAgrees` | Takaful/Takaful/project/js/food-available.js:285 | Whenever a charity name is present, the corrected label equals the one the page builds. |
| `FoodPage.CardFor` | Takaful/Takaful/project/js/food-available.js:264-310 | A card has buttons iff its status is a UI status. Available: class status-available, label "متاح للطلب", a reserve button for that id and a call button for the restaurant's phone; no other card offers reservation. Reserved: class status-reserved, the label as written ("محجوز - " followed by the `reservedBy` value, "undefined" when missing), one disabled button. Expired: status-expired, "منتهي الصلاحية", one disabled button. Delivered: status-delivered, "تم التوزيع", one disabled button. Other statuses get no class, no label and no button. |
| `FoodPage.ReservedCardLabels` | Takaful/Takaful/project/js/food-available.js:283-285 | A reserved sample item's card shows the corrected label, while a reserved backend record's card does not. |
| `FoodPage.CardsOf` | Takaful/Takaful/project/js/food-available.js:264-357 | One card per item, in item order. |
| `FoodPage.ContactRestaurantTarget` | Takaful/Takaful/project/js/food-available.js:383-390 | Navigation happens iff the user confirms, to "tel:" followed by exactly the phone number. |
| `FoodPage.EndpointFor` | Takaful/Takaful/project/js/food-available.js:183-185 | A non-empty keyword selects the search endpoint with that keyword. No keyword, or an empty one, selects the available-food endpoint. |
| `FoodPage.ResponseData` | Takaful/Takaful/project/js/food-available.js:168-181 | A successful answer's records are its `data` list, or nothing when the list is missing. |
| `FoodPage.HasCharityRole` | Takaful/Takaful/project/js/food-available.js:214 | True iff some role contains CHARITY, ignoring case. |
| `FoodPage.ReserveGuard` | Takaful/Takaful/project/js/food-available.js:206-217 | Login is required iff the token or the user id is missing or empty. Otherwise the charity lookup is reached iff the user has a charity role, for that food id and user id; without such a role, "charities only". |
| `FoodPage.ReserveViaApi` | Takaful/Takaful/project/js/food-available.js:206-238 | No login: the login alert, navigation to login.html, no request. No charity role: the charities-only alert, no request. Both refusals return normally, so the attempt is fulfilled. A charity user's attempt sends exactly one charity lookup by user id, then, iff the lookup succeeds, exactly one reservation for the food id and the charity's id. The attempt is fulfilled iff refused or the reservation was accepted; otherwise it is rejected with the lookup's message, or the backend's message or "فشل الحجز". It never reloads anything itself. |
| `FoodPage.AfterReserve` | Takaful/Takaful/project/js/food-available.js:372-380 | A fulfilled attempt alerts that the reservation of the named item was sent and reloads the list. A rejected one alerts its message, or "حدث خطأ أثناء الحجز" when it is empty, and does not reload. |
| `FoodPage.RefusalReportsSuccess` | Takaful/Takaful/project/js/food-available.js:209-217 | As written, a refused check posts no reservation, yet the handler announces the reservation as sent and reloads the list. |
| `FoodPage.ReserveViaApiCorrected` | Takaful/Takaful/project/js/food-available.js:206-238 | Same alerts, navigation and requests as the attempt as written, but fulfilled iff a reservation was posted and accepted, and stopped iff a check refused. A rejection is the one the attempt as written gives, message included. |
| `FoodPage.CorrectedAnnouncesOnlyAccepted` | Takaful/Takaful/project/js/food-available.js:372-377 | With the correction, the success alert and the reload happen iff a reservation was posted and accepted. |
| `FoodPage.ItemName` | Takaful/Takaful/project/js/food-available.js:364-365 | No name iff no item on the page has the id. Otherwise the name is that of the first item with the id, the one `find` returns. |
| `FoodPage.ClickAttempt` | Takaful/Takaful/project/js/food-available.js:372-380 | A confirmed click shows the attempt's alerts and then one closing alert, the success alert when fulfilled, the error alert when rejected; it navigates as the attempt does; it sends exactly the attempt's requests, followed by one reload of the available food iff the attempt is fulfilled. A refused check ends with the success alert and sends nothing but the reload. |
| `FoodPage.FindItem` | Takaful/Takaful/project/js/food-available.js:364-365 | Finds the first item with the id: the item at the returned index has it, and none before it does. The result is none iff no item has it. |
| `FoodPage.FoodListing.constructor` | Takaful/Takaful/project/js/food-available.js:5-112 | The page starts with the eight sample items, no cards and no counts. |
| `FoodPage.FoodListing.RenderFoodCards` | Takaful/Takaful/project/js/food-available.js:242-360 | The drawn cards are exactly the cards of the filtered items. The empty-state placeholder is shown iff the filter selects nothing. The list and the counts are unchanged. |
| `FoodPage.FoodListing.UpdateFilterCounts` | Takaful/Takaful/project/js/food-available.js:393-410 | Each badge present on the page gets its filter's count. Absent badges and every other part of the state are unchanged. |
| `FoodPage.FoodListing.LoadFoods` | Takaful/Takaful/project/js/food-available.js:183-195 | The request goes to the endpoint the keyword selects. A successful answer replaces the list by its mapped records; a failure keeps the current list. Either way the badges are recounted and the active filter ("all" when none) is redrawn from the resulting list. |
| `FoodPage.FoodListing.ReserveFood` | Takaful/Takaful/project/js/food-available.js:363-381 | An id not on the page, or a declined confirmation, does nothing and changes nothing. Otherwise the click runs as `ClickAttempt` says for the item's name. When it reloads, the list becomes the mapped reload answer (kept on failure), the badges are recounted and the active filter is redrawn; without a reload the page state is unchanged. |
| `AddFoodPage.IsRestaurant` | Takaful/project/js/add-food.js:17-21 | True iff some role, upper-cased, is exactly ROLE_HOTEL, RESTAURANT or HOTEL. |
| `AddFoodPage.RestaurantRoleIgnoresCase` | Takaful/project/js/add-food.js:17-21 | A role passes iff its upper-cased form passes. |
| `AddFoodPage.RoleHotelMayAddFood` | Takaful/project/js/add-food.js:17-21 | A user whose only role is ROLE_HOTEL may add food. |
| `AddFoodPage.OtherLengthsAreNotRestaurantRoles` | Takaful/project/js/add-food.js:17-21 | A role whose length is none of the three names' lengths is refused, alone or as the only role. |
| `AddFoodPage.RestaurantRoleAcceptedExamples` | Takaful/project/js/add-food.js:17-21 | "hotel", "Role_Hotel", and a list holding "restaurant" after "CHARITY" all pass. |
| `AddFoodPage.RestaurantRoleRefusedExamples` | Takaful/project/js/add-food.js:17-21 | HOTEL_MANAGER and ROLE_RESTAURANT are refused: the match is exact, not a substring match. |
| `AddFoodPage.NonRestaurantExamples` | Takaful/project/js/add-food.js:17-21 | A charity, and a user without roles, are refused. |
| `AddFoodPage.Setup` | Takaful/project/js/add-food.js:8-33 | Sent to login iff not logged in. Sent home iff logged in without a restaurant role. Otherwise ready, with the handler attached iff the form exists. |
| `AddFoodPage.BuildPayload` | Takaful/project/js/add-food.js:45-52 | Each form field goes to its payload field: the category travels as the type, the expiry date as the availability deadline. |
| `AddFoodByHotel.UsableHotelId` | Takaful/project/js/add-food.js:64-68 | An id is usable iff the lookup answered with a hotel whose id is present and non-zero, and the usable id is that hotel's id. |
| `AddFoodByHotel.Submit` | Takaful/project/js/add-food.js:54-86 | The hotel lookup always goes out first. The creation goes out only with a usable hotel id, and under that id rather than the user's. The food is published, redirecting to the listing, iff both succeed. A failed lookup, a missing hotel and a failed creation each give their own alert. The button ends restored and enabled. |
| `AddFoodByUser.Submit` | Takaful/Takaful/project/js/add-food.js:52-74 | Exactly one creation request goes out, under the user's id. Published iff it succeeds; otherwise an alert with the backend message or the generic one. The button ends restored and enabled. |
| `Login.Validate` | Takaful/project/js/login-script.js:13-20 | The submission stops iff the e-mail is all white space or the password is empty. Otherwise the credentials are the trimmed e-mail, with no white space at either end, and the password as typed. |
| `Login.RedirectFor` | Takaful/project/js/login-script.js:38-46 | The restaurant dashboard iff HOTEL or RESTAURANT is among the roles. The charity dashboard iff neither is but CHARITY is. The home page otherwise, including when the role list is missing. |
| `Login.RedirectExamples` | Takaful/project/js/login-script.js:38-46 | Role matching on login is exact and case-sensitive: "hotel" and "ROLE_HOTEL" go home. HOTEL wins over CHARITY. |
| `Login.LoginAndAddFoodDisagree` | Takaful/project/js/login-script.js:40 | A ROLE_HOTEL user passes the add-food role check, yet logging in sends that user home rather than to the restaurant dashboard. |
| `Login.Submit` | Takaful/project/js/login-script.js:10-54 | Invalid fields end the submission without touching the button or sending anything. Otherwise the trimmed credentials are sent. Success redirects by role. Failure alerts the backend message or the generic one. The button ends restored and enabled. |

## Left out

- The network, JSON parsing and `localStorage` are not modelled. Every backend answer and the stored login are inputs, and a thrown error is an outcome value.
- Date parsing (`new Date(...)`) and `toLocaleString('ar-JO')` are not modelled. A deadline is its text and the instant it denotes, and the localized expiry keeps the instant. An unparseable date (JavaScript's `NaN`, which makes the time-left text read "NaN") is not modelled.
- The clock: one `now` is used for every record of a load.
- `FoodMapping.ComputeTimeLeft`: returns the hours and minutes, not the Arabic sentence they are printed in.
- `JsText.ToUpper`: upper-cases ASCII letters only. Unicode case mapping beyond them is not modelled; the role and status names are ASCII.
- `parseInt` on the quantity field is not modelled. The form holds the parsed value, `None` standing for `NaN`.
- The text of the HTML templates is not modelled. A card is its style class, status label and buttons; a button is the action it triggers.
- Dialogs (`alert`, `confirm`) are not modelled, only their text or outcome. Neither is `console` logging.
- The page's start-up sequence is not modelled as one operation. It starts `loadFoods`, which suspends at its first request, then draws and counts the sample items; the draw in `loadFoods`' `finally` always comes after that. Only a filter click between the two depends on timing, and the model has the two draws as separate calls. The 30-second `setInterval` recount and the filter-button click handler are not modelled either. That handler moves the `active` class to the clicked button and draws its filter with `RenderFoodCards`; the `active` class also decides which filter the `finally` of `loadFoods` redraws, so the model takes the active filter as a parameter of `LoadFoods` and `ReserveFood`.
- `FoodPage.FoodListing.ReserveFood`: the navigation to login.html after a missing login is a value; whether leaving the page cuts off the alert and reload that follow it is not modelled. A network failure of the charity lookup or the reservation request, rather than an error answer, is not modelled. The reservation POST's body is its food id and charity id; the fixed notes text and the auth headers are not modelled.
- `openHelpModal` is not modelled (static help text), and neither is the navigation bar script.
- `getCurrentUser()` returning no user after `isLoggedIn()` succeeded is not modelled. The script would throw there.
- `AddFoodPage.Setup`: the redirect alerts are not modelled, only which page follows.
- A backend `data` field that is present but not a list is not modelled. It would make `data.map` throw, which the page treats like a failed request.
- A `null` element in a backend `data` list is not modelled: a `FoodResponse` is always a record. Such an element makes the mapping throw at its status, and the page then keeps the current list as after a failed request.
- `FoodMapping.MapFoodResponse`: the quantity is an unbounded integer printed in plain decimal. A JavaScript number prints values from 1e21 up in exponent form ("1e+21"), cannot hold integers above 2^53 exactly, and prints fractions ("2.5"); none of this is modelled.

## Findings

| source | as written | input that shows it | evidently intended | confidence | as-written member | corrected member |
|---|---|---|---|---|---|---|
| Takaful/Takaful/project/js/food-available.js:285 (with 142-154) | The reserved card's label interpolates `item.reservedBy`, but records mapped from the backend never set that field, so the label reads "محجوز - undefined" | any backend record whose status is "RESERVED" (any case) | the charity's name when known; otherwise just "محجوز", never the raw text "undefined" | not executed | `FoodPage.MappedReservedShowsUndefined` | `FoodPage.ReservedLabel` |
| Takaful/Takaful/project/js/food-available.js:209-217 (with 372-377) | A refused check alerts and then `return`s, so the promise is fulfilled: the handler then alerts that the reservation was sent and reloads the list | a confirmed click by a logged-in user without a CHARITY role (or by a user not logged in) | a refusal stops the handler: no success alert and no reload | not executed | `FoodPage.RefusalReportsSuccess` | `FoodPage.ReserveViaApiCorrected` |
