/** The submit button of a form, whose caption and enabled state the form
    handlers change while a request runs. */
module Ui {
  class SubmitButton {
    var html: string
    var disabled: bool

    constructor (html: string, disabled: bool)
      ensures this.html == html && this.disabled == disabled
    {
      this.html := html;
      this.disabled := disabled;
    }
  }
}

/** What both versions of the add-food page share: the restaurant role check,
    the page guards, the payload built from the form, and the outcomes of a
    submission. */
module AddFoodPage {
  import opened Wrappers
  import opened JsText

  /** A role name that, upper-cased, is exactly ROLE_HOTEL, RESTAURANT or
      HOTEL. */
  predicate IsRestaurantRole(role: string) {
    var u := ToUpper(role);
    u == "ROLE_HOTEL" || u == "RESTAURANT" || u == "HOTEL"
  }

  /** Some role of the user is a restaurant role. */
  function IsRestaurant(roles: seq<string>): (b: bool)
    ensures b <==> exists i :: 0 <= i < |roles| && IsRestaurantRole(roles[i])
  {
    if roles == [] then false
    else if IsRestaurantRole(roles[0]) then true
    else
      assert forall i :: 1 <= i < |roles| ==> roles[i] == roles[1..][i - 1];
      IsRestaurant(roles[1..])
  }

  /** The check ignores case: a role and its upper-cased form agree. */
  lemma RestaurantRoleIgnoresCase(role: string)
    ensures IsRestaurantRole(role) <==> IsRestaurantRole(ToUpper(role))
  {
    ToUpperIdempotent(role);
  }

  /** A one-role list is a restaurant's when its role is. */
  lemma IsRestaurantSingle(a: string)
    ensures IsRestaurant([a]) <==> IsRestaurantRole(a)
  {
    assert [a][0] == a;
  }

  /** A two-role list is a restaurant's when one of its roles is. */
  lemma IsRestaurantPair(a: string, b: string)
    ensures IsRestaurant([a, b]) <==> IsRestaurantRole(a) || IsRestaurantRole(b)
  {
    assert [a, b][0] == a && [a, b][1] == b;
  }

  lemma LowerHotelIsRestaurantRole()
    ensures IsRestaurantRole("hotel")
  {
    ToUpperIs("hotel", "HOTEL");
  }

  lemma MixedRoleHotelIsRestaurantRole()
    ensures IsRestaurantRole("Role_Hotel")
  {
    ToUpperIs("Role_Hotel", "ROLE_HOTEL");
  }

  lemma UpperRoleHotelIsRestaurantRole()
    ensures IsRestaurantRole("ROLE_HOTEL")
  {
    ToUpperIs("ROLE_HOTEL", "ROLE_HOTEL");
  }

  lemma LowerRestaurantIsRestaurantRole()
    ensures IsRestaurantRole("restaurant")
  {
    ToUpperIs("restaurant", "RESTAURANT");
  }

  /** A user whose only role is ROLE_HOTEL passes the check. */
  lemma RoleHotelMayAddFood()
    ensures IsRestaurant(["ROLE_HOTEL"])
  {
    UpperRoleHotelIsRestaurantRole();
    IsRestaurantSingle("ROLE_HOTEL");
  }

  /** A role name whose length is none of the three names' (10, 10 and 5
      letters) is refused, and so is a user whose only role is such a name.
      This rests on the ASCII-only upper-casing of `ToUpper`, which keeps
      the length; full Unicode case mapping can change it ("ﬆ" becomes
      "ST"), which this model does not capture. */
  lemma OtherLengthsAreNotRestaurantRoles(role: string)
    requires |role| != 10 && |role| != 5
    ensures !IsRestaurantRole(role) && !IsRestaurant([role])
  {
    IsRestaurantSingle(role);
  }

  /** Any spelling of a restaurant role is accepted. */
  lemma RestaurantRoleAcceptedExamples()
    ensures IsRestaurant(["hotel"]) && IsRestaurant(["Role_Hotel"])
    ensures IsRestaurant(["CHARITY", "restaurant"])
  {
    LowerHotelIsRestaurantRole();
    IsRestaurantSingle("hotel");
    MixedRoleHotelIsRestaurantRole();
    IsRestaurantSingle("Role_Hotel");
    LowerRestaurantIsRestaurantRole();
    IsRestaurantPair("CHARITY", "restaurant");
  }

  /** Only an exact match counts: longer names that contain one are
      refused. */
  lemma RestaurantRoleRefusedExamples()
    ensures !IsRestaurant(["HOTEL_MANAGER"]) && !IsRestaurant(["ROLE_RESTAURANT"])
  {
    OtherLengthsAreNotRestaurantRoles("HOTEL_MANAGER");
    OtherLengthsAreNotRestaurantRoles("ROLE_RESTAURANT");
  }

  /** A charity, and a user without roles, may not add food. */
  lemma NonRestaurantExamples()
    ensures !IsRestaurant(["CHARITY"]) && !IsRestaurant([])
  {
    OtherLengthsAreNotRestaurantRoles("CHARITY");
  }

  /** What loading the page leads to. */
  datatype PageSetup = ToLogin | ToIndex | Ready(handlerAttached: bool)

  /** The guards run when the page loads: a visitor who is not logged in is
      sent to the login page before any role check; a user without a
      restaurant role is sent to the home page; otherwise the submit handler
      is attached when the form is on the page. */
  function Setup(loggedIn: bool, roles: seq<string>, formPresent: bool): (s: PageSetup)
    ensures s == ToLogin <==> !loggedIn
    ensures s == ToIndex <==> loggedIn && !IsRestaurant(roles)
    ensures s.Ready? <==> loggedIn && IsRestaurant(roles)
    ensures s.Ready? ==> s.handlerAttached == formPresent
  {
    if !loggedIn then ToLogin
    else if !IsRestaurant(roles) then ToIndex
    else Ready(formPresent)
  }

  /** The add-food form as read from its fields; the quantity is already
      parsed, None standing for a quantity that does not parse. */
  datatype FoodForm = FoodForm(
    title: string,
    category: string,
    quantity: Option<int>,
    expiryDate: string,
    pickupTime: string,
    description: string)

  /** The body sent to the backend. */
  datatype FoodPayload = FoodPayload(
    title: string,
    foodType: string,
    quantity: Option<int>,
    availableUntil: string,
    pickupTime: string,
    description: string)

  /** The payload of a form: the category travels as the type and the
      expiry date as the availability deadline. */
  function BuildPayload(f: FoodForm): (p: FoodPayload)
    ensures p.title == f.title && p.foodType == f.category && p.quantity == f.quantity
    ensures p.availableUntil == f.expiryDate && p.pickupTime == f.pickupTime
    ensures p.description == f.description
  {
    FoodPayload(f.title, f.category, f.quantity, f.expiryDate, f.pickupTime, f.description)
  }

  /** A request the page sends. */
  datatype ApiCall = GetHotelByUserId(userId: int) | CreateFood(hotelId: int, payload: FoodPayload)

  /** What the backend answered to the creation request. */
  datatype CreateOutcome = CreateOk | CreateFailed(message: Option<string>)

  /** How a submission ends: redirected to the listing, or an error alert. */
  datatype SubmitResult = Published(redirect: string) | NotPublished(alert: string)

  const LISTING_PAGE := "food-available.html"
  const LOADING_HTML := "<i class=\"fas fa-spinner fa-spin\"></i> جاري النشر..."
  const FAILURE_PREFIX := "❌ فشل إضافة الطعام: "
  const UNKNOWN_ERROR := "خطأ غير معروف"

  /** The alert shown for a failed submission: the error's message, or a
      generic one when it has none. */
  function FailureAlert(message: Option<string>): string {
    FAILURE_PREFIX + OrElse(message, UNKNOWN_ERROR)
  }
}

/** The add-food handler that looks up the user's hotel and creates the food
    under the hotel's id. */
module AddFoodByHotel {
  import opened Wrappers
  import opened Ui
  import opened AddFoodPage

  /** A hotel record; its id may be missing. */
  datatype Hotel = Hotel(id: Option<int>)

  /** What the hotel lookup gave: an error, or an answer that may hold no
      hotel. */
  datatype HotelLookup = LookupFailed(message: Option<string>) | Answered(hotel: Option<Hotel>)

  const HOTEL_MISSING := "لم يتم العثور على بيانات الفندق. يرجى التواصل مع الدعم."

  /** The hotel id the lookup yields when it is usable: a hotel is present
      and its id is present and truthy (not 0). */
  function UsableHotelId(lookup: HotelLookup): (r: Option<int>)
    ensures r.Some? ==> r.value != 0
    ensures r.Some? ==> lookup.Answered? && lookup.hotel.Some? && lookup.hotel.value.id == Some(r.value)
    ensures r.Some? <==>
      (lookup.Answered? && lookup.hotel.Some?
       && lookup.hotel.value.id.Some? && lookup.hotel.value.id.value != 0)
  {
    match lookup
    case Answered(Some(Hotel(Some(id)))) => if id != 0 then Some(id) else None
    case _ => None
  }

  /** Submits the form of user `userId`. `lookup` is what the hotel lookup
      answers and `create` what the creation request answers. The lookup is
      always sent first; the creation is sent only with a usable hotel id,
      and with that id rather than the user's. The button shows a spinner
      while the requests run and ends restored to its caption and enabled,
      whatever happened. */
  method Submit(btn: SubmitButton, userId: int, form: FoodForm, lookup: HotelLookup, create: CreateOutcome)
    returns (result: SubmitResult, calls: seq<ApiCall>)
    modifies btn
    ensures btn.html == old(btn.html) && !btn.disabled
    ensures UsableHotelId(lookup).None? ==> calls == [GetHotelByUserId(userId)]
    ensures UsableHotelId(lookup).Some? ==>
      calls == [GetHotelByUserId(userId), CreateFood(UsableHotelId(lookup).value, BuildPayload(form))]
    ensures result.Published? <==> UsableHotelId(lookup).Some? && create.CreateOk?
    ensures result.Published? ==> result.redirect == LISTING_PAGE
    ensures lookup.LookupFailed? ==> result == NotPublished(FailureAlert(lookup.message))
    ensures lookup.Answered? && UsableHotelId(lookup).None? ==>
      result == NotPublished(FailureAlert(Some(HOTEL_MISSING)))
    ensures UsableHotelId(lookup).Some? && create.CreateFailed? ==>
      result == NotPublished(FailureAlert(create.message))
  {
    var payload := BuildPayload(form);
    var original := btn.html;
    btn.html := LOADING_HTML;
    btn.disabled := true;
    calls := [GetHotelByUserId(userId)];
    var hotelId := UsableHotelId(lookup);
    if lookup.LookupFailed? {
      result := NotPublished(FailureAlert(lookup.message));
    } else if hotelId.None? {
      result := NotPublished(FailureAlert(Some(HOTEL_MISSING)));
    } else {
      calls := calls + [CreateFood(hotelId.value, payload)];
      if create.CreateOk? {
        result := Published(LISTING_PAGE);
      } else {
        result := NotPublished(FailureAlert(create.message));
      }
    }
    btn.html := original;
    btn.disabled := false;
  }
}

/** The add-food handler that creates the food under the user's own id. */
module AddFoodByUser {
  import opened Ui
  import opened AddFoodPage

  /** Submits the form of user `userId`; `create` is what the creation
      request answers. Exactly one request is sent, with the user's id as
      the hotel id. The button ends restored and enabled. */
  method Submit(btn: SubmitButton, userId: int, form: FoodForm, create: CreateOutcome)
    returns (result: SubmitResult, calls: seq<ApiCall>)
    modifies btn
    ensures btn.html == old(btn.html) && !btn.disabled
    ensures calls == [CreateFood(userId, BuildPayload(form))]
    ensures result.Published? <==> create.CreateOk?
    ensures result.Published? ==> result.redirect == LISTING_PAGE
    ensures create.CreateFailed? ==> result == NotPublished(FailureAlert(create.message))
  {
    var payload := BuildPayload(form);
    var original := btn.html;
    btn.html := LOADING_HTML;
    btn.disabled := true;
    calls := [CreateFood(userId, payload)];
    if create.CreateOk? {
      result := Published(LISTING_PAGE);
    } else {
      result := NotPublished(FailureAlert(create.message));
    }
    btn.html := original;
    btn.disabled := false;
  }
}

/** The login form: field validation, the login request and the role-based
    redirect. */
module Login {
  import opened Wrappers
  import opened JsText
  import opened Ui
  import AddFoodPage

  datatype Credentials = Credentials(email: string, password: string)

  /** Checks the fields before logging in: the e-mail is trimmed, the
      password is taken as typed, and an empty trimmed e-mail or an empty
      password stops the submission. */
  function Validate(emailField: string, password: string): (r: Option<Credentials>)
    ensures r.None? <==> AllSpace(emailField) || password == ""
    ensures r.Some? ==> r.value.email == Trim(emailField) && r.value.password == password
    ensures r.Some? ==>
      (r.value.email != [] && !IsJsSpace(r.value.email[0])
       && !IsJsSpace(r.value.email[|r.value.email| - 1]))
  {
    var email := Trim(emailField);
    if email == "" || password == "" then None else Some(Credentials(email, password))
  }

  const RESTAURANT_DASHBOARD := "restaurant-dashboard.html"
  const CHARITY_DASHBOARD := "charity-dashboard.html"
  const HOME := "index.html"

  /** The role list of a login answer; a missing list reads as empty. */
  function RolesOf(roles: Option<seq<string>>): seq<string> {
    match roles
    case None => []
    case Some(rs) => rs
  }

  /** The page a logged-in user is sent to. Role names are matched exactly,
      case included: HOTEL or RESTAURANT wins over CHARITY, and anything
      else, a missing role list included, goes to the home page. */
  function RedirectFor(roles: Option<seq<string>>): (page: string)
    ensures page == RESTAURANT_DASHBOARD <==> "HOTEL" in RolesOf(roles) || "RESTAURANT" in RolesOf(roles)
    ensures page == CHARITY_DASHBOARD <==>
      "HOTEL" !in RolesOf(roles) && "RESTAURANT" !in RolesOf(roles) && "CHARITY" in RolesOf(roles)
    ensures page == HOME <==>
      "HOTEL" !in RolesOf(roles) && "RESTAURANT" !in RolesOf(roles) && "CHARITY" !in RolesOf(roles)
  {
    var rs := RolesOf(roles);
    if "HOTEL" in rs || "RESTAURANT" in rs then RESTAURANT_DASHBOARD
    else if "CHARITY" in rs then CHARITY_DASHBOARD
    else HOME
  }

  /** Matching is case-sensitive and exact, and HOTEL wins over CHARITY. */
  lemma RedirectExamples()
    ensures RedirectFor(Some(["hotel"])) == HOME
    ensures RedirectFor(Some(["ROLE_HOTEL"])) == HOME
    ensures RedirectFor(Some(["CHARITY", "HOTEL"])) == RESTAURANT_DASHBOARD
    ensures RedirectFor(Some(["CHARITY"])) == CHARITY_DASHBOARD
    ensures RedirectFor(None) == HOME
  {
    assert ["CHARITY", "HOTEL"][1] == "HOTEL";
  }

  /** A user whose role is ROLE_HOTEL may add food, yet logging in sends
      that user to the home page rather than the restaurant dashboard. */
  lemma LoginAndAddFoodDisagree()
    ensures AddFoodPage.IsRestaurant(["ROLE_HOTEL"])
    ensures RedirectFor(Some(["ROLE_HOTEL"])) == HOME
  {
    AddFoodPage.RoleHotelMayAddFood();
    RedirectExamples();
  }

  /** What the login request answered. */
  datatype LoginOutcome = LoginFailed(message: Option<string>) | LoggedIn(roles: Option<seq<string>>)

  /** How a submission ends. Only the last two send the login request, with
      the credentials they carry. */
  datatype LoginResult =
    | Invalid
    | Failed(alert: string, sent: Credentials)
    | Redirected(page: string, sent: Credentials)

  const LOADING_HTML := "<i class=\"fas fa-spinner fa-spin\"></i> جاري الدخول..."
  const ALERT_PREFIX := "❌ "
  const LOGIN_FAILED := "فشل تسجيل الدخول"

  /** Submits the login form; `outcome` is what the login request answers.
      Invalid fields end the submission before the button is touched;
      otherwise the button shows a spinner during the request and ends
      restored and enabled, whatever the answer. */
  method Submit(btn: SubmitButton, emailField: string, passwordField: string, outcome: LoginOutcome)
    returns (r: LoginResult)
    modifies btn
    ensures r == Invalid <==> Validate(emailField, passwordField).None?
    ensures r == Invalid ==> btn.html == old(btn.html) && btn.disabled == old(btn.disabled)
    ensures r != Invalid ==> btn.html == old(btn.html) && !btn.disabled
    ensures r != Invalid ==> r.sent == Credentials(Trim(emailField), passwordField)
    ensures r.Redirected? <==> r != Invalid && outcome.LoggedIn?
    ensures r.Redirected? ==> r.page == RedirectFor(outcome.roles)
    ensures r.Failed? ==> r.alert == ALERT_PREFIX + OrElse(outcome.message, LOGIN_FAILED)
  {
    var credentials := Validate(emailField, passwordField);
    if credentials.None? {
      return Invalid;
    }
    var original := btn.html;
    btn.html := LOADING_HTML;
    btn.disabled := true;
    match outcome {
      case LoginFailed(message) =>
        r := Failed(ALERT_PREFIX + OrElse(message, LOGIN_FAILED), credentials.value);
      case LoggedIn(roles) =>
        r := Redirected(RedirectFor(roles), credentials.value);
    }
    btn.html := original;
    btn.disabled := false;
  }
}
