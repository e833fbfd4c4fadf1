/** The available-food listing page: the list of card records it holds, the
    cards and filter badges it draws from that list, the reload that replaces
    the list, and the checks run before a reservation request. */
module FoodPage {
  import opened Wrappers
  import opened JsText
  import opened FoodMapping

  // ------------------------------------------------------------ fallback data

  /** The eight sample items the page shows until the backend answers. */
  function FallbackItems(): seq<UiItem> {
    [ UiItem(1, "وجبات معكرونة باللحم", "أطباق رئيسية", "50 وجبة", "اربد", "مطعم الإخوة",
             "0777777777", Text("ينتهي اليوم"), "2023-12-20", AVAILABLE,
             Literal("ينتهي خلال 4 ساعات"), None),
      UiItem(2, "ساندويشات دجاج مشوي", "وجبات سريعة", "30 ساندويش", "عمان", "مطعم الوجبات السريعة",
             "0777777777", Text("ينتهي غداً"), "2023-12-21", AVAILABLE,
             Literal("ينتهي خلال 28 ساعة"), None),
      UiItem(3, "كيك الشوكولاتة", "حلويات", "15 قطعة", " الزرقاء", "مخبز الحلواني",
             "0777777777", Text("ينتهي 23/12"), "2023-12-23", RESERVED,
             Literal("محجوز"), Some("جمعية الرحمة")),
      UiItem(4, "سلطات طازجة", "أطباق صحية", "40 علبة", "عمان", "مطعم الصحة",
             "0777777777", Text("منتهي"), "2023-12-18", EXPIRED,
             Literal("منتهي الصلاحية"), None),
      UiItem(5, "أرز بسمتي مع دجاج", "أطباق رئيسية", "25 طبق", "العقبة", "مطعم الأصايل",
             "0777777777", Text("ينتهي 22/12"), "2023-12-22", AVAILABLE,
             Literal("ينتهي خلال يومين"), None),
      UiItem(6, "فطائر الجبنة", "مخبوزات", "60 قطعة", "عمان -الجاردنز", "مخبز الفرسان",
             "0777777777", Text("تم التوزيع"), "2023-12-19", DELIVERED,
             Literal("وصل للمستفيدين"), None),
      UiItem(7, "عصائر طازجة", "مشروبات", "35 كوب", "البحر الميت ", "مقهى العصائر",
             "0777777777", Text("ينتهي اليوم"), "2023-12-20", AVAILABLE,
             Literal("ينتهي خلال 6 ساعات"), None),
      UiItem(8, "مقبلات متنوعة", "مقبلات", "45 طبق", " عمان", "مطعرالضيافة",
             "0777777777", Text("محجوز"), "2023-12-24", RESERVED,
             Literal("محجوز للاستلام"), Some("جمعية البر")) ]
  }

  // ------------------------------------------------------------------ filter

  const ALL := "all"

  /** The filters that carry a count badge, in the order they are updated. */
  const FILTERS := [ALL, AVAILABLE, RESERVED, EXPIRED, DELIVERED]

  /** The items whose status is `s`, in list order. */
  function WithStatus(items: seq<UiItem>, s: string): (r: seq<UiItem>)
    ensures |r| <= |items|
    ensures forall x :: x in r ==> x in items && x.status == s
    ensures forall x :: x in items && x.status == s ==> x in r
  {
    if items == [] then []
    else if items[0].status == s then [items[0]] + WithStatus(items[1..], s)
    else WithStatus(items[1..], s)
  }

  /** Filtering a concatenation filters each part: the filter keeps the
      order of the list. */
  lemma {:induction false} WithStatusAppend(a: seq<UiItem>, b: seq<UiItem>, s: string)
    ensures WithStatus(a + b, s) == WithStatus(a, s) + WithStatus(b, s)
  {
    if a == [] {
      assert a + b == b;
    } else {
      assert (a + b)[1..] == a[1..] + b;
      WithStatusAppend(a[1..], b, s);
    }
  }

  /** The items a filter button shows: everything for "all", otherwise the
      items with exactly that status. */
  function Filtered(items: seq<UiItem>, filter: string): (r: seq<UiItem>)
    ensures filter == ALL ==> r == items
    ensures filter != ALL ==> forall x :: x in r <==> x in items && x.status == filter
  {
    if filter == ALL then items else WithStatus(items, filter)
  }

  // ------------------------------------------------------------------ counts

  /** The number of items whose status is `s`: none exactly when no item
      has it, all of them exactly when every item has it. */
  function CountStatus(items: seq<UiItem>, s: string): (n: nat)
    ensures n <= |items|
    ensures n == 0 <==> forall i :: 0 <= i < |items| ==> items[i].status != s
    ensures n == |items| <==> forall i :: 0 <= i < |items| ==> items[i].status == s
  {
    if items == [] then 0
    else (if items[0].status == s then 1 else 0) + CountStatus(items[1..], s)
  }

  /** The number a filter's badge shows: the whole list's length for "all",
      otherwise the number of items with that status. */
  function FilterCount(items: seq<UiItem>, filter: string): (n: nat)
    ensures n <= |items|
    ensures filter == ALL ==> n == |items|
    ensures filter != ALL ==> (n == 0 <==> forall i :: 0 <= i < |items| ==> items[i].status != filter)
    ensures filter != ALL ==> (n == |items| <==> forall i :: 0 <= i < |items| ==> items[i].status == filter)
  {
    if filter == ALL then |items| else CountStatus(items, filter)
  }

  /** A badge shows the number of cards its filter shows. */
  lemma {:induction false} FilterCountMatchesCards(items: seq<UiItem>, filter: string)
    ensures FilterCount(items, filter) == |Filtered(items, filter)|
  {
    if filter != ALL && items != [] {
      FilterCountMatchesCards(items[1..], filter);
    }
  }

  /** When every item has one of the four UI statuses, as every mapped item
      does, the four status badges add up to the "all" badge. */
  lemma {:induction false} StatusCountsSumToAll(items: seq<UiItem>)
    requires forall x :: x in items ==> IsUiStatus(x.status)
    ensures FilterCount(items, AVAILABLE) + FilterCount(items, RESERVED)
      + FilterCount(items, EXPIRED) + FilterCount(items, DELIVERED) == FilterCount(items, ALL)
  {
    if items != [] {
      assert items[0] in items;
      StatusCountsSumToAll(items[1..]);
    }
  }

  /** The badge values `UpdateFilterCounts` writes for the badges present. */
  function BadgeCounts(items: seq<UiItem>, badges: set<string>): map<string, nat> {
    map f | f in badges && f in FILTERS :: FilterCount(items, f)
  }

  /** The badge counts of the filters in `done` alone. */
  function CountsFor(items: seq<UiItem>, badges: set<string>, done: seq<string>): map<string, nat> {
    map f | f in badges && f in done :: FilterCount(items, f)
  }

  /** Counting one more filter adds its badge, when there is one. */
  lemma CountsForStep(items: seq<UiItem>, badges: set<string>, done: seq<string>, f: string)
    ensures CountsFor(items, badges, done + [f]) ==
      if f in badges then CountsFor(items, badges, done)[f := FilterCount(items, f)]
      else CountsFor(items, badges, done)
  {
  }

  /** Updating a merged map updates its right-hand part. */
  lemma MergeUpdate<K, V>(m: map<K, V>, p: map<K, V>, k: K, v: V)
    ensures (m + p)[k := v] == m + p[k := v]
  {
  }

  /** Every sample item has a UI status, and every reserved sample item
      names the charity that reserved it. */
  lemma FallbackStatuses()
    ensures forall x :: x in FallbackItems() ==> IsUiStatus(x.status)
    ensures forall x :: x in FallbackItems() && x.status == RESERVED ==> Truthy(x.reservedBy)
  {
  }

  /** The backend records whose mapped UI status is `s`, in order. */
  function RecordsShownAs(data: seq<FoodResponse>, s: string): seq<FoodResponse> {
    if data == [] then []
    else if MapFoodStatus(BackendStatus(data[0])) == s then [data[0]] + RecordsShownAs(data[1..], s)
    else RecordsShownAs(data[1..], s)
  }

  /** Filtering the loaded list by a status shows the mapped records whose
      backend status maps to it, in the order the backend sent them. */
  lemma {:induction false} MappedFilter(data: seq<FoodResponse>, now: int, s: string)
    requires s != ALL
    ensures Filtered(MapResponses(data, now), s) == MapResponses(RecordsShownAs(data, s), now)
  {
    if data != [] {
      var items := MapResponses(data, now);
      assert items[1..] == MapResponses(data[1..], now);
      MappedFilter(data[1..], now, s);
      if MapFoodStatus(BackendStatus(data[0])) == s {
        var rest := RecordsShownAs(data[1..], s);
        assert MapResponses([data[0]] + rest, now)
          == [MapFoodResponse(data[0], now)] + MapResponses(rest, now);
      }
    }
  }

  /** After a successful load every item has a UI status, so the four status
      badges add up to the number of records received. */
  lemma LoadedCountsAddUp(data: seq<FoodResponse>, now: int)
    ensures var items := MapResponses(data, now);
      FilterCount(items, AVAILABLE) + FilterCount(items, RESERVED)
      + FilterCount(items, EXPIRED) + FilterCount(items, DELIVERED) == |data|
  {
    var items := MapResponses(data, now);
    forall x | x in items
      ensures IsUiStatus(x.status)
    {
      var i :| 0 <= i < |items| && items[i] == x;
    }
    StatusCountsSumToAll(items);
  }

  // ------------------------------------------------------------------- cards

  /** A button of a card. */
  datatype Action = Reserve(foodId: int) | ContactRestaurant(phone: string) | Disabled(caption: string)

  /** What a card shows of its item's status: style class, label, buttons. */
  datatype Card = Card(statusClass: string, statusText: string, actions: seq<Action>)

  const RESERVED_LABEL := "محجوز"
  const RESERVED_PREFIX := "محجوز - "
  const UNDEFINED := "undefined"

  /** The reserved label as the page builds it: the prefix followed by the
      item's `reservedBy` as a template literal prints it, which is the text
      "undefined" when the item has none. */
  function ReservedLabelAsWritten(reservedBy: Option<string>): (r: string)
    ensures |r| >= |RESERVED_PREFIX| && r[..|RESERVED_PREFIX|] == RESERVED_PREFIX
    ensures reservedBy.Some? ==> r[|RESERVED_PREFIX|..] == reservedBy.value
    ensures Contains(r, UNDEFINED) <==> reservedBy.None? || Contains(reservedBy.value, UNDEFINED)
  {
    var v := match reservedBy case None => UNDEFINED case Some(s) => s;
    ContainsAfterPrefix(RESERVED_PREFIX, v, UNDEFINED);
    ContainsInSuffix(RESERVED_PREFIX, v, UNDEFINED);
    assert Contains(UNDEFINED, UNDEFINED) by { assert OccursAt(UNDEFINED, UNDEFINED, 0); }
    RESERVED_PREFIX + v
  }

  /** Every reserved record the backend sends is drawn as reserved by
      "undefined", because the mapping never sets `reservedBy`. */
  lemma MappedReservedShowsUndefined(fr: FoodResponse, now: int)
    requires BackendStatus(fr) == "RESERVED"
    ensures var item := MapFoodResponse(fr, now);
      item.status == RESERVED && CardFor(item).statusText == RESERVED_PREFIX + UNDEFINED
      && Contains(CardFor(item).statusText, UNDEFINED)
  {
    var text := RESERVED_PREFIX + UNDEFINED;
    assert OccursAt(text, UNDEFINED, |RESERVED_PREFIX|) by {
      assert text[|RESERVED_PREFIX|..|RESERVED_PREFIX| + |UNDEFINED|] == UNDEFINED;
    }
  }

  /** The reserved label with the name of the reserving charity when the item
      has one, and the bare "reserved" word otherwise. */
  function ReservedLabel(reservedBy: Option<string>): (r: string)
    ensures Truthy(reservedBy) ==> r == RESERVED_PREFIX + reservedBy.value
    ensures !Truthy(reservedBy) ==> r == RESERVED_LABEL
    ensures Contains(r, UNDEFINED) ==> Truthy(reservedBy) && Contains(reservedBy.value, UNDEFINED)
  {
    if Truthy(reservedBy) then
      ContainsAfterPrefix(RESERVED_PREFIX, reservedBy.value, UNDEFINED);
      RESERVED_PREFIX + reservedBy.value
    else
      assert forall i: nat :: !OccursAt(RESERVED_LABEL, UNDEFINED, i);
      RESERVED_LABEL
  }

  /** Where a charity name is present, as on every reserved sample item,
      the corrected label is the one the page builds. */
  lemma ReservedLabelAgrees(reservedBy: Option<string>)
    requires Truthy(reservedBy)
    ensures ReservedLabel(reservedBy) == ReservedLabelAsWritten(reservedBy)
  {
  }

  const AVAILABLE_TEXT := "متاح للطلب"
  const EXPIRED_TEXT := "منتهي الصلاحية"
  const DELIVERED_TEXT := "تم التوزيع"
  const RESERVED_CAPTION := "محجوز حالياً"
  const EXPIRED_CAPTION := "غير متاح"
  const DELIVERED_CAPTION := "تم التوصيل"

  /** The card drawn for an item. Available items offer a reservation and a
      call to the restaurant; reserved, expired and delivered items offer one
      disabled button; any other status gets no class, no label and no
      buttons. A reserved card's label is built as the page builds it. */
  function CardFor(item: UiItem): (c: Card)
    ensures c.actions != [] <==> IsUiStatus(item.status)
    ensures item.status == AVAILABLE <==> Reserve(item.id) in c.actions
    ensures item.status == AVAILABLE ==>
      c.statusClass == "status-available" && c.statusText == AVAILABLE_TEXT
      && c.actions == [Reserve(item.id), ContactRestaurant(item.restaurantPhone)]
    ensures item.status == RESERVED ==>
      c.statusClass == "status-reserved" && c.statusText == ReservedLabelAsWritten(item.reservedBy)
      && c.actions == [Disabled(RESERVED_CAPTION)]
    ensures item.status == EXPIRED ==>
      c.statusClass == "status-expired" && c.statusText == EXPIRED_TEXT
      && c.actions == [Disabled(EXPIRED_CAPTION)]
    ensures item.status == DELIVERED ==>
      c.statusClass == "status-delivered" && c.statusText == DELIVERED_TEXT
      && c.actions == [Disabled(DELIVERED_CAPTION)]
    ensures !IsUiStatus(item.status) ==> c.statusText == "" && c.statusClass == ""
  {
    if item.status == AVAILABLE then
      Card("status-available", AVAILABLE_TEXT,
           [Reserve(item.id), ContactRestaurant(item.restaurantPhone)])
    else if item.status == RESERVED then
      Card("status-reserved", ReservedLabelAsWritten(item.reservedBy), [Disabled(RESERVED_CAPTION)])
    else if item.status == EXPIRED then
      Card("status-expired", EXPIRED_TEXT, [Disabled(EXPIRED_CAPTION)])
    else if item.status == DELIVERED then
      Card("status-delivered", DELIVERED_TEXT, [Disabled(DELIVERED_CAPTION)])
    else
      Card("", "", [])
  }

  /** A reserved card drawn from a record that names its charity shows the
      corrected label; one drawn from a backend record never does. */
  lemma ReservedCardLabels(item: UiItem, fr: FoodResponse, now: int)
    requires item.status == RESERVED && Truthy(item.reservedBy)
    requires BackendStatus(fr) == "RESERVED"
    ensures CardFor(item).statusText == ReservedLabel(item.reservedBy)
    ensures CardFor(MapFoodResponse(fr, now)).statusText != ReservedLabel(MapFoodResponse(fr, now).reservedBy)
  {
    ReservedLabelAgrees(item.reservedBy);
    MappedReservedShowsUndefined(fr, now);
    var t := MapFoodResponse(fr, now);
    assert |ReservedLabel(t.reservedBy)| == |RESERVED_LABEL|;
  }

  /** The cards for a list of items, one per item, in order. */
  function CardsOf(items: seq<UiItem>): (r: seq<Card>)
    ensures |r| == |items|
    ensures forall i :: 0 <= i < |items| ==> r[i] == CardFor(items[i])
  {
    if items == [] then [] else [CardFor(items[0])] + CardsOf(items[1..])
  }

  const TEL_SCHEME := "tel:"

  /** The "call the restaurant" button: once the user confirms, the page
      navigates to the phone number's tel: link; otherwise nothing happens. */
  function ContactRestaurantTarget(phone: string, confirmed: bool): (r: Option<string>)
    ensures r.Some? <==> confirmed
    ensures r.Some? ==> |r.value| == |TEL_SCHEME| + |phone|
    ensures r.Some? ==> r.value[..|TEL_SCHEME|] == TEL_SCHEME && r.value[|TEL_SCHEME|..] == phone
  {
    if confirmed then Some(TEL_SCHEME + phone) else None
  }

  // ------------------------------------------------------------------ loading

  /** The backend endpoint a load asks. */
  datatype Endpoint = AvailableFoods | SearchFoods(keyword: string)

  /** What the backend answered: a failed request, or a body whose `data`
      list may be missing. */
  datatype FetchOutcome = FetchFailed | Fetched(data: Option<seq<FoodResponse>>)

  /** A keyword selects the search endpoint; no keyword, or an empty one,
      selects the available-food endpoint. */
  function EndpointFor(keyword: Option<string>): (e: Endpoint)
    ensures e.SearchFoods? <==> Truthy(keyword)
    ensures e.SearchFoods? ==> e.keyword == keyword.value
  {
    if Truthy(keyword) then SearchFoods(keyword.value) else AvailableFoods
  }

  /** The records of a successful answer; a missing list reads as empty. */
  function ResponseData(o: FetchOutcome): (r: seq<FoodResponse>)
    requires o.Fetched?
    ensures o.data.None? ==> r == []
    ensures o.data.Some? ==> r == o.data.value
  {
    match o.data
    case None => []
    case Some(d) => d
  }

  // ---------------------------------------------------------------- reserving

  /** The stored login: token, user id and role names. */
  datatype Auth = Auth(token: Option<string>, userId: Option<string>, roles: seq<string>)

  /** The outcome of the checks made before a reservation: login required,
      charities only, or go on with the charity lookup for the user. */
  datatype ReserveStep =
    | LoginRequired
    | CharitiesOnly
    | LookupCharity(foodId: int, userId: string)

  predicate IsCharityRole(role: string) {
    Contains(ToUpper(role), "CHARITY")
  }

  /** Some role, upper-cased, contains CHARITY. */
  function HasCharityRole(roles: seq<string>): (b: bool)
    ensures b <==> exists i :: 0 <= i < |roles| && IsCharityRole(roles[i])
  {
    if roles == [] then false
    else if IsCharityRole(roles[0]) then true
    else
      assert forall i :: 1 <= i < |roles| ==> roles[i] == roles[1..][i - 1];
      HasCharityRole(roles[1..])
  }

  /** The checks made before the reservation request: a token and a user id
      are required, then a charity role. */
  function ReserveGuard(foodId: int, auth: Auth): (r: ReserveStep)
    ensures r == LoginRequired <==> !Truthy(auth.token) || !Truthy(auth.userId)
    ensures r == CharitiesOnly <==>
      Truthy(auth.token) && Truthy(auth.userId) && !HasCharityRole(auth.roles)
    ensures r.LookupCharity? <==>
      Truthy(auth.token) && Truthy(auth.userId) && HasCharityRole(auth.roles)
    ensures r.LookupCharity? ==> r.foodId == foodId && r.userId == auth.userId.value
  {
    if !Truthy(auth.token) || !Truthy(auth.userId) then LoginRequired
    else if !HasCharityRole(auth.roles) then CharitiesOnly
    else LookupCharity(foodId, auth.userId.value)
  }

  /** The first item with the given id. */
  function FindItem(items: seq<UiItem>, id: int): (r: Option<nat>)
    ensures r.None? <==> forall i :: 0 <= i < |items| ==> items[i].id != id
    ensures r.Some? ==> r.value < |items| && items[r.value].id == id
    ensures r.Some? ==> forall j :: 0 <= j < r.value ==> items[j].id != id
  {
    if items == [] then None
    else if items[0].id == id then Some(0)
    else
      match FindItem(items[1..], id)
      case None =>
        assert forall i :: 1 <= i < |items| ==> items[i] == items[1..][i - 1];
        None
      case Some(k) =>
        assert forall j :: 1 <= j < k + 1 ==> items[j] == items[1..][j - 1];
        Some(k + 1)
  }

  // ------------------------------------------------------- reservation runs

  const LOGIN_PAGE := "login.html"
  const LOGIN_FIRST := "لازم تسجّل دخول أولاً."
  const CHARITIES_ONLY := "ميزة الحجز متاحة للجمعيات فقط."
  const CHARITY_NOT_FOUND := "لم يتم العثور على بيانات الجمعية لهذا المستخدم"
  const RESERVE_FAILED := "فشل الحجز"
  const RESERVE_ERROR := "حدث خطأ أثناء الحجز"

  /** A request sent on behalf of a reservation click. */
  datatype ReserveRequest =
    | CharityLookup(userId: string)
    | ReservePost(foodId: int, charityId: Option<int>)
    | Reload(endpoint: Endpoint)

  /** What the charity lookup answered: a failed response, or a charity
      record whose id may be missing. */
  datatype CharityAnswer = CharityNotFound | CharityFound(id: Option<int>)

  /** What the reservation request answered. */
  datatype ReserveAnswer = ReserveAccepted | ReserveRejected(message: Option<string>)

  /** How the promise of a reservation attempt settles. `Stopped` is used
      only by the corrected attempt, for a refused check. */
  datatype Settled = Fulfilled | Rejected(message: string) | Stopped

  /** One run of the reservation request: the alerts it shows, the page it
      navigates to, the requests it sends, and how its promise settles. */
  datatype ApiRun = ApiRun(alerts: seq<string>, navigateTo: Option<string>,
                           requests: seq<ReserveRequest>, settled: Settled)

  /** The reservation request as written. A refused check shows its alert
      (and, for a missing login, navigates to the login page) and then
      returns normally, so the promise is fulfilled as on success. A
      charity user's request looks the charity up, then posts the
      reservation with the charity's id; a failure of either rejects. */
  function ReserveViaApi(foodId: int, auth: Auth, charity: CharityAnswer, answer: ReserveAnswer): (r: ApiRun)
    ensures r.settled != Stopped
    ensures forall i :: 0 <= i < |r.requests| ==> !r.requests[i].Reload?
    ensures r.navigateTo.Some? <==> ReserveGuard(foodId, auth) == LoginRequired
    ensures r.navigateTo.Some? ==> r.navigateTo.value == LOGIN_PAGE
    ensures ReserveGuard(foodId, auth) == LoginRequired ==> r.alerts == [LOGIN_FIRST] && r.requests == []
    ensures ReserveGuard(foodId, auth) == CharitiesOnly ==> r.alerts == [CHARITIES_ONLY] && r.requests == []
    ensures ReserveGuard(foodId, auth).LookupCharity? ==>
      r.alerts == [] && |r.requests| >= 1 && r.requests[0] == CharityLookup(auth.userId.value)
    ensures (exists i :: 0 <= i < |r.requests| && r.requests[i].ReservePost?) <==>
      ReserveGuard(foodId, auth).LookupCharity? && charity.CharityFound?
    ensures forall i :: 0 <= i < |r.requests| && r.requests[i].ReservePost? ==>
      charity.CharityFound? && r.requests[i] == ReservePost(foodId, charity.id)
    ensures ReserveGuard(foodId, auth).LookupCharity? ==>
      r.requests == [CharityLookup(auth.userId.value)]
        + (if charity.CharityFound? then [ReservePost(foodId, charity.id)] else [])
    ensures r.settled == Fulfilled <==>
      !ReserveGuard(foodId, auth).LookupCharity? || (charity.CharityFound? && answer.ReserveAccepted?)
    ensures r.settled.Rejected? && charity.CharityNotFound? ==> r.settled.message == CHARITY_NOT_FOUND
    ensures r.settled.Rejected? && charity.CharityFound? ==>
      answer.ReserveRejected? && r.settled.message == OrElse(answer.message, RESERVE_FAILED)
  {
    match ReserveGuard(foodId, auth)
    case LoginRequired => ApiRun([LOGIN_FIRST], Some(LOGIN_PAGE), [], Fulfilled)
    case CharitiesOnly => ApiRun([CHARITIES_ONLY], None, [], Fulfilled)
    case LookupCharity(_, userId) =>
      match charity
      case CharityNotFound => ApiRun([], None, [CharityLookup(userId)], Rejected(CHARITY_NOT_FOUND))
      case CharityFound(id) =>
        var sent := [CharityLookup(userId), ReservePost(foodId, id)];
        assert sent[1].ReservePost?;
        match answer
        case ReserveAccepted => ApiRun([], None, sent, Fulfilled)
        case ReserveRejected(message) => ApiRun([], None, sent, Rejected(OrElse(message, RESERVE_FAILED)))
  }

  /** The alert announcing a sent reservation of the item called `name`. */
  function SentAlert(name: string): string {
    "تم إرسال طلب حجز \"" + name + "\" بنجاح!"
  }

  /** What the click handler does once the attempt settles: its alert, if
      any, and whether it reloads the list. */
  datatype Continuation = Continuation(alert: Option<string>, reload: bool)

  /** A fulfilled attempt announces the reservation and reloads; a rejected
      one alerts its message (or a generic one) and does not reload; a
      stopped one does neither. */
  function AfterReserve(settled: Settled, name: string): (k: Continuation)
    ensures k.reload <==> settled == Fulfilled
    ensures settled == Fulfilled ==> k.alert == Some(SentAlert(name))
    ensures settled.Rejected? ==>
      k.alert == Some(if settled.message != "" then settled.message else RESERVE_ERROR)
    ensures k.alert.None? <==> settled == Stopped
  {
    match settled
    case Fulfilled => Continuation(Some(SentAlert(name)), true)
    case Rejected(message) => Continuation(Some(if message != "" then message else RESERVE_ERROR), false)
    case Stopped => Continuation(None, false)
  }

  /** As written, a refused reservation (no login, or no charity role)
      sends no reservation, yet is announced as sent and reloads the list. */
  lemma RefusalReportsSuccess(foodId: int, auth: Auth, charity: CharityAnswer, answer: ReserveAnswer, name: string)
    requires !ReserveGuard(foodId, auth).LookupCharity?
    ensures var run := ReserveViaApi(foodId, auth, charity, answer);
      (forall i :: 0 <= i < |run.requests| ==> !run.requests[i].ReservePost?)
      && AfterReserve(run.settled, name) == Continuation(Some(SentAlert(name)), true)
  {
  }

  /** The reservation request with refusals stopping the click handler: the
      same alerts, navigation and requests, but only an accepted
      reservation is fulfilled. */
  function ReserveViaApiCorrected(foodId: int, auth: Auth, charity: CharityAnswer, answer: ReserveAnswer): (r: ApiRun)
    ensures var written := ReserveViaApi(foodId, auth, charity, answer);
      r.alerts == written.alerts && r.navigateTo == written.navigateTo && r.requests == written.requests
    ensures r.settled == Fulfilled <==>
      (exists i :: 0 <= i < |r.requests| && r.requests[i].ReservePost?) && answer.ReserveAccepted?
    ensures r.settled == Stopped <==> !ReserveGuard(foodId, auth).LookupCharity?
    ensures r.settled.Rejected? ==> r.settled == ReserveViaApi(foodId, auth, charity, answer).settled
  {
    var run := ReserveViaApi(foodId, auth, charity, answer);
    if ReserveGuard(foodId, auth).LookupCharity? then run else run.(settled := Stopped)
  }

  /** With the correction, the list is reloaded and the reservation
      announced exactly when a reservation was posted and accepted. */
  lemma CorrectedAnnouncesOnlyAccepted(foodId: int, auth: Auth, charity: CharityAnswer, answer: ReserveAnswer, name: string)
    ensures var run := ReserveViaApiCorrected(foodId, auth, charity, answer);
      AfterReserve(run.settled, name).reload <==>
        (exists i :: 0 <= i < |run.requests| && run.requests[i].ReservePost?) && answer.ReserveAccepted?
  {
  }

  /** The name of the first item with the given id, the one the handler
      finds and names in its alerts. */
  function ItemName(items: seq<UiItem>, id: int): (r: Option<string>)
    ensures r.None? <==> forall i :: 0 <= i < |items| ==> items[i].id != id
    ensures r.Some? ==> exists i :: 0 <= i < |items| && items[i].id == id && items[i].name == r.value
    ensures r.Some? ==> FindItem(items, id).Some? && r.value == items[FindItem(items, id).value].name
  {
    match FindItem(items, id)
    case None => None
    case Some(i) => Some(items[i].name)
  }

  /** How a click on "reserve" ends: ignored, or an attempt with the alerts
      shown, the navigation made and the requests sent. */
  datatype ReserveClick =
    | Ignored
    | Attempted(alerts: seq<string>, navigateTo: Option<string>, requests: seq<ReserveRequest>)

  /** A confirmed click on the item called `name`: the attempt's own alerts,
      navigation and requests, then the handler's closing alert, then a
      reload of the available food exactly when the attempt is fulfilled,
      which a refused check is. */
  function ClickAttempt(foodId: int, auth: Auth, charity: CharityAnswer, answer: ReserveAnswer,
                        name: string): (r: ReserveClick)
    ensures r.Attempted?
    ensures var run := ReserveViaApi(foodId, auth, charity, answer);
      r.navigateTo == run.navigateTo
      && |r.alerts| == |run.alerts| + 1 && r.alerts[..|run.alerts|] == run.alerts
      && |r.requests| >= |run.requests| && r.requests[..|run.requests|] == run.requests
    ensures var run := ReserveViaApi(foodId, auth, charity, answer);
      (run.settled == Fulfilled ==> r.alerts[|r.alerts| - 1] == SentAlert(name))
      && (run.settled.Rejected? ==>
            r.alerts[|r.alerts| - 1] == OrElse(Some(run.settled.message), RESERVE_ERROR))
    ensures Reload(AvailableFoods) in r.requests <==>
      ReserveViaApi(foodId, auth, charity, answer).settled == Fulfilled
    ensures var run := ReserveViaApi(foodId, auth, charity, answer);
      r.requests == run.requests + (if run.settled == Fulfilled then [Reload(AvailableFoods)] else [])
    ensures !ReserveGuard(foodId, auth).LookupCharity? ==>
      r.alerts[|r.alerts| - 1] == SentAlert(name) && r.requests == [Reload(AvailableFoods)]
  {
    var run := ReserveViaApi(foodId, auth, charity, answer);
    var k := AfterReserve(run.settled, name);
    var reloads: seq<ReserveRequest> := if k.reload then [Reload(AvailableFoods)] else [];
    assert (run.requests + reloads)[..|run.requests|] == run.requests;
    assert k.reload ==> (run.requests + reloads)[|run.requests|] == Reload(AvailableFoods);
    assert (run.alerts + [k.alert.value])[..|run.alerts|] == run.alerts;
    Attempted(run.alerts + [k.alert.value], run.navigateTo, run.requests + reloads)
  }

  // ---------------------------------------------------------------- the page

  /** The listing page: the card records it holds, the cards on screen,
      whether the empty-state placeholder is shown, and the badge counts. */
  class FoodListing {
    var foodItems: seq<UiItem>
    var cards: seq<Card>
    var emptyStateShown: bool
    var counts: map<string, nat>

    /** The page starts with the sample items and nothing drawn. */
    constructor ()
      ensures foodItems == FallbackItems()
      ensures cards == [] && !emptyStateShown && counts == map[]
    {
      foodItems := FallbackItems();
      cards := [];
      emptyStateShown := false;
      counts := map[];
    }

    /** Draws the cards of the items the filter selects; with none, clears
        the list and shows the empty-state placeholder. */
    method RenderFoodCards(filter: string)
      modifies this
      ensures foodItems == old(foodItems) && counts == old(counts)
      ensures cards == CardsOf(Filtered(foodItems, filter))
      ensures emptyStateShown <==> Filtered(foodItems, filter) == []
    {
      var filtered := Filtered(foodItems, filter);
      if |filtered| == 0 {
        cards := [];
        emptyStateShown := true;
        return;
      }
      emptyStateShown := false;
      var drawn: seq<Card> := [];
      var i := 0;
      while i < |filtered|
        invariant 0 <= i <= |filtered|
        invariant |drawn| == i
        invariant forall k :: 0 <= k < i ==> drawn[k] == CardFor(filtered[k])
      {
        drawn := drawn + [CardFor(filtered[i])];
        i := i + 1;
      }
      cards := drawn;
    }

    /** Writes each present badge's count; badges missing from the page are
        skipped and no other count changes. */
    method UpdateFilterCounts(badges: set<string>)
      modifies this
      ensures foodItems == old(foodItems) && cards == old(cards)
      ensures emptyStateShown == old(emptyStateShown)
      ensures counts == old(counts) + BadgeCounts(foodItems, badges)
    {
      var i := 0;
      while i < |FILTERS|
        invariant 0 <= i <= |FILTERS|
        invariant foodItems == old(foodItems) && cards == old(cards)
        invariant emptyStateShown == old(emptyStateShown)
        invariant counts == old(counts) + CountsFor(foodItems, badges, FILTERS[..i])
      {
        var f := FILTERS[i];
        assert FILTERS[..i + 1] == FILTERS[..i] + [f];
        CountsForStep(foodItems, badges, FILTERS[..i], f);
        if f in badges {
          MergeUpdate(old(counts), CountsFor(foodItems, badges, FILTERS[..i]), f, FilterCount(foodItems, f));
          counts := counts[f := FilterCount(foodItems, f)];
        }
        i := i + 1;
      }
      assert FILTERS[..i] == FILTERS;
    }

    /** Reloads the list from the backend. The keyword picks the endpoint;
        `outcome` is what that endpoint answered. A successful answer
        replaces the list by its mapped records, same length and order; a
        failure keeps the current list. Either way the badges and the cards
        of the active filter ("all" when none is active) are redrawn. */
    method LoadFoods(keyword: Option<string>, outcome: FetchOutcome, now: int,
                     activeFilter: Option<string>, badges: set<string>)
      returns (request: Endpoint)
      modifies this
      ensures request == EndpointFor(keyword)
      ensures outcome.Fetched? ==> foodItems == MapResponses(ResponseData(outcome), now)
      ensures outcome.FetchFailed? ==> foodItems == old(foodItems)
      ensures counts == old(counts) + BadgeCounts(foodItems, badges)
      ensures cards == CardsOf(Filtered(foodItems, OrElse(activeFilter, ALL)))
      ensures emptyStateShown <==> Filtered(foodItems, OrElse(activeFilter, ALL)) == []
    {
      request := EndpointFor(keyword);
      if outcome.Fetched? {
        foodItems := MapResponses(ResponseData(outcome), now);
      }
      UpdateFilterCounts(badges);
      RenderFoodCards(OrElse(activeFilter, ALL));
    }

    /** A click on "reserve" for `foodId`. An id not on the page, or a
        declined confirmation, does nothing. Otherwise the reservation is
        attempted, and the handler alerts how it settled; a fulfilled
        attempt, which includes a refused check, reloads the list from the
        available-food endpoint, `reload` being that request's answer. */
    method ReserveFood(foodId: int, confirmed: bool, auth: Auth, charity: CharityAnswer,
                       answer: ReserveAnswer, reload: FetchOutcome, now: int,
                       activeFilter: Option<string>, badges: set<string>)
      returns (r: ReserveClick)
      modifies this
      ensures r == Ignored <==> ItemName(old(foodItems), foodId).None? || !confirmed
      ensures r.Attempted? ==>
        r == ClickAttempt(foodId, auth, charity, answer, ItemName(old(foodItems), foodId).value)
      ensures r.Attempted? && Reload(AvailableFoods) in r.requests ==>
        (reload.Fetched? ==> foodItems == MapResponses(ResponseData(reload), now))
        && (reload.FetchFailed? ==> foodItems == old(foodItems))
        && counts == old(counts) + BadgeCounts(foodItems, badges)
        && cards == CardsOf(Filtered(foodItems, OrElse(activeFilter, ALL)))
        && (emptyStateShown <==> Filtered(foodItems, OrElse(activeFilter, ALL)) == [])
      ensures r == Ignored || Reload(AvailableFoods) !in r.requests ==>
        foodItems == old(foodItems) && cards == old(cards)
        && emptyStateShown == old(emptyStateShown) && counts == old(counts)
    {
      var found := ItemName(foodItems, foodId);
      if found.None? || !confirmed {
        return Ignored;
      }
      r := ClickAttempt(foodId, auth, charity, answer, found.value);
      if ReserveViaApi(foodId, auth, charity, answer).settled == Fulfilled {
        var endpoint := LoadFoods(None, reload, now, activeFilter, badges);
      }
    }
  }
}
