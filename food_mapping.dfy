/** The conversion of a backend food record into the record a listing card
    shows, and the "time left" computation that goes with it. */
module FoodMapping {
  import opened Wrappers
  import opened JsText

  // ------------------------------------------------------------ UI statuses

  const AVAILABLE := "available"
  const RESERVED := "reserved"
  const DELIVERED := "delivered"
  const EXPIRED := "expired"

  /** The four statuses the listing page knows how to show and filter on. */
  predicate IsUiStatus(s: string) {
    s == AVAILABLE || s == RESERVED || s == DELIVERED || s == EXPIRED
  }

  // --------------------------------------------------------- placeholders

  const NO_TITLE := "بدون عنوان"
  const NOT_SPECIFIED := "غير محدد"
  const NO_VALUE := "—"
  const MEALS_SUFFIX := " وجبة"

  // ----------------------------------------------------------- the records

  /** The availability deadline of a food record: the text the backend sent
      and the instant, in milliseconds since the epoch, it denotes. */
  datatype Deadline = Deadline(text: string, millis: int)

  /** A food record as the backend sends it; every field but the id may be
      missing. */
  datatype FoodResponse = FoodResponse(
    id: int,
    title: Option<string>,
    status: Option<string>,
    quantity: Option<int>,
    availableUntil: Option<Deadline>,
    hotelAddress: Option<string>,
    hotelName: Option<string>,
    hotelPhone: Option<string>)

  /** What a card says about the remaining time before the deadline. */
  datatype TimeLeft = Expired | Mins(m: nat) | HoursMins(h: nat, m: nat)

  /** The expiry column of a card: a deadline shown in local time, or text. */
  datatype ExpiryText = Localized(millis: int) | Text(s: string)

  /** The time-left column of a card: computed, or text. */
  datatype TimeLeftText = Computed(t: TimeLeft) | Literal(s: string)

  /** The record one listing card is drawn from. */
  datatype UiItem = UiItem(
    id: int,
    name: string,
    foodType: string,
    quantity: string,
    location: string,
    restaurant: string,
    restaurantPhone: string,
    expiry: ExpiryText,
    expiryDate: string,
    status: string,
    timeLeft: TimeLeftText,
    reservedBy: Option<string>)

  // ------------------------------------------------------- status mapping

  /** The backend status, or "" when missing, upper-cased. */
  function BackendStatus(fr: FoodResponse): string {
    ToUpper(OrElse(fr.status, ""))
  }

  /** Maps an upper-cased backend status to a UI status. It is total: any
      status it does not know, PICKED_UP and the empty status included,
      shows as available. */
  function MapFoodStatus(upper: string): (r: string)
    ensures IsUiStatus(r)
    ensures r == RESERVED <==> upper == "RESERVED"
    ensures r == DELIVERED <==> upper == "COMPLETED"
    ensures r == EXPIRED <==> upper == "EXPIRED" || upper == "CANCELLED"
    ensures r == AVAILABLE <==>
      upper != "RESERVED" && upper != "COMPLETED" && upper != "EXPIRED" && upper != "CANCELLED"
  {
    if upper == "AVAILABLE" then AVAILABLE
    else if upper == "RESERVED" then RESERVED
    else if upper == "COMPLETED" then DELIVERED
    else if upper == "EXPIRED" then EXPIRED
    else if upper == "CANCELLED" then EXPIRED
    else AVAILABLE
  }


  /** A picked-up record stays reservable: PICKED_UP has no case of its own. */
  lemma PickedUpShowsAvailable(fr: FoodResponse)
    requires BackendStatus(fr) == "PICKED_UP"
    ensures MapFoodStatus(BackendStatus(fr)) == AVAILABLE
  {
  }

  // -------------------------------------------------------------- time left

  /** Whole minutes a time-left value stands for (expired counts as none). */
  function TotalMinutes(t: TimeLeft): nat {
    match t
    case Expired => 0
    case Mins(m) => m
    case HoursMins(h, m) => h * 60 + m
  }

  /** The time left from `now` to `until`, both in milliseconds: expired when
      the deadline is not in the future, otherwise the whole minutes left,
      split into hours and minutes when there is at least one hour. */
  function ComputeTimeLeft(until: int, now: int): (r: TimeLeft)
    ensures r.Expired? <==> until <= now
    ensures !r.Expired? ==>
      TotalMinutes(r) * 60000 <= until - now < (TotalMinutes(r) + 1) * 60000
    ensures r.Mins? ==> r.m < 60
    ensures r.HoursMins? ==> r.h >= 1 && r.m < 60
  {
    var diffMs := until - now;
    if diffMs <= 0 then Expired
    else
      var diffMin := diffMs / 60000;
      var hours := diffMin / 60;
      var mins := diffMin % 60;
      if hours <= 0 then Mins(mins) else HoursMins(hours, mins)
  }

  /** As time passes the label never counts up. */
  lemma TimeLeftNeverGrows(until: int, earlier: int, later: int)
    requires earlier <= later
    ensures TotalMinutes(ComputeTimeLeft(until, later)) <= TotalMinutes(ComputeTimeLeft(until, earlier))
  {
    var a := ComputeTimeLeft(until, earlier);
    var b := ComputeTimeLeft(until, later);
    if !b.Expired? {
      assert TotalMinutes(b) * 60000 <= until - later <= until - earlier;
      assert !a.Expired?;
      assert until - earlier < (TotalMinutes(a) + 1) * 60000;
    }
  }

  /** One hour and five minutes before the deadline the card shows "1 hour
      and 5 minutes"; five minutes before, a minutes-only label; after it,
      the expired label. */
  lemma TimeLeftExamples(now: int)
    ensures ComputeTimeLeft(now + 65 * 60000, now) == HoursMins(1, 5)
    ensures ComputeTimeLeft(now + 5 * 60000, now) == Mins(5)
    ensures ComputeTimeLeft(now - 1, now) == Expired
    ensures ComputeTimeLeft(now + 59999, now) == Mins(0)
  {
  }

  // ---------------------------------------------------- record to UI item

  predicate HasDeadline(fr: FoodResponse) {
    fr.availableUntil.Some? && fr.availableUntil.value.text != ""
  }

  function QuantityText(q: Option<int>): string {
    match q
    case None => NOT_SPECIFIED
    case Some(n) => IntToString(n) + MEALS_SUFFIX
  }

  /** Turns a backend food record into a card record at time `now`. Every
      field missing from the record is shown as a placeholder, never as an
      absent value. */
  function MapFoodResponse(fr: FoodResponse, now: int): (r: UiItem)
    ensures r.id == fr.id
    ensures IsUiStatus(r.status) && r.status == MapFoodStatus(BackendStatus(fr))
    ensures r.foodType == (if BackendStatus(fr) != "" then BackendStatus(fr) else NO_VALUE)
    ensures r.name == (if Truthy(fr.title) then fr.title.value else NO_TITLE)
    ensures fr.quantity.None? ==> r.quantity == NOT_SPECIFIED
    ensures fr.quantity.Some? ==> r.quantity == IntToString(fr.quantity.value) + MEALS_SUFFIX
    ensures r.location == (if Truthy(fr.hotelAddress) then fr.hotelAddress.value else NOT_SPECIFIED)
    ensures r.restaurant == (if Truthy(fr.hotelName) then fr.hotelName.value else NO_VALUE)
    ensures r.restaurantPhone == (if Truthy(fr.hotelPhone) then fr.hotelPhone.value else "")
    ensures r.name != [] && r.foodType != [] && r.quantity != [] && r.location != [] && r.restaurant != []
    ensures HasDeadline(fr) ==>
      var until := fr.availableUntil.value;
      r.expiry == Localized(until.millis) && r.expiryDate == until.text
      && r.timeLeft == Computed(ComputeTimeLeft(until.millis, now))
    ensures !HasDeadline(fr) ==>
      r.expiry == Text(NOT_SPECIFIED) && r.expiryDate == "" && r.timeLeft == Literal("")
    ensures r.reservedBy.None?
  {
    var status := BackendStatus(fr);
    UiItem(
      fr.id,
      OrElse(fr.title, NO_TITLE),
      if status != "" then status else NO_VALUE,
      QuantityText(fr.quantity),
      OrElse(fr.hotelAddress, NOT_SPECIFIED),
      OrElse(fr.hotelName, NO_VALUE),
      OrElse(fr.hotelPhone, ""),
      if HasDeadline(fr) then Localized(fr.availableUntil.value.millis) else Text(NOT_SPECIFIED),
      if HasDeadline(fr) then fr.availableUntil.value.text else "",
      MapFoodStatus(status),
      if HasDeadline(fr) then Computed(ComputeTimeLeft(fr.availableUntil.value.millis, now)) else Literal(""),
      None)
  }

  /** A record's card does not depend on the case of its backend status:
      writing the status upper-cased gives the same UI status and type. */
  lemma StatusCaseInsensitive(fr: FoodResponse, s: string, now: int)
    ensures MapFoodResponse(fr.(status := Some(s)), now).status
         == MapFoodResponse(fr.(status := Some(ToUpper(s))), now).status
    ensures MapFoodResponse(fr.(status := Some(s)), now).foodType
         == MapFoodResponse(fr.(status := Some(ToUpper(s))), now).foodType
  {
    ToUpperIdempotent(s);
    assert ToUpper(s) == [] <==> s == [];
  }

  /** Maps every record of a response, keeping its length and order. */
  function MapResponses(data: seq<FoodResponse>, now: int): (r: seq<UiItem>)
    ensures |r| == |data|
    ensures forall i :: 0 <= i < |data| ==> r[i] == MapFoodResponse(data[i], now)
  {
    if data == [] then [] else [MapFoodResponse(data[0], now)] + MapResponses(data[1..], now)
  }
}
