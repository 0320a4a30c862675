/**
 * The seeker dashboard: the seeker's food requests with their statistics, the request form and
 * its validation, status updates and deletion of requests, and the notification and message
 * lists. The list of available donations is fixed demonstration data and is not modelled.
 */
module SeekerDashboard {
  import opened Wrappers
  import opened Text
  import opened Lists
  import opened Records
  import opened Forms
  import opened Storage
  import opened DefaultData
  import opened Inbox

  /** The statistics as `calculateStats` computes them, before `toFixed(1)` formats them. */
  datatype Stats = Stats(totalRequests: nat, totalReceived: Option<real>, peopleServed: Option<int>, activeRequests: nat)

  /** The statistics before anything has been loaded. */
  const InitialStats := Stats(0, Some(0.0), Some(0), 0)

  predicate IsCompleted(r: Request) {
    r.status == "completed"
  }

  /** A request still being handled: pending or approved. */
  predicate IsActive(r: Request) {
    r.status == "pending" || r.status == "approved"
  }

  /** The weight received: the completed requests only, in kilograms; `None` (NaN) if one does not parse. */
  function Received(rs: seq<Request>): Option<real> {
    SumWeights(Filter(rs, IsCompleted), RequestWeight)
  }

  /**
   * `calculateStats`: the number of requests, the weight received, the people served (four
   * per kilogram received, rounded down) and the number of active requests.
   */
  function StatsOf(rs: seq<Request>): (s: Stats)
    ensures s.totalRequests == |rs|
    ensures s.activeRequests == Count(rs, IsActive)
    ensures s.totalReceived == Received(rs)
    ensures s.peopleServed.Some? <==> s.totalReceived.Some?
    ensures s.totalReceived.Some? ==>
      var w, p := s.totalReceived.value, s.peopleServed.value;
      p as real <= 4.0 * w < p as real + 1.0
  {
    var w := SumWeights(Filter(rs, IsCompleted), RequestWeight);
    Stats(|rs|, w, if w.Some? then Some((w.value * 4.0).Floor) else None, Count(rs, IsActive))
  }

  /** An empty list gives all-zero statistics. */
  lemma StatsOfNothing()
    ensures StatsOf([]) == InitialStats
  {
  }

  /** The weight received is a number exactly when every completed request's quantity parses. */
  lemma ReceivedDefined(rs: seq<Request>)
    ensures Received(rs).Some? <==> forall r <- rs :: IsCompleted(r) ==> RequestWeight(r).Some?
  {
    FilterMembers(rs, IsCompleted);
    SumWeightsDefined(Filter(rs, IsCompleted), RequestWeight);
  }

  /** Requests that are not completed never change the weight received. */
  lemma {:induction false} ReceivedIgnoresOpen(rs: seq<Request>)
    requires forall r <- rs :: !IsCompleted(r)
    ensures Received(rs) == Some(0.0)
  {
    FilterMembers(rs, IsCompleted);
    assert Filter(rs, IsCompleted) == [] by {
      if Filter(rs, IsCompleted) != [] {
        assert Filter(rs, IsCompleted)[0] in Filter(rs, IsCompleted);
      }
    }
  }

  /** A new (pending) request counts as active and leaves the weight received as it was. */
  lemma StatsAfterCreate(r: Request, rs: seq<Request>)
    requires r.status == "pending"
    ensures StatsOf([r] + rs).activeRequests == StatsOf(rs).activeRequests + 1
    ensures StatsOf([r] + rs).totalReceived == StatsOf(rs).totalReceived
  {
    CountAppend([r], rs, IsActive);
    FilterAppend([r], rs, IsCompleted);
    assert [r][1..] == [];
    assert Filter([r], IsCompleted) == [];
    assert [] + Filter(rs, IsCompleted) == Filter(rs, IsCompleted);
  }

  /** Two weights can be added in either order. */
  lemma AddWeightsSwap(x: Option<real>, y: Option<real>, z: Option<real>)
    ensures AddWeights(AddWeights(x, y), z) == AddWeights(AddWeights(x, z), y)
  {
  }

  /** Setting the status of the one request carrying an id changes that request only. */
  lemma SetStatusOfUnique(a: seq<Request>, r: Request, b: seq<Request>, status: string)
    requires forall x <- a + b :: x.id != r.id
    ensures SetRequestStatus(a + [r] + b, r.id, status) == a + [r.(status := status)] + b
  {
    var f := (x: Request) => x.(status := status);
    UpdateIdAppend(a + [r], b, r.id, RequestId, f);
    UpdateIdAppend(a, [r], r.id, RequestId, f);
    UpdateIdAbsent(a, r.id, RequestId, f);
    UpdateIdAbsent(b, r.id, RequestId, f);
    assert UpdateId([r], r.id, RequestId, f) == [r.(status := status)];
  }

  /** Counting around one element. */
  lemma CountAround(a: seq<Request>, r: Request, b: seq<Request>, p: Request -> bool)
    ensures Count(a + [r] + b, p) == Count(a, p) + (if p(r) then 1 else 0) + Count(b, p)
  {
    CountAppend(a + [r], b, p);
    CountAppend(a, [r], p);
    assert [r][1..] == [];
  }

  /** Selecting around one element. */
  lemma FilterAround(a: seq<Request>, r: Request, b: seq<Request>, p: Request -> bool)
    ensures Filter(a + [r] + b, p) == Filter(a, p) + (if p(r) then [r] else []) + Filter(b, p)
  {
    FilterAppend(a + [r], b, p);
    FilterAppend(a, [r], p);
    assert [r][1..] == [];
  }

  /** Completing a request adds its weight to the weight received. */
  lemma ReceivedAfterCompleting(a: seq<Request>, r: Request, b: seq<Request>)
    requires !IsCompleted(r)
    ensures Received(a + [r.(status := "completed")] + b) == AddWeights(Received(a + [r] + b), RequestWeight(r))
  {
    var done := r.(status := "completed");
    FilterAround(a, r, b, IsCompleted);
    FilterAround(a, done, b, IsCompleted);
    var fa, fb := Filter(a, IsCompleted), Filter(b, IsCompleted);
    assert fa + [] + fb == fa + fb;
    SumWeightsAppend(fa + [done], fb, RequestWeight);
    SumWeightsAppend(fa, [done], RequestWeight);
    SumWeightsAppend(fa, fb, RequestWeight);
    assert [done][..0] == [];
    assert SumWeights([done], RequestWeight) == AddWeights(Some(0.0), RequestWeight(r));
    AddWeightsSwap(SumWeights(fa, RequestWeight), RequestWeight(r), SumWeights(fb, RequestWeight));
  }

  /** Only an approved request offers the "Mark as Received" action. */
  predicate OffersCompletion(r: Request) {
    r.status == "approved"
  }

  /**
   * Marking the approved request `r` completed (its id being carried by no other request) moves
   * it from the active requests to the received weight: one active request fewer, and its own
   * weight added to the weight received.
   */
  lemma CompletingApproved(a: seq<Request>, r: Request, b: seq<Request>)
    requires OffersCompletion(r)
    requires forall x <- a + b :: x.id != r.id
    ensures var before, after := a + [r] + b, SetRequestStatus(a + [r] + b, r.id, "completed");
            && StatsOf(after).activeRequests == StatsOf(before).activeRequests - 1
            && StatsOf(after).totalReceived == AddWeights(StatsOf(before).totalReceived, RequestWeight(r))
            && StatsOf(after).totalRequests == StatsOf(before).totalRequests
  {
    var done := r.(status := "completed");
    SetStatusOfUnique(a, r, b, "completed");
    CountAround(a, r, b, IsActive);
    CountAround(a, done, b, IsActive);
    ReceivedAfterCompleting(a, r, b);
  }

  /** The quantities of the seeded completed requests, in kilograms. */
  const SeedKilograms: seq<nat> := [20, 15, 30]

  lemma SeedQuantities(userId: int, now: int)
    ensures var rs := DefaultReceivedFood(userId, now);
      forall i :: 0 <= i < 3 ==> rs[i].unit == "kg" && rs[i].quantity == NatToString(SeedKilograms[i])
  {
    var rs := DefaultReceivedFood(userId, now);
    assert rs[0].quantity == NatToString(20) && rs[1].quantity == NatToString(15);
    assert rs[2].quantity == NatToString(30);
  }

  lemma SeedKilogramsTotal()
    ensures Total(SeedKilograms) == 65
  {
    var ns := SeedKilograms;
    assert ns[..2][..1] == ns[..1] && ns[..1][..0] == [];
    assert Total(ns[..1]) == 20;
    assert Total(ns[..2]) == 35;
  }

  /** Requests all in kilograms, with whole quantities, weigh the total of those quantities. */
  lemma KilogramTotal(rs: seq<Request>, ns: seq<nat>)
    requires |rs| == |ns|
    requires forall i :: 0 <= i < |rs| ==> rs[i].unit == "kg" && rs[i].quantity == NatToString(ns[i])
    ensures SumWeights(rs, RequestWeight) == Some(Total(ns) as real)
  {
    forall i | 0 <= i < |rs|
      ensures RequestWeight(rs[i]) == Some(ns[i] as real)
    {
      WeightUnits(ns[i], "kg");
    }
    SumOfWholeWeights(rs, RequestWeight, ns);
  }

  /** Three completed requests followed by an approved one. */
  lemma ThreeCompletedOneApproved(rs: seq<Request>)
    requires |rs| == 4 && rs[3].status == "approved"
    requires forall i :: 0 <= i < 3 ==> rs[i].status == "completed"
    ensures Filter(rs, IsCompleted) == rs[..3]
    ensures Count(rs, IsActive) == 1
  {
    assert rs == rs[..3] + [rs[3]] + [];
    FilterAround(rs[..3], rs[3], [], IsCompleted);
    CountAround(rs[..3], rs[3], [], IsActive);
    FilterAll(rs[..3], IsCompleted);
  }

  /** Requests shaped like the seeded ones have the seeded statistics. */
  lemma SeedShapedStats(rs: seq<Request>)
    requires |rs| == 4 && rs[3].status == "approved"
    requires forall i :: 0 <= i < 3 ==> rs[i].status == "completed"
    requires forall i :: 0 <= i < 3 ==> rs[i].unit == "kg" && rs[i].quantity == NatToString(SeedKilograms[i])
    ensures StatsOf(rs) == Stats(4, Some(65.0), Some(260), 1)
  {
    ThreeCompletedOneApproved(rs);
    KilogramTotal(rs[..3], SeedKilograms);
    SeedKilogramsTotal();
    assert Received(rs) == Some(65.0);
    assert (65.0 * 4.0).Floor == 260;
  }

  /** The seeded requests: three completed weighing 65 kg, so 260 people served, and one active. */
  lemma SeedStats(userId: int, now: int)
    ensures StatsOf(DefaultReceivedFood(userId, now)) == Stats(4, Some(65.0), Some(260), 1)
  {
    SeedQuantities(userId, now);
    SeedShapedStats(DefaultReceivedFood(userId, now));
  }

  /** The names of the request form's inputs, which are also the keys of its error map. */
  datatype Field = FoodType | Quantity | Unit | Urgency | Location | Purpose

  /** The request form; every field is text. */
  datatype Form = Form(foodType: string, quantity: string, unit: string, urgency: string,
                       location: string, purpose: string)

  /** The form as it starts and as a successful submit leaves it. */
  const EmptyForm := Form("", "", "kg", "medium", "", "")

  /** One change event: the input it comes from and the text it carries. */
  datatype Input = Input(field: Field, value: string)

  /** `{...prev, [name]: value}`. */
  function ApplyInput(f: Form, i: Input): (g: Form)
    ensures Get(g, i.field) == i.value
    ensures forall other :: other != i.field ==> Get(g, other) == Get(f, other)
  {
    match i.field
    case FoodType => f.(foodType := i.value)
    case Quantity => f.(quantity := i.value)
    case Unit => f.(unit := i.value)
    case Urgency => f.(urgency := i.value)
    case Location => f.(location := i.value)
    case Purpose => f.(purpose := i.value)
  }

  /** `formData[name]`. */
  function Get(f: Form, field: Field): string {
    match field
    case FoodType => f.foodType
    case Quantity => f.quantity
    case Unit => f.unit
    case Urgency => f.urgency
    case Location => f.location
    case Purpose => f.purpose
  }

  /** The message `validateForm` records for one field of the form, if any. */
  function FieldError(f: Form, field: Field): Option<string> {
    match field
    case FoodType => if Trim(f.foodType) == "" then Some("Food type is required") else None
    case Quantity => if QuantityRefused(f.quantity) then Some("Please enter a valid quantity") else None
    case Location => if Trim(f.location) == "" then Some("Location is required") else None
    case Purpose => if Trim(f.purpose) == "" then Some("Purpose is required") else None
    case _ => None
  }

  /** The fields `validateForm` looks at; the unit and the urgency are never checked. */
  const CheckedFields := {FoodType, Quantity, Location, Purpose}

  /** The error map `validateForm` builds: one entry per failing field. */
  function FormErrors(f: Form): (e: map<Field, string>)
    ensures e.Keys <= CheckedFields
  {
    map field | field in CheckedFields && FieldError(f, field).Some? :: FieldError(f, field).value
  }

  /** The food type is refused exactly when it is blank. */
  lemma FoodTypeChecked(f: Form)
    ensures FoodType in FormErrors(f) <==> IsBlank(f.foodType)
  {
    TrimEmptyIffBlank(f.foodType);
  }

  /** The location is refused exactly when it is blank. */
  lemma LocationChecked(f: Form)
    ensures Location in FormErrors(f) <==> IsBlank(f.location)
  {
    TrimEmptyIffBlank(f.location);
  }

  /** The purpose is refused exactly when it is blank. */
  lemma PurposeChecked(f: Form)
    ensures Purpose in FormErrors(f) <==> IsBlank(f.purpose)
  {
    TrimEmptyIffBlank(f.purpose);
  }

  /** The quantity is refused exactly when it is empty or parses to a number at or below zero. */
  lemma QuantityChecked(f: Form)
    ensures Quantity in FormErrors(f) <==> QuantityRefused(f.quantity)
  {
  }

  /** Neither the unit nor the urgency affects validation, so any urgency text is accepted. */
  lemma UnitAndUrgencyNotChecked(f: Form, unit: string, urgency: string)
    ensures FormErrors(f.(unit := unit, urgency := urgency)) == FormErrors(f)
  {
    var g := f.(unit := unit, urgency := urgency);
    assert forall field :: FieldError(g, field) == FieldError(f, field);
  }

  /** The record `handleSubmit` builds from the form at clock reading `now`. */
  function NewRequest(f: Form, now: int, seekerName: string): (r: Request)
    ensures r.status == "pending" && r.seekerName == seekerName && r.id == now && r.createdAt == now
    ensures r.(id := 0, status := "", createdAt := 0, seekerName := "")
         == Request(0, f.foodType, f.quantity, f.unit, f.urgency, f.location, f.purpose, "", 0, "")
  {
    Request(now, f.foodType, f.quantity, f.unit, f.urgency, f.location, f.purpose, "pending", now, seekerName)
  }

  /** `getStatusBadge`: an unknown status shows like a pending one. */
  function StatusBadge(status: string): (badge: string)
    ensures status == "approved" <==> badge == "badge-info"
    ensures status == "completed" <==> badge == "badge-success"
    ensures status != "approved" && status != "completed" <==> badge == "badge-warning"
  {
    if status == "pending" then "badge-warning"
    else if status == "approved" then "badge-info"
    else if status == "completed" then "badge-success"
    else "badge-warning"
  }

  /** `getUrgencyBadge`: an unknown urgency shows like a medium one. */
  function UrgencyBadge(urgency: string): (badge: string)
    ensures urgency == "low" <==> badge == "badge-info"
    ensures urgency == "high" <==> badge == "badge-danger"
    ensures urgency != "low" && urgency != "high" <==> badge == "badge-warning"
  {
    if urgency == "low" then "badge-info"
    else if urgency == "medium" then "badge-warning"
    else if urgency == "high" then "badge-danger"
    else "badge-warning"
  }

  class Dashboard {
    const user: User
    const store: Store
    const inbox: InboxState
    var requests: seq<Request>
    var stats: Stats
    var formData: Form
    var errors: map<Field, string>
    var showModal: bool

    /** The inbox writes to the same store, under this user's keys. */
    ghost predicate Valid() {
      inbox.store == store && inbox.userId == user.id
    }

    constructor (user: User, store: Store)
      ensures Valid() && this.user == user && this.store == store && fresh(inbox)
      ensures requests == [] && stats == InitialStats && formData == EmptyForm && errors == map[] && !showModal
      ensures inbox.notifications == [] && inbox.messages == []
    {
      this.user := user;
      this.store := store;
      inbox := new InboxState(store, user.id);
      requests := [];
      stats := InitialStats;
      formData := EmptyForm;
      errors := map[];
      showModal := false;
    }

    /** The mount effect, seeding from the defaults for this user at clock reading `now`. */
    method Mount(now: int)
      requires Valid()
      modifies this, store, inbox
      ensures var d := LoadOrSeed(old(store.Get(RequestsKey(user.id))), AsRequests, DefaultReceivedFood(user.id, now));
              var n := LoadOrSeed(old(store.Get(NotificationsKey(user.id))), AsNotifications, DefaultSeekerNotifications(now));
              var m := LoadOrSeed(old(store.Get(MessagesKey(user.id))), AsMessages, DefaultSeekerMessages(now));
              && requests == d.ItemsOr(old(requests))
              && stats == (if d.Unreadable? then old(stats) else StatsOf(requests))
              && inbox.notifications == n.ItemsOr(old(inbox.notifications))
              && inbox.messages == m.ItemsOr(old(inbox.messages))
              && store.items == AfterLoad(AfterLoad(AfterLoad(old(store.items),
                                   RequestsKey(user.id), d, EncodeRequests),
                                   NotificationsKey(user.id), n, EncodeNotifications),
                                   MessagesKey(user.id), m, EncodeMessages)
      ensures formData == old(formData) && errors == old(errors) && showModal == old(showModal)
    {
      LoadAll(DefaultReceivedFood(user.id, now), DefaultSeekerNotifications(now), DefaultSeekerMessages(now));
    }

    /**
     * The mount effect with the given defaults: each of the three keys is loaded or, when
     * absent, seeded and written back; a value that does not parse leaves that list (and, for
     * requests, the statistics) as it was and writes nothing.
     */
    method LoadAll(seedRequests: seq<Request>, seedNotifications: seq<Notification>, seedMessages: seq<Message>)
      requires Valid()
      modifies this, store, inbox
      ensures var d := LoadOrSeed(old(store.Get(RequestsKey(user.id))), AsRequests, seedRequests);
              var n := LoadOrSeed(old(store.Get(NotificationsKey(user.id))), AsNotifications, seedNotifications);
              var m := LoadOrSeed(old(store.Get(MessagesKey(user.id))), AsMessages, seedMessages);
              && requests == d.ItemsOr(old(requests))
              && stats == (if d.Unreadable? then old(stats) else StatsOf(requests))
              && inbox.notifications == n.ItemsOr(old(inbox.notifications))
              && inbox.messages == m.ItemsOr(old(inbox.messages))
              && store.items == AfterLoad(AfterLoad(AfterLoad(old(store.items),
                                   RequestsKey(user.id), d, EncodeRequests),
                                   NotificationsKey(user.id), n, EncodeNotifications),
                                   MessagesKey(user.id), m, EncodeMessages)
      ensures formData == old(formData) && errors == old(errors) && showModal == old(showModal)
    {
      KeysOfKindsDiffer(user.id, user.id);
      LoadRequests(seedRequests);
      inbox.Load(seedNotifications, seedMessages);
    }

    /** The mount effect's first step: load or seed the requests and compute their statistics. */
    method LoadRequests(seed: seq<Request>)
      modifies this`requests, this`stats, store
      ensures var d := LoadOrSeed(old(store.Get(RequestsKey(user.id))), AsRequests, seed);
              && requests == d.ItemsOr(old(requests))
              && stats == (if d.Unreadable? then old(stats) else StatsOf(requests))
              && store.items == AfterLoad(old(store.items), RequestsKey(user.id), d, EncodeRequests)
    {
      var key := RequestsKey(user.id);
      var stored := store.Get(key);
      match stored {
        case None =>
          requests := seed;
          stats := StatsOf(seed);
          store.Set(key, RequestList(seed));
        case Some(v) =>
          if v.RequestList? {
            requests := v.requests;
            stats := StatsOf(v.requests);
          }
      }
    }

    /** `handleInputChange`. */
    method HandleInputChange(input: Input)
      modifies this`formData, this`errors
      ensures formData == ApplyInput(old(formData), input)
      ensures errors == ClearFieldError(old(errors), input.field)
    {
      formData := ApplyInput(formData, input);
      if input.field in errors && errors[input.field] != "" {
        errors := errors[input.field := ""];
      }
    }

    /** `validateForm`. */
    method ValidateForm() returns (ok: bool)
      modifies this`errors
      ensures errors == FormErrors(formData)
      ensures ok <==> errors == map[]
    {
      var newErrors := FormErrors(formData);
      errors := newErrors;
      ok := |newErrors| == 0;
    }

    /**
     * `handleSubmit` at clock reading `now`: an invalid form changes nothing but the errors; a
     * valid one puts the new pending request first, writes the list through, recomputes the
     * statistics, resets the form and closes the modal.
     */
    method HandleSubmit(now: int) returns (submitted: bool)
      modifies this, store
      ensures errors == FormErrors(old(formData))
      ensures submitted <==> errors == map[]
      ensures !submitted ==>
        && requests == old(requests) && stats == old(stats) && store.items == old(store.items)
        && formData == old(formData) && showModal == old(showModal)
      ensures submitted ==>
        && requests == [NewRequest(old(formData), now, user.name)] + old(requests)
        && store.items == old(store.items)[RequestsKey(user.id) := RequestList(requests)]
        && stats == StatsOf(requests)
        && formData == EmptyForm && !showModal
    {
      submitted := ValidateForm();
      if !submitted {
        return;
      }
      var newRequest := NewRequest(formData, now, user.name);
      var updated := [newRequest] + requests;
      requests := updated;
      store.Set(RequestsKey(user.id), RequestList(updated));
      stats := StatsOf(updated);
      formData := EmptyForm;
      showModal := false;
    }

    /** `updateRequestStatus(id, newStatus)`. */
    method UpdateRequestStatus(id: int, newStatus: string)
      modifies this`requests, this`stats, store
      ensures requests == SetRequestStatus(old(requests), id, newStatus)
      ensures store.items == old(store.items)[RequestsKey(user.id) := RequestList(requests)]
      ensures stats == StatsOf(requests)
    {
      var updated := SetRequestStatus(requests, id, newStatus);
      requests := updated;
      store.Set(RequestsKey(user.id), RequestList(updated));
      stats := StatsOf(updated);
    }

    /** `deleteRequest(id)`, where `confirmed` is the answer to the confirmation prompt. */
    method DeleteRequest(id: int, confirmed: bool)
      modifies this`requests, this`stats, store
      ensures confirmed ==>
        && requests == RemoveRequest(old(requests), id)
        && store.items == old(store.items)[RequestsKey(user.id) := RequestList(requests)]
        && stats == StatsOf(requests)
      ensures !confirmed ==> requests == old(requests) && store.items == old(store.items) && stats == old(stats)
    {
      if confirmed {
        var updated := RemoveRequest(requests, id);
        requests := updated;
        store.Set(RequestsKey(user.id), RequestList(updated));
        stats := StatsOf(updated);
      }
    }
  }
}
