/**
 * The donor dashboard: the donor's donations with their statistics, the new-donation form and
 * its validation, creation and deletion of donations, and the notification and message lists.
 * Every change replaces the whole list in memory and writes the whole list to the store.
 */
module DonorDashboard {
  import opened Wrappers
  import opened Text
  import opened Records
  import opened Forms
  import opened Storage
  import opened DefaultData
  import opened Inbox

  /** The statistics as `calculateStats` computes them, before `toFixed(1)` formats them. */
  datatype Stats = Stats(totalDonations: nat, totalWeight: Option<real>, peopleHelped: Option<int>, co2Saved: Option<real>)

  /** The statistics before anything has been loaded. */
  const InitialStats := Stats(0, Some(0.0), Some(0), Some(0.0))

  /**
   * The total weight in kilograms, each donation converted by its unit; `None` (NaN) as soon as
   * one quantity does not parse, and 0 for no donations.
   */
  function TotalWeight(ds: seq<Donation>): (w: Option<real>)
    ensures ds == [] ==> w == Some(0.0)
  {
    SumWeights(ds, DonationWeight)
  }

  /** The total is a number exactly when every donation's weight is, and non-negative when all are. */
  lemma TotalWeightDefined(ds: seq<Donation>)
    ensures TotalWeight(ds).Some? <==> forall i :: 0 <= i < |ds| ==> DonationWeight(ds[i]).Some?
    ensures (forall i :: 0 <= i < |ds| ==> DonationWeight(ds[i]).Some? && DonationWeight(ds[i]).value >= 0.0)
            ==> TotalWeight(ds).Some? && TotalWeight(ds).value >= 0.0
  {
    SumWeightsDefined(ds, DonationWeight);
  }

  /**
   * `calculateStats`: the number of donations, the total weight, the people helped (four per
   * kilogram, rounded down) and the CO2 saved (2.5 kg per kilogram).
   */
  function StatsOf(ds: seq<Donation>): (s: Stats)
    ensures s.totalDonations == |ds|
    ensures s.totalWeight == TotalWeight(ds)
    ensures s.totalWeight.Some? <==> forall i :: 0 <= i < |ds| ==> DonationWeight(ds[i]).Some?
    ensures s.peopleHelped.Some? <==> s.totalWeight.Some?
    ensures s.co2Saved.Some? <==> s.totalWeight.Some?
    ensures s.totalWeight.Some? ==>
      var w, p := s.totalWeight.value, s.peopleHelped.value;
      p as real <= 4.0 * w < p as real + 1.0 && s.co2Saved.value * 2.0 == 5.0 * w
  {
    TotalWeightDefined(ds);
    var w := TotalWeight(ds);
    Stats(|ds|,
          w,
          if w.Some? then Some((w.value * 4.0).Floor) else None,
          if w.Some? then Some(w.value * 2.5) else None)
  }

  /** An empty list gives all-zero statistics. */
  lemma StatsOfNothing()
    ensures StatsOf([]) == InitialStats
  {
  }

  /** A new donation adds its own weight to the total. */
  lemma TotalWeightAfterCreate(d: Donation, ds: seq<Donation>)
    ensures TotalWeight([d] + ds) == AddWeights(DonationWeight(d), TotalWeight(ds))
  {
    SumWeightsAppend([d], ds, DonationWeight);
    assert [d][..0] == [];
  }

  /**
   * Every unit other than kilograms is read as thousandths, so grams and pounds alike: `n` in
   * such a unit followed by `m` kg weigh `n / 1000 + m` kg.
   */
  lemma MixedUnits(a: Donation, b: Donation, n: nat, m: nat)
    requires a.quantity == NatToString(n) && a.unit != "kg"
    requires b.quantity == NatToString(m) && b.unit == "kg"
    ensures TotalWeight([a, b]) == Some((n as real) / 1000.0 + m as real)
  {
    FractionalUnit(a, n);
    WholeKilograms(b, m);
    SumWeightsPair(a, b, DonationWeight, (n as real) / 1000.0, m as real);
  }

  /** A whole number of kilograms weighs that number. */
  lemma WholeKilograms(b: Donation, m: nat)
    requires b.quantity == NatToString(m) && b.unit == "kg"
    ensures DonationWeight(b) == Some(m as real)
  {
    WeightUnits(m, b.unit);
  }

  /** A whole number in any other unit (grams, but pounds too) weighs a thousandth of that number. */
  lemma FractionalUnit(a: Donation, n: nat)
    requires a.quantity == NatToString(n) && a.unit != "kg"
    ensures DonationWeight(a) == Some((n as real) / 1000.0)
  {
    WeightUnits(n, a.unit);
  }

  /** Records all in kilograms, with whole quantities, weigh the total of those quantities. */
  lemma KilogramTotal(ds: seq<Donation>, ns: seq<nat>)
    requires |ds| == |ns|
    requires forall i :: 0 <= i < |ds| ==> ds[i].unit == "kg" && ds[i].quantity == NatToString(ns[i])
    ensures TotalWeight(ds) == Some(Total(ns) as real)
  {
    forall i | 0 <= i < |ds|
      ensures DonationWeight(ds[i]) == Some(ns[i] as real)
    {
      WeightUnits(ns[i], "kg");
    }
    SumOfWholeWeights(ds, DonationWeight, ns);
  }

  /** The quantities of the seeded donations, in kilograms. */
  const SeedKilograms: seq<nat> := [15, 8, 25, 30, 12]

  lemma SeedQuantities(userId: int, now: int)
    ensures var ds := DefaultDonations(userId, now);
      forall i :: 0 <= i < |ds| ==> ds[i].unit == "kg" && ds[i].quantity == NatToString(SeedKilograms[i])
  {
    var ds := DefaultDonations(userId, now);
    assert ds[0].quantity == NatToString(15) && ds[1].quantity == NatToString(8);
    assert ds[2].quantity == NatToString(25) && ds[3].quantity == NatToString(30);
    assert ds[4].quantity == NatToString(12);
  }

  lemma SeedKilogramsTotal()
    ensures Total(SeedKilograms) == 90
  {
    var ns := SeedKilograms;
    assert ns[..4][..3] == ns[..3] && ns[..3][..2] == ns[..2] && ns[..2][..1] == ns[..1] && ns[..1][..0] == [];
    assert Total(ns[..1]) == 15;
    assert Total(ns[..2]) == 23;
    assert Total(ns[..3]) == 48;
    assert Total(ns[..4]) == 78;
  }

  /**
   * The five seeded donations weigh 90 kg, which gives 360 people helped and 225 kg of CO2,
   * the figures the seeded impact report quotes.
   */
  lemma SeedStats(userId: int, now: int)
    ensures StatsOf(DefaultDonations(userId, now)) == Stats(5, Some(90.0), Some(360), Some(225.0))
  {
    SeedTotalWeight(userId, now);
    assert (90.0 * 4.0).Floor == 360;
  }

  lemma SeedTotalWeight(userId: int, now: int)
    ensures TotalWeight(DefaultDonations(userId, now)) == Some(90.0)
  {
    SeedQuantities(userId, now);
    KilogramTotal(DefaultDonations(userId, now), SeedKilograms);
    SeedKilogramsTotal();
  }

  /** The lines of the seeded impact report that quote the donor's statistics. */
  function ReportLines(donations: nat, weight: nat, people: nat, co2: nat): string {
    "- Total Donations: " + NatToString(donations) + "\n- Total Weight: " + NatToString(weight)
    + " kg\n- People Helped: " + NatToString(people) + "\n- CO\U{2082} Saved: " + NatToString(co2) + " kg"
  }

  lemma SeedReportLines()
    ensures ReportLines(5, 90, 360, 225) == ImpactReportTotals
  {
    assert NatToString(5) == "5" && NatToString(90) == "90";
    assert NatToString(360) == "360" && NatToString(225) == "225";
  }

  lemma SeedReportQuotesTotals(now: int)
    ensures Contains(DefaultDonorMessages(now)[1].body, ImpactReportTotals)
  {
    var a, b, c := ImpactReportOpening, ImpactReportTotals, ImpactReportClosing;
    assert DefaultDonorMessages(now)[1].body == a + b + c;
    assert OccursAt(a + b + c, b, |a|);
  }

  /** The seeded impact report quotes exactly the statistics of the seeded donations. */
  lemma SeedReportQuotesSeedStats(userId: int, now: int)
    ensures var s := StatsOf(DefaultDonations(userId, now));
            s.totalWeight == Some(90 as real) && s.co2Saved == Some(225 as real)
            && Contains(DefaultDonorMessages(now)[1].body, ReportLines(s.totalDonations, 90, s.peopleHelped.value, 225))
  {
    SeedStats(userId, now);
    SeedReportLines();
    SeedReportQuotesTotals(now);
  }

  /** The donation form; the expiry date is the date input's value. */
  datatype Form = Form(foodType: string, quantity: string, unit: string, expiryDate: DateInput,
                       location: string, description: string)

  /** The form as it starts and as a successful submit leaves it. */
  const EmptyForm := Form("", "", "kg", NoDate, "", "")

  /** The names of the form's inputs, which are also the keys of its error map. */
  datatype Field = FoodType | Quantity | Unit | ExpiryDate | Location | Description

  /** One change event: the field it comes from and the value it carries. */
  datatype Input =
    | FoodTypeInput(text: string)
    | QuantityInput(text: string)
    | UnitInput(text: string)
    | ExpiryDateInput(date: DateInput)
    | LocationInput(text: string)
    | DescriptionInput(text: string)

  /** The `name` attribute of the input the event comes from. */
  function FieldName(i: Input): Field {
    match i
    case FoodTypeInput(_) => FoodType
    case QuantityInput(_) => Quantity
    case UnitInput(_) => Unit
    case ExpiryDateInput(_) => ExpiryDate
    case LocationInput(_) => Location
    case DescriptionInput(_) => Description
  }

  /** `{...prev, [name]: value}`: the edited field takes the value and the others keep theirs. */
  function ApplyInput(f: Form, i: Input): (g: Form)
    ensures i.FoodTypeInput? ==> g.foodType == i.text
    ensures i.QuantityInput? ==> g.quantity == i.text
    ensures i.UnitInput? ==> g.unit == i.text
    ensures i.ExpiryDateInput? ==> g.expiryDate == i.date
    ensures i.LocationInput? ==> g.location == i.text
    ensures i.DescriptionInput? ==> g.description == i.text
    ensures FieldName(i) != FoodType ==> g.foodType == f.foodType
    ensures FieldName(i) != Quantity ==> g.quantity == f.quantity
    ensures FieldName(i) != Unit ==> g.unit == f.unit
    ensures FieldName(i) != ExpiryDate ==> g.expiryDate == f.expiryDate
    ensures FieldName(i) != Location ==> g.location == f.location
    ensures FieldName(i) != Description ==> g.description == f.description
  {
    match i
    case FoodTypeInput(t) => f.(foodType := t)
    case QuantityInput(t) => f.(quantity := t)
    case UnitInput(t) => f.(unit := t)
    case ExpiryDateInput(d) => f.(expiryDate := d)
    case LocationInput(t) => f.(location := t)
    case DescriptionInput(t) => f.(description := t)
  }

  /** The expiry check: a date is required, and a day before today is refused. */
  predicate ExpiryRefused(date: DateInput, today: int) {
    date.NoDate? || (date.OnDay? && date.day < today)
  }

  /** The message `validateForm` records for one field of the form on the given day, if any. */
  function FieldError(f: Form, today: int, field: Field): Option<string> {
    match field
    case FoodType => if Trim(f.foodType) == "" then Some("Food type is required") else None
    case Quantity => if QuantityRefused(f.quantity) then Some("Please enter a valid quantity") else None
    case ExpiryDate =>
      (match f.expiryDate
       case NoDate => Some("Expiry date is required")
       case OnDay(day) => if day < today then Some("Expiry date cannot be in the past") else None
       case InvalidDate => None)
    case Location => if Trim(f.location) == "" then Some("Location is required") else None
    case _ => None
  }

  /** The fields `validateForm` looks at; the unit and the description are never checked. */
  const CheckedFields := {FoodType, Quantity, ExpiryDate, Location}

  /** The error map `validateForm` builds for the form on the given day: one entry per failing field. */
  function FormErrors(f: Form, today: int): (e: map<Field, string>)
    ensures e.Keys <= CheckedFields
  {
    map field | field in CheckedFields && FieldError(f, today, field).Some? :: FieldError(f, today, field).value
  }

  /** The food type is refused exactly when it is blank. */
  lemma FoodTypeChecked(f: Form, today: int)
    ensures FoodType in FormErrors(f, today) <==> IsBlank(f.foodType)
  {
    TrimEmptyIffBlank(f.foodType);
  }

  /** The quantity is refused exactly when it is empty or parses to a number at or below zero. */
  lemma QuantityChecked(f: Form, today: int)
    ensures Quantity in FormErrors(f, today) <==> QuantityRefused(f.quantity)
  {
  }

  /** The expiry date is refused when missing or before today, with a message for each case. */
  lemma ExpiryDateChecked(f: Form, today: int)
    ensures ExpiryDate in FormErrors(f, today) <==> ExpiryRefused(f.expiryDate, today)
    ensures ExpiryDate in FormErrors(f, today) ==>
      FormErrors(f, today)[ExpiryDate]
        == if f.expiryDate.NoDate? then "Expiry date is required" else "Expiry date cannot be in the past"
  {
  }

  /** The location is refused exactly when it is blank. */
  lemma LocationChecked(f: Form, today: int)
    ensures Location in FormErrors(f, today) <==> IsBlank(f.location)
  {
    TrimEmptyIffBlank(f.location);
  }

  /** The description never affects validation. */
  lemma DescriptionNotChecked(f: Form, today: int, description: string)
    ensures FormErrors(f.(description := description), today) == FormErrors(f, today)
  {
    var g := f.(description := description);
    assert forall field :: FieldError(g, today, field) == FieldError(f, today, field);
  }

  /** A date the date input cannot parse gets through validation (NaN is never before today). */
  lemma InvalidDateAccepted(f: Form, today: int)
    requires f.expiryDate == InvalidDate
    ensures ExpiryDate !in FormErrors(f, today)
  {
  }

  /** The record `handleSubmit` builds from the form at clock reading `now`. */
  function NewDonation(f: Form, now: int, donorName: string): (d: Donation)
    ensures d.status == "available" && d.donorName == donorName && d.id == now && d.createdAt == now
    ensures d.(id := 0, status := "", createdAt := 0, donorName := "")
         == Donation(0, f.foodType, f.quantity, f.unit, f.expiryDate, f.location, f.description, "", 0, "")
  {
    Donation(now, f.foodType, f.quantity, f.unit, f.expiryDate, f.location, f.description, "available", now, donorName)
  }

  /** `getStatusBadge`: an unknown status shows as available. */
  function StatusBadge(status: string): (badge: string)
    ensures status == "claimed" <==> badge == "badge-warning"
    ensures status == "completed" <==> badge == "badge-info"
    ensures status != "claimed" && status != "completed" <==> badge == "badge-success"
  {
    if status == "available" then "badge-success"
    else if status == "claimed" then "badge-warning"
    else if status == "completed" then "badge-info"
    else "badge-success"
  }

  class Dashboard {
    const user: User
    const store: Store
    const inbox: InboxState
    var donations: seq<Donation>
    var stats: Stats
    var formData: Form
    var errors: map<Field, string>
    var showModal: bool

    /** The inbox writes to the same store, under this user's keys. */
    ghost predicate Valid() {
      inbox.store == store && inbox.userId == user.id
    }

    /** The donations as the store holds them equal the ones in memory. */
    ghost predicate DonationsStored()
      reads this, store
    {
      DonationsKey(user.id) in store.items && store.items[DonationsKey(user.id)] == DonationList(donations)
    }

    constructor (user: User, store: Store)
      ensures Valid() && this.user == user && this.store == store && fresh(inbox)
      ensures donations == [] && stats == InitialStats && formData == EmptyForm && errors == map[] && !showModal
      ensures inbox.notifications == [] && inbox.messages == []
    {
      this.user := user;
      this.store := store;
      inbox := new InboxState(store, user.id);
      donations := [];
      stats := InitialStats;
      formData := EmptyForm;
      errors := map[];
      showModal := false;
    }

    /** The mount effect, seeding from the defaults for this user at clock reading `now`. */
    method Mount(now: int)
      requires Valid()
      modifies this, store, inbox
      ensures var d := LoadOrSeed(old(store.Get(DonationsKey(user.id))), AsDonations, DefaultDonations(user.id, now));
              var n := LoadOrSeed(old(store.Get(NotificationsKey(user.id))), AsNotifications, DefaultDonorNotifications(now));
              var m := LoadOrSeed(old(store.Get(MessagesKey(user.id))), AsMessages, DefaultDonorMessages(now));
              && donations == d.ItemsOr(old(donations))
              && stats == (if d.Unreadable? then old(stats) else StatsOf(donations))
              && inbox.notifications == n.ItemsOr(old(inbox.notifications))
              && inbox.messages == m.ItemsOr(old(inbox.messages))
              && store.items == AfterLoad(AfterLoad(AfterLoad(old(store.items),
                                   DonationsKey(user.id), d, EncodeDonations),
                                   NotificationsKey(user.id), n, EncodeNotifications),
                                   MessagesKey(user.id), m, EncodeMessages)
      ensures formData == old(formData) && errors == old(errors) && showModal == old(showModal)
    {
      LoadAll(DefaultDonations(user.id, now), DefaultDonorNotifications(now), DefaultDonorMessages(now));
    }

    /**
     * The mount effect with the given defaults: each of the three keys is loaded or, when
     * absent, seeded and written back; a value that does not parse leaves that list (and, for
     * donations, the statistics) as it was and writes nothing.
     */
    method LoadAll(seedDonations: seq<Donation>, seedNotifications: seq<Notification>, seedMessages: seq<Message>)
      requires Valid()
      modifies this, store, inbox
      ensures var d := LoadOrSeed(old(store.Get(DonationsKey(user.id))), AsDonations, seedDonations);
              var n := LoadOrSeed(old(store.Get(NotificationsKey(user.id))), AsNotifications, seedNotifications);
              var m := LoadOrSeed(old(store.Get(MessagesKey(user.id))), AsMessages, seedMessages);
              && donations == d.ItemsOr(old(donations))
              && stats == (if d.Unreadable? then old(stats) else StatsOf(donations))
              && inbox.notifications == n.ItemsOr(old(inbox.notifications))
              && inbox.messages == m.ItemsOr(old(inbox.messages))
              && store.items == AfterLoad(AfterLoad(AfterLoad(old(store.items),
                                   DonationsKey(user.id), d, EncodeDonations),
                                   NotificationsKey(user.id), n, EncodeNotifications),
                                   MessagesKey(user.id), m, EncodeMessages)
      ensures formData == old(formData) && errors == old(errors) && showModal == old(showModal)
    {
      KeysOfKindsDiffer(user.id, user.id);
      LoadDonations(seedDonations);
      inbox.Load(seedNotifications, seedMessages);
    }

    /** The mount effect's first step: load or seed the donations and compute their statistics. */
    method LoadDonations(seed: seq<Donation>)
      modifies this`donations, this`stats, store
      ensures var d := LoadOrSeed(old(store.Get(DonationsKey(user.id))), AsDonations, seed);
              && donations == d.ItemsOr(old(donations))
              && stats == (if d.Unreadable? then old(stats) else StatsOf(donations))
              && store.items == AfterLoad(old(store.items), DonationsKey(user.id), d, EncodeDonations)
    {
      var key := DonationsKey(user.id);
      var stored := store.Get(key);
      match stored {
        case None =>
          donations := seed;
          stats := StatsOf(seed);
          store.Set(key, DonationList(seed));
        case Some(v) =>
          if v.DonationList? {
            donations := v.donations;
            stats := StatsOf(v.donations);
          }
      }
    }

    /** `handleInputChange`. */
    method HandleInputChange(input: Input)
      modifies this`formData, this`errors
      ensures formData == ApplyInput(old(formData), input)
      ensures errors == ClearFieldError(old(errors), FieldName(input))
    {
      formData := ApplyInput(formData, input);
      if FieldName(input) in errors && errors[FieldName(input)] != "" {
        errors := errors[FieldName(input) := ""];
      }
    }

    /** `validateForm`, on the calendar day of clock reading `now`. */
    method ValidateForm(now: int) returns (ok: bool)
      modifies this`errors
      ensures errors == FormErrors(formData, DayOf(now))
      ensures ok <==> errors == map[]
    {
      var newErrors := FormErrors(formData, DayOf(now));
      errors := newErrors;
      ok := |newErrors| == 0;
    }

    /**
     * `handleSubmit` at clock reading `now`: an invalid form changes nothing but the errors; a
     * valid one puts the new donation first, writes the list through, recomputes the
     * statistics, resets the form and closes the modal.
     */
    method HandleSubmit(now: int) returns (submitted: bool)
      modifies this, store
      ensures errors == FormErrors(old(formData), DayOf(now))
      ensures submitted <==> errors == map[]
      ensures !submitted ==>
        && donations == old(donations) && stats == old(stats) && store.items == old(store.items)
        && formData == old(formData) && showModal == old(showModal)
      ensures submitted ==>
        && donations == [NewDonation(old(formData), now, user.name)] + old(donations)
        && store.items == old(store.items)[DonationsKey(user.id) := DonationList(donations)]
        && DonationsStored()
        && stats == StatsOf(donations)
        && formData == EmptyForm && !showModal
    {
      submitted := ValidateForm(now);
      if !submitted {
        return;
      }
      var newDonation := NewDonation(formData, now, user.name);
      var updated := [newDonation] + donations;
      donations := updated;
      store.Set(DonationsKey(user.id), DonationList(updated));
      stats := StatsOf(updated);
      formData := EmptyForm;
      showModal := false;
    }

    /** `deleteDonation(id)`, where `confirmed` is the answer to the confirmation prompt. */
    method DeleteDonation(id: int, confirmed: bool)
      modifies this, store
      ensures confirmed ==>
        && donations == RemoveDonation(old(donations), id)
        && store.items == old(store.items)[DonationsKey(user.id) := DonationList(donations)]
        && DonationsStored()
        && stats == StatsOf(donations)
      ensures !confirmed ==> donations == old(donations) && store.items == old(store.items) && stats == old(stats)
      ensures formData == old(formData) && errors == old(errors) && showModal == old(showModal)
    {
      if confirmed {
        var updated := RemoveDonation(donations, id);
        donations := updated;
        store.Set(DonationsKey(user.id), DonationList(updated));
        stats := StatsOf(updated);
      }
    }
  }
}
