/**
 * The records the dashboards keep, the clock units used to build them, and the operations on
 * lists of records that both dashboards share: weight in kilograms, marking read, changing a
 * request's status and deleting by id.
 */
module Records {
  import opened Wrappers
  import opened Text
  import Lists

  const MsPerMinute := 60000
  const MsPerHour := 3600000
  const MsPerDay := 86400000

  /** The calendar day (counted from the epoch, in UTC) that an instant falls on. */
  function DayOf(ms: int): int {
    ms / MsPerDay
  }

  /** Moving an instant by whole days moves its calendar day by as many days. */
  lemma DayOfShift(ms: int, k: int)
    ensures DayOf(ms + k * MsPerDay) == DayOf(ms) + k
  {
    var q, r := ms / MsPerDay, ms % MsPerDay;
    assert ms + k * MsPerDay == (q + k) * MsPerDay + r;
  }

  /** The two kinds of account the login form offers. */
  datatype Role = Donor | Seeker

  /** The role's name as it appears in routes: `donor` or `seeker`. */
  function RoleName(r: Role): string {
    match r
    case Donor => "donor"
    case Seeker => "seeker"
  }

  /** The logged-in user; `id` is the clock reading taken when logging in. */
  datatype User = User(role: Role, email: string, name: string, id: int)

  /**
   * The value of a date field: empty, a calendar day, or text that is not a date (which
   * JavaScript's `Date` turns into an invalid date).
   */
  datatype DateInput = NoDate | OnDay(day: int) | InvalidDate

  datatype Donation = Donation(
    id: int, foodType: string, quantity: string, unit: string, expiryDate: DateInput,
    location: string, description: string, status: string, createdAt: int, donorName: string)

  datatype Request = Request(
    id: int, foodType: string, quantity: string, unit: string, urgency: string,
    location: string, purpose: string, status: string, createdAt: int, seekerName: string)

  datatype Notification = Notification(
    id: int, kind: string, title: string, message: string, timestamp: int, read: bool)

  datatype Message = Message(
    id: int, sender: string, subject: string, preview: string, body: string, timestamp: int, read: bool)

  /** Sum of two quantities where `None` is NaN: NaN absorbs everything it is added to. */
  function AddWeights(a: Option<real>, b: Option<real>): (r: Option<real>)
    ensures r.Some? <==> a.Some? && b.Some?
  {
    if a.Some? && b.Some? then Some(a.value + b.value) else None
  }

  /**
   * The weight of one record in kilograms, as both dashboards compute it: `kg` is taken as is
   * and every other unit (`g`, but also `lbs`) is divided by 1000.
   */
  function WeightInKg(quantity: string, unit: string): (w: Option<real>)
    ensures w.Some? <==> ParseFloat(quantity).Some?
    ensures unit == "kg" ==> w == ParseFloat(quantity)
    ensures unit != "kg" && w.Some? ==> w.value == ParseFloat(quantity).value / 1000.0
  {
    var q := ParseFloat(quantity);
    if unit == "kg" then q else if q.Some? then Some(q.value / 1000.0) else None
  }

  /**
   * Kilograms are read as they are and every other unit as thousandths, so `n` g and `n` lbs
   * weigh the same.
   */
  lemma WeightUnits(n: nat, unit: string)
    ensures WeightInKg(NatToString(n), unit) == Some(if unit == "kg" then n as real else (n as real) / 1000.0)
  {
    ParseFloatOfNat(n);
  }

  /** `xs.reduce((sum, x) => sum + weight(x), 0)`, summing left to right. */
  function SumWeights<T>(xs: seq<T>, weight: T -> Option<real>): (r: Option<real>)
  {
    if xs == [] then Some(0.0)
    else AddWeights(SumWeights(xs[..|xs| - 1], weight), weight(xs[|xs| - 1]))
  }

  /** The sum is a number exactly when every weight is, and is non-negative when every weight is. */
  lemma {:induction false} SumWeightsDefined<T>(xs: seq<T>, weight: T -> Option<real>)
    ensures SumWeights(xs, weight).Some? <==> forall i :: 0 <= i < |xs| ==> weight(xs[i]).Some?
    ensures (forall i :: 0 <= i < |xs| ==> weight(xs[i]).Some? && weight(xs[i]).value >= 0.0)
            ==> SumWeights(xs, weight).Some? && SumWeights(xs, weight).value >= 0.0
  {
    if xs != [] {
      var init := xs[..|xs| - 1];
      SumWeightsDefined(init, weight);
      assert forall i :: 0 <= i < |init| ==> init[i] == xs[i];
    }
  }

  /** The sum over a concatenation is the sum of the sums. */
  lemma {:induction false} SumWeightsAppend<T>(a: seq<T>, b: seq<T>, weight: T -> Option<real>)
    ensures SumWeights(a + b, weight) == AddWeights(SumWeights(a, weight), SumWeights(b, weight))
  {
    if b == [] {
      assert a + b == a;
    } else {
      var c := a + b;
      assert c[..|c| - 1] == a + b[..|b| - 1];
      SumWeightsAppend(a, b[..|b| - 1], weight);
    }
  }

  /** Two records weigh the sum of their weights. */
  lemma SumWeightsPair<T>(x: T, y: T, weight: T -> Option<real>, u: real, v: real)
    requires weight(x) == Some(u) && weight(y) == Some(v)
    ensures SumWeights([x, y], weight) == Some(u + v)
  {
    assert [x, y][..1] == [x] && [x][..0] == [];
    assert SumWeights([x], weight) == AddWeights(SumWeights([], weight), weight(x));
  }

  /** The sum of a list of whole numbers. */
  function Total(ns: seq<nat>): nat {
    if ns == [] then 0 else Total(ns[..|ns| - 1]) + ns[|ns| - 1]
  }

  /** When every weight is a whole number of kilograms, the sum is their total. */
  lemma {:induction false} SumOfWholeWeights<T>(xs: seq<T>, weight: T -> Option<real>, ns: seq<nat>)
    requires |ns| == |xs|
    requires forall i :: 0 <= i < |xs| ==> weight(xs[i]) == Some(ns[i] as real)
    ensures SumWeights(xs, weight) == Some(Total(ns) as real)
  {
    if xs != [] {
      SumOfWholeWeights(xs[..|xs| - 1], weight, ns[..|ns| - 1]);
    }
  }

  function DonationWeight(d: Donation): Option<real> {
    WeightInKg(d.quantity, d.unit)
  }

  function RequestWeight(r: Request): Option<real> {
    WeightInKg(r.quantity, r.unit)
  }

  function DonationId(d: Donation): int { d.id }
  function RequestId(r: Request): int { r.id }
  function NotificationId(n: Notification): int { n.id }
  function MessageId(m: Message): int { m.id }

  function Read(n: Notification): Notification { n.(read := true) }
  function ReadMessage(m: Message): Message { m.(read := true) }

  /** The notification handler's `map`: only notifications with the given id become read. */
  function MarkNotificationRead(ns: seq<Notification>, id: int): (r: seq<Notification>)
    ensures |r| == |ns|
    ensures forall i :: 0 <= i < |ns| ==> r[i] == ns[i].(read := ns[i].read || ns[i].id == id)
  {
    Lists.UpdateId(ns, id, NotificationId, Read)
  }

  /** Marking the same notification read twice is the same as marking it once. */
  lemma MarkNotificationReadTwice(ns: seq<Notification>, id: int)
    ensures MarkNotificationRead(MarkNotificationRead(ns, id), id) == MarkNotificationRead(ns, id)
  {
  }

  /** The message handler's `map`: only messages with the given id become read. */
  function MarkMessageRead(ms: seq<Message>, id: int): (r: seq<Message>)
    ensures |r| == |ms|
    ensures forall i :: 0 <= i < |ms| ==> r[i] == ms[i].(read := ms[i].read || ms[i].id == id)
  {
    Lists.UpdateId(ms, id, MessageId, ReadMessage)
  }

  /** `updateRequestStatus`'s `map`: only requests with the given id take the new status. */
  function SetRequestStatus(rs: seq<Request>, id: int, status: string): (r: seq<Request>)
    ensures |r| == |rs|
    ensures forall i :: 0 <= i < |rs| ==>
      r[i] == if rs[i].id == id then rs[i].(status := status) else rs[i]
  {
    Lists.UpdateId(rs, id, RequestId, (x: Request) => x.(status := status))
  }

  /** `filter(d => d.id !== id)` on donations. */
  function RemoveDonation(ds: seq<Donation>, id: int): (r: seq<Donation>)
    ensures forall d :: d in r <==> d in ds && d.id != id
  {
    Lists.RemoveId(ds, id, DonationId)
  }

  /** `filter(r => r.id !== id)` on requests. */
  function RemoveRequest(rs: seq<Request>, id: int): (r: seq<Request>)
    ensures forall x :: x in r <==> x in rs && x.id != id
  {
    Lists.RemoveId(rs, id, RequestId)
  }

  /** `filter(m => m.id !== id)` on messages. */
  function RemoveMessage(ms: seq<Message>, id: int): (r: seq<Message>)
    ensures forall m :: m in r <==> m in ms && m.id != id
  {
    Lists.RemoveId(ms, id, MessageId)
  }
}
