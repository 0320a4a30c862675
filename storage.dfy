/**
 * Browser storage: a map from string keys to whole stored values, and the load-or-seed step
 * each dashboard runs for each of its keys when it mounts.
 */
module Storage {
  import opened Wrappers
  import opened Text
  import opened Records

  /**
   * What a key can hold: one of the stored lists, the session user, or text that does not
   * parse (`JSON.parse` throws on it).
   */
  datatype Stored =
    | Malformed
    | DonationList(donations: seq<Donation>)
    | RequestList(requests: seq<Request>)
    | NotificationList(notifications: seq<Notification>)
    | MessageList(messages: seq<Message>)
    | SessionUser(user: User)

  function DonationsKey(userId: int): string { "donations_" + IntToString(userId) }
  function RequestsKey(userId: int): string { "requests_" + IntToString(userId) }
  function NotificationsKey(userId: int): string { "notifications_" + IntToString(userId) }
  function MessagesKey(userId: int): string { "messages_" + IntToString(userId) }
  const CurrentUserKey := "currentUser"

  /** The keys of different kinds never coincide, whatever the two user ids are. */
  lemma KeysOfKindsDiffer(a: int, b: int)
    ensures DonationsKey(a) != NotificationsKey(b) && DonationsKey(a) != MessagesKey(b)
    ensures RequestsKey(a) != NotificationsKey(b) && RequestsKey(a) != MessagesKey(b)
    ensures NotificationsKey(a) != MessagesKey(b)
    ensures DonationsKey(a) != CurrentUserKey && RequestsKey(a) != CurrentUserKey
    ensures NotificationsKey(a) != CurrentUserKey && MessagesKey(a) != CurrentUserKey
  {
    var d, r, n, m := DonationsKey(a)[0], RequestsKey(a)[0], NotificationsKey(a)[0], MessagesKey(a)[0];
    assert d == 'd' && r == 'r' && n == 'n' && m == 'm';
    assert NotificationsKey(b)[0] == 'n' && MessagesKey(b)[0] == 'm';
    assert CurrentUserKey[0] == 'c';
  }

  /** Each user's collections live under keys of their own. */
  lemma KeysPerUser(a: int, b: int)
    requires a != b
    ensures DonationsKey(a) != DonationsKey(b) && RequestsKey(a) != RequestsKey(b)
    ensures NotificationsKey(a) != NotificationsKey(b) && MessagesKey(a) != MessagesKey(b)
  {
    var x, y := IntToString(a), IntToString(b);
    if x == y {
      IntToStringInjective(a, b);
    }
    assert DonationsKey(a)[10..] == x && DonationsKey(b)[10..] == y;
    assert RequestsKey(a)[9..] == x && RequestsKey(b)[9..] == y;
    assert NotificationsKey(a)[14..] == x && NotificationsKey(b)[14..] == y;
    assert MessagesKey(a)[9..] == x && MessagesKey(b)[9..] == y;
  }

  /** `localStorage`: every operation reads or replaces whole values. */
  class Store {
    var items: map<string, Stored>

    constructor ()
      ensures items == map[]
    {
      items := map[];
    }

    /** `getItem`: `None` for a key that holds nothing. */
    function Get(key: string): (v: Option<Stored>)
      reads this
      ensures v.Some? <==> key in items
      ensures v.Some? ==> v.value == items[key]
    {
      if key in items then Some(items[key]) else None
    }

    /** `setItem`. */
    method Set(key: string, v: Stored)
      modifies this
      ensures items == old(items)[key := v]
    {
      items := items[key := v];
    }

    /** `removeItem`. */
    method Remove(key: string)
      modifies this
      ensures items == old(items) - {key}
    {
      items := items - {key};
    }

    /** `clear`. */
    method Clear()
      modifies this
      ensures items == map[]
    {
      items := map[];
    }
  }

  function AsDonations(v: Stored): Option<seq<Donation>> {
    if v.DonationList? then Some(v.donations) else None
  }

  function AsRequests(v: Stored): Option<seq<Request>> {
    if v.RequestList? then Some(v.requests) else None
  }

  function AsNotifications(v: Stored): Option<seq<Notification>> {
    if v.NotificationList? then Some(v.notifications) else None
  }

  function AsMessages(v: Stored): Option<seq<Message>> {
    if v.MessageList? then Some(v.messages) else None
  }

  function EncodeDonations(ds: seq<Donation>): Stored { DonationList(ds) }
  function EncodeRequests(rs: seq<Request>): Stored { RequestList(rs) }
  function EncodeNotifications(ns: seq<Notification>): Stored { NotificationList(ns) }
  function EncodeMessages(ms: seq<Message>): Stored { MessageList(ms) }

  /** The outcome of loading one key on mount. */
  datatype Loaded<T> =
    | Seeded(list: seq<T>)   // nothing was stored: the defaults are used and written back
    | Kept(list: seq<T>)     // a stored list is used as it is
    | Unreadable             // the stored text does not parse: the state stays empty
  {
    /** The list the component holds afterwards, given the one it held before. */
    function ItemsOr(current: seq<T>): seq<T> {
      if Unreadable? then current else list
    }
  }

  /** The load-or-seed decision for one key, given what the key holds. */
  function LoadOrSeed<T>(stored: Option<Stored>, decode: Stored -> Option<seq<T>>, seed: seq<T>): (r: Loaded<T>)
    ensures r.Seeded? <==> stored.None?
    ensures r.Seeded? ==> r.list == seed
    ensures r.Kept? <==> stored.Some? && decode(stored.value).Some?
    ensures r.Kept? ==> Some(r.list) == decode(stored.value)
  {
    match stored
    case None => Seeded(seed)
    case Some(v) =>
      match decode(v)
      case Some(xs) => Kept(xs)
      case None => Unreadable
  }

  /** The store after loading `key`: only a seeded list is written back. */
  function AfterLoad<T>(items: map<string, Stored>, key: string, r: Loaded<T>, encode: seq<T> -> Stored)
    : (after: map<string, Stored>)
    ensures after.Keys == items.Keys + (if r.Seeded? then {key} else {})
    ensures forall k :: k in items && k != key ==> after[k] == items[k]
    ensures !r.Seeded? ==> after == items
  {
    if r.Seeded? then items[key := encode(r.list)] else items
  }

  /**
   * Seeding happens once: loading a key a second time, from the store the first load left
   * behind, keeps the very list the first load produced (or finds the key unreadable again).
   */
  lemma SeedOnce<T>(items: map<string, Stored>, key: string, decode: Stored -> Option<seq<T>>,
                    encode: seq<T> -> Stored, seed: seq<T>, seed': seq<T>)
    requires forall xs :: decode(encode(xs)) == Some(xs)
    ensures var first := LoadOrSeed(if key in items then Some(items[key]) else None, decode, seed);
            var after := AfterLoad(items, key, first, encode);
            var second := LoadOrSeed(if key in after then Some(after[key]) else None, decode, seed');
            second == (if first.Unreadable? then Unreadable else Kept(first.list))
  {
  }
}
