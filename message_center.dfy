/**
 * The message center: the unread badge, the dropdown's open state, which message is shown in
 * full, the sender avatars, and the two actions it forwards to the dashboard's handlers (mark
 * one as read when it is opened, delete the one shown).
 */
module MessageCenter {
  import opened Wrappers
  import opened Lists
  import opened Records
  import opened DefaultData
  import opened Inbox
  import opened Storage

  predicate IsUnread(m: Message) { !m.read }

  /** `unreadCount`: the number on the badge. */
  function UnreadCount(ms: seq<Message>): nat {
    Count(ms, IsUnread)
  }

  /** The badge is drawn exactly when some message is unread. */
  function ShowsBadge(ms: seq<Message>): (b: bool)
    ensures b <==> exists i :: 0 <= i < |ms| && !ms[i].read
  {
    UnreadCount(ms) > 0
  }

  /**
   * Marking `id` as read lowers the badge by exactly the number of unread messages carrying
   * that id, so it drops exactly when one of them is unread.
   */
  lemma UnreadAfterMarkRead(ms: seq<Message>, id: int)
    ensures UnreadCount(MarkMessageRead(ms, id)) + Count(ms, Matching(IsUnread, MessageId, id)) == UnreadCount(ms)
    ensures UnreadCount(MarkMessageRead(ms, id)) < UnreadCount(ms)
            <==> exists i :: 0 <= i < |ms| && !ms[i].read && ms[i].id == id
  {
    CountAfterUpdate(ms, id, MessageId, ReadMessage, IsUnread);
  }

  /** A list of three whose two newest entries are unread and whose oldest is read shows 2. */
  lemma TwoOfThreeUnread(ms: seq<Message>)
    requires |ms| == 3 && !ms[0].read && !ms[1].read && ms[2].read
    ensures UnreadCount(ms) == 2
  {
    assert ms[1..][1..] == ms[2..];
    assert Count(ms[2..], IsUnread) == 0;
    assert Count(ms[1..], IsUnread) == 1;
  }

  /** Both dashboards start with a badge of 2. */
  lemma SeedUnreadCount(now: int)
    ensures UnreadCount(DefaultDonorMessages(now)) == 2
    ensures UnreadCount(DefaultSeekerMessages(now)) == 2
  {
    TwoOfThreeUnread(DefaultDonorMessages(now));
    TwoOfThreeUnread(DefaultSeekerMessages(now));
  }

  const SystemAvatar: string := "\U{1F916}"
  const AdminAvatar: string := "\U{1F468}\U{200D}\U{1F4BC}"
  const SupportAvatar: string := "\U{1F481}"
  const DonorAvatar: string := "\U{1F37D}\U{FE0F}"
  const SeekerAvatar: string := "\U{1F91D}"
  const AnyoneAvatar: string := "\U{1F464}"

  /** `getSenderAvatar(sender)`: one avatar per known sender, a silhouette for any other. */
  function Avatar(sender: string): (avatar: string)
    ensures sender == "System" <==> avatar == SystemAvatar
    ensures sender == "Admin" <==> avatar == AdminAvatar
    ensures sender == "Support" <==> avatar == SupportAvatar
    ensures sender == "Donor" <==> avatar == DonorAvatar
    ensures sender == "Seeker" <==> avatar == SeekerAvatar
    ensures avatar == AnyoneAvatar <==> sender !in {"System", "Admin", "Support", "Donor", "Seeker"}
  {
    match sender
    case "System" => SystemAvatar
    case "Admin" => AdminAvatar
    case "Support" => SupportAvatar
    case "Donor" => DonorAvatar
    case "Seeker" => SeekerAvatar
    case _ => AnyoneAvatar
  }

  /** The center's own state: whether the dropdown is open and which message it shows. */
  class Center {
    var isOpen: bool
    var selected: Option<Message>

    constructor ()
      ensures !isOpen && selected == None
    {
      isOpen := false;
      selected := None;
    }

    /** The dropdown shows one message in full rather than the list. */
    predicate ShowsDetail()
      reads this
    {
      isOpen && selected.Some?
    }

    /** `handleToggle`: the envelope button flips the dropdown; the selection is kept. */
    method Toggle()
      modifies this`isOpen
      ensures isOpen == !old(isOpen)
    {
      isOpen := !isOpen;
    }

    /**
     * The overlay, or the list's close button: the dropdown closes but the selection is kept,
     * so reopening shows the same message again.
     */
    method Close()
      modifies this`isOpen
      ensures !isOpen
    {
      isOpen := false;
    }

    /**
     * `handleSelectMessage(message)`: a click on a listed message shows it in full (as it
     * was when clicked) and, only when it was unread, forwards the mark-as-read; the badge
     * then drops.
     */
    method HandleSelectMessage(inbox: InboxState, message: Message)
      requires message in inbox.messages
      modifies this`selected, inbox`messages, inbox.store
      ensures selected == Some(message) && ShowsDetail() == isOpen
      ensures !message.read ==> inbox.messages == MarkMessageRead(old(inbox.messages), message.id)
                                && inbox.MessagesStored()
                                && inbox.store.items
                                   == old(inbox.store.items)[MessagesKey(inbox.userId) := MessageList(inbox.messages)]
                                && UnreadCount(inbox.messages) < UnreadCount(old(inbox.messages))
      ensures message.read ==> inbox.messages == old(inbox.messages)
                               && inbox.store.items == old(inbox.store.items)
    {
      selected := Some(message);
      if !message.read {
        UnreadAfterMarkRead(inbox.messages, message.id);
        inbox.MarkMessageAsRead(message.id);
      }
    }

    /** `handleBack`: the dropdown returns to the list. */
    method HandleBack()
      modifies this`selected
      ensures selected == None && !ShowsDetail()
    {
      selected := None;
    }

    /**
     * `handleDelete(id)`: the delete button of the message shown; the message leaves the list
     * without confirmation and the dropdown returns to the list.
     */
    method HandleDelete(inbox: InboxState, id: int)
      requires selected.Some? && selected.value.id == id
      modifies this`selected, inbox`messages, inbox.store
      ensures inbox.messages == RemoveMessage(old(inbox.messages), id)
      ensures forall m :: m in inbox.messages ==> m.id != id
      ensures inbox.MessagesStored()
      ensures inbox.store.items == old(inbox.store.items)[MessagesKey(inbox.userId) := MessageList(inbox.messages)]
      ensures selected == None && !ShowsDetail()
    {
      inbox.DeleteMessage(id);
      selected := None;
    }
  }
}
