/**
 * The notification and message lists a dashboard keeps, with the four handlers it passes down
 * to the bell and the message center. Both dashboards carry identical copies of this code; it
 * is modelled once here, keyed by the dashboard user's id.
 */
module Inbox {
  import opened Records
  import opened Storage

  class InboxState {
    const store: Store
    const userId: int
    var notifications: seq<Notification>
    var messages: seq<Message>

    constructor (store: Store, userId: int)
      ensures this.store == store && this.userId == userId
      ensures notifications == [] && messages == []
    {
      this.store := store;
      this.userId := userId;
      notifications := [];
      messages := [];
    }

    /** The notifications as the store holds them equal the ones in memory. */
    ghost predicate NotificationsStored()
      reads this, store
    {
      NotificationsKey(userId) in store.items
      && store.items[NotificationsKey(userId)] == NotificationList(notifications)
    }

    /** The messages as the store holds them equal the ones in memory. */
    ghost predicate MessagesStored()
      reads this, store
    {
      MessagesKey(userId) in store.items && store.items[MessagesKey(userId)] == MessageList(messages)
    }

    /** The mount effect's second and third steps: load or seed notifications, then messages. */
    method Load(seedNotifications: seq<Notification>, seedMessages: seq<Message>)
      modifies this, store
      ensures var n := LoadOrSeed(old(store.Get(NotificationsKey(userId))), AsNotifications, seedNotifications);
              var m := LoadOrSeed(old(store.Get(MessagesKey(userId))), AsMessages, seedMessages);
              && notifications == n.ItemsOr(old(notifications))
              && messages == m.ItemsOr(old(messages))
              && store.items == AfterLoad(AfterLoad(old(store.items), NotificationsKey(userId), n, EncodeNotifications),
                                          MessagesKey(userId), m, EncodeMessages)
    {
      KeysOfKindsDiffer(userId, userId);
      var key := NotificationsKey(userId);
      var stored := store.Get(key);
      match stored {
        case None =>
          notifications := seedNotifications;
          store.Set(key, NotificationList(seedNotifications));
        case Some(v) =>
          if v.NotificationList? {
            notifications := v.notifications;
          }
      }
      key := MessagesKey(userId);
      stored := store.Get(key);
      match stored {
        case None =>
          messages := seedMessages;
          store.Set(key, MessageList(seedMessages));
        case Some(v) =>
          if v.MessageList? {
            messages := v.messages;
          }
      }
    }

    /** `handleMarkNotificationAsRead(id)`. */
    method MarkNotificationAsRead(id: int)
      modifies this`notifications, store
      ensures notifications == MarkNotificationRead(old(notifications), id)
      ensures store.items == old(store.items)[NotificationsKey(userId) := NotificationList(notifications)]
      ensures NotificationsStored()
    {
      notifications := MarkNotificationRead(notifications, id);
      store.Set(NotificationsKey(userId), NotificationList(notifications));
    }

    /** `handleClearAllNotifications()`. */
    method ClearAllNotifications()
      modifies this`notifications, store
      ensures notifications == []
      ensures store.items == old(store.items)[NotificationsKey(userId) := NotificationList([])]
      ensures NotificationsStored()
    {
      notifications := [];
      store.Set(NotificationsKey(userId), NotificationList([]));
    }

    /** `handleMarkMessageAsRead(id)`. */
    method MarkMessageAsRead(id: int)
      modifies this`messages, store
      ensures messages == MarkMessageRead(old(messages), id)
      ensures store.items == old(store.items)[MessagesKey(userId) := MessageList(messages)]
      ensures MessagesStored()
    {
      messages := MarkMessageRead(messages, id);
      store.Set(MessagesKey(userId), MessageList(messages));
    }

    /** `handleDeleteMessage(id)`: no confirmation is asked. */
    method DeleteMessage(id: int)
      modifies this`messages, store
      ensures messages == RemoveMessage(old(messages), id)
      ensures store.items == old(store.items)[MessagesKey(userId) := MessageList(messages)]
      ensures MessagesStored()
    {
      messages := RemoveMessage(messages, id);
      store.Set(MessagesKey(userId), MessageList(messages));
    }
  }
}
