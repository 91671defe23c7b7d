/**
 * The received-messages screens of KnockAvatar (Views/MessagesListView.swift):
 * the searchable list sorted newest first, and the actions on a row or on the
 * detail sheet: select (mark read, open), delete, replay the animation, and the
 * pickup of a message opened by a deep link.
 */
module MessagesList {
  import opened Wrappers
  import opened Models
  import opened Seqs
  import opened Notifications
  import opened Store
  import opened DeepLinks

  function ReceivedAt(m: ReceivedMessage): int {
    m.receivedAt
  }

  /**
   * The search predicate: the content or the sender's name contains the search
   * text. `contains` stands for `localizedCaseInsensitiveContains`, whose
   * locale-dependent folding is not modelled; a sender that does not resolve
   * does not match.
   */
  predicate MatchesSearch(m: ReceivedMessage, contacts: seq<Contact>, searchText: string,
                          contains: (string, string) -> bool) {
    || contains(m.content, searchText)
    || (var sender := FindContact(contacts, m.fromContactId);
        sender.Some? && contains(sender.value.name, searchText))
  }

  /**
   * `filteredMessages`: every message when the search is empty, otherwise the
   * matching ones; newest first either way (equal timestamps in no promised order).
   */
  function FilteredMessages(searchText: string, messages: seq<ReceivedMessage>, contacts: seq<Contact>,
                            contains: (string, string) -> bool): (r: seq<ReceivedMessage>)
    ensures searchText == "" ==> multiset(r) == multiset(messages)
    ensures searchText != "" ==> multiset(r) <= multiset(messages)
    ensures searchText != "" ==> forall m :: m in r <==> m in messages && MatchesSearch(m, contacts, searchText, contains)
    ensures NonIncreasing(r, ReceivedAt)
  {
    if searchText == "" then
      SortDescending(messages, ReceivedAt)
    else
      var matching := Filter(messages, m => MatchesSearch(m, contacts, searchText, contains));
      var r := SortDescending(matching, ReceivedAt);
      assert forall m :: m in r <==> m in matching by {
        forall m ensures m in r <==> m in matching {
          assert m in r <==> m in multiset(r);
          assert m in matching <==> m in multiset(matching);
        }
      }
      r
  }

  /** The list with an empty search shows each received message, as often as it is stored. */
  lemma EmptySearchShowsAll(messages: seq<ReceivedMessage>, contacts: seq<Contact>, contains: (string, string) -> bool)
    ensures var r := FilteredMessages("", messages, contacts, contains);
      && |r| == |messages|
      && forall m :: m in r <==> m in messages
  {
    var r := FilteredMessages("", messages, contacts, contains);
    assert |r| == |multiset(r)| == |multiset(messages)| == |messages|;
    forall m ensures m in r <==> m in messages {
      assert m in r <==> m in multiset(r);
      assert m in messages <==> m in multiset(messages);
    }
  }

  /**
   * Both delete paths: `receivedMessages.removeAll { $0.id == message.id }` followed by
   * `saveToUserDefaults()`.
   */
  method DeleteReceivedMessage(store: DataStore, message: ReceivedMessage, now: Date)
    requires store.Valid()
    modifies store`receivedMessages, store`saved
    ensures store.Valid()
    ensures store.receivedMessages == RemoveKey(old(store.receivedMessages), ReceivedId, message.id)
    ensures UniqueBy(old(store.receivedMessages), ReceivedId) ==> UniqueBy(store.receivedMessages, ReceivedId)
    ensures store.saved == Some(SnapshotOf(store.contacts, store.scheduledMessages, store.receivedMessages, now))
  {
    store.receivedMessages := RemoveKey(store.receivedMessages, ReceivedId, message.id);
    store.SaveToUserDefaults(now);
  }

  class MessagesListView {
    var selectedMessage: Option<ReceivedMessage>
    var searchText: string
    const store: DataStore
    const deepLinks: DeepLinkManager
    const notifications: NotificationManager

    constructor (store: DataStore, deepLinks: DeepLinkManager, notifications: NotificationManager)
      ensures selectedMessage == None && searchText == ""
      ensures this.store == store && this.deepLinks == deepLinks && this.notifications == notifications
    {
      selectedMessage, searchText := None, "";
      this.store, this.deepLinks, this.notifications := store, deepLinks, notifications;
    }

    /** `selectMessage(_:)`: marks the message read in the store, then opens the row's copy of it. */
    method SelectMessage(message: ReceivedMessage, now: Date)
      requires store.Valid()
      modifies this`selectedMessage, store`receivedMessages, store`saved
      ensures store.Valid()
      ensures UniqueBy(old(store.receivedMessages), ReceivedId) ==> UniqueBy(store.receivedMessages, ReceivedId)
      ensures store.receivedMessages == MarkRead(old(store.receivedMessages), message.id)
      ensures store.saved == if HasKey(old(store.receivedMessages), ReceivedId, message.id)
                             then Some(SnapshotOf(store.contacts, store.scheduledMessages, store.receivedMessages, now))
                             else old(store.saved)
      ensures selectedMessage == Some(message)
    {
      store.MarkMessageAsRead(message.id, now);
      selectedMessage := Some(message);
    }

    /** `deleteMessage(_:)` from a row's swipe action. */
    method DeleteMessage(message: ReceivedMessage, now: Date)
      requires store.Valid()
      modifies store`receivedMessages, store`saved
      ensures store.Valid()
      ensures store.receivedMessages == RemoveKey(old(store.receivedMessages), ReceivedId, message.id)
      ensures UniqueBy(old(store.receivedMessages), ReceivedId) ==> UniqueBy(store.receivedMessages, ReceivedId)
      ensures store.saved == Some(SnapshotOf(store.contacts, store.scheduledMessages, store.receivedMessages, now))
    {
      DeleteReceivedMessage(store, message, now);
    }

    /** `replayMessage(_:)`: raises the overlay on the message again; the store, and so `isRead`, is untouched. */
    method ReplayMessage(message: ReceivedMessage)
      modifies notifications`pendingMessage, notifications`currentAvatarAnimation, notifications`showAnimationOverlay
      ensures notifications.Presents(message, message.avatarId)
    {
      notifications.pendingMessage := Some(message);
      notifications.currentAvatarAnimation := Some(message.avatarId);
      notifications.showAnimationOverlay := true;
    }

    /**
     * `checkDeepLink()`: when the router asked for a message detail and the message is
     * stored, opens it and resets the router's navigation; otherwise nothing changes.
     */
    method CheckDeepLink()
      modifies this`selectedMessage, deepLinks`selectedMessageId, deepLinks`showMessageDetail, deepLinks`navigateToComposer
      ensures var found :=
          if old(deepLinks.showMessageDetail) && old(deepLinks.selectedMessageId).Some?
          then FindReceivedMessage(store.receivedMessages, old(deepLinks.selectedMessageId).value) else None;
        if found.Some?
        then && selectedMessage == found
             && deepLinks.selectedMessageId == None && !deepLinks.showMessageDetail && !deepLinks.navigateToComposer
        else unchanged(this) && unchanged(deepLinks)
    {
      if deepLinks.showMessageDetail && deepLinks.selectedMessageId.Some? {
        var message := FindReceivedMessage(store.receivedMessages, deepLinks.selectedMessageId.value);
        if message.Some? {
          selectedMessage := message;
          deepLinks.ResetNavigation();
        }
      }
    }
  }

  /** The detail sheet of one message. */
  class MessageDetailView {
    const message: ReceivedMessage
    const store: DataStore
    /** The sheet is on screen; `dismiss()` clears it. */
    var isPresented: bool

    constructor (message: ReceivedMessage, store: DataStore)
      ensures this.message == message && this.store == store && isPresented
    {
      this.message, this.store := message, store;
      isPresented := true;
    }

    /** `deleteMessage()`: removes the message from the store, saves, and closes the sheet. */
    method DeleteMessage(now: Date)
      requires store.Valid()
      modifies this`isPresented, store`receivedMessages, store`saved
      ensures store.Valid() && !isPresented
      ensures store.receivedMessages == RemoveKey(old(store.receivedMessages), ReceivedId, message.id)
      ensures UniqueBy(old(store.receivedMessages), ReceivedId) ==> UniqueBy(store.receivedMessages, ReceivedId)
      ensures store.saved == Some(SnapshotOf(store.contacts, store.scheduledMessages, store.receivedMessages, now))
    {
      DeleteReceivedMessage(store, message, now);
      isPresented := false;
    }
  }
}
