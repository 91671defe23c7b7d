/**
 * The deep-link router of KnockAvatar (Services/DeepLinkManager.swift). A link is
 * handled from its list of path components: `message/{id}` opens the message tab
 * on that message and, when the store holds it, raises the reveal overlay;
 * `compose/{contactId}` opens the composer and preselects the contact when the
 * identifier parses; `settings` switches tab. The work the app queues on the main
 * queue is done at once here.
 */
module DeepLinks {
  import opened Wrappers
  import opened Identifiers
  import opened Models
  import opened Seqs
  import opened Notifications
  import opened Store

  /** `DeepLinkManager.Tab`. */
  datatype Tab = Home | Messages | Compose | Settings

  /** The components the router keeps: every one except the root `/`. */
  predicate IsNotRoot(component: string) {
    component != "/"
  }

  /** `url.pathComponents.filter { $0 != "/" }`. */
  function RoutePath(components: seq<string>): (path: seq<string>)
    ensures forall c :: c in path <==> c in components && c != "/"
    ensures |path| <= |components|
  {
    Filter(components, IsNotRoot)
  }

  /** The root component never reaches the router, and dropping it keeps the others in order. */
  lemma RoutePathDropsRoot(before: seq<string>, after: seq<string>)
    ensures RoutePath(before + ["/"] + after) == RoutePath(before) + RoutePath(after)
  {
    FilterConcat(before + ["/"], after, IsNotRoot);
    FilterConcat(before, ["/"], IsNotRoot);
  }

  class DeepLinkManager {
    var activeTab: Tab
    var selectedMessageId: Option<string>
    var showMessageDetail: bool
    var navigateToComposer: bool
    const store: DataStore
    const notifications: NotificationManager

    constructor (store: DataStore, notifications: NotificationManager)
      ensures activeTab == Home && selectedMessageId == None
      ensures !showMessageDetail && !navigateToComposer
      ensures this.store == store && this.notifications == notifications
    {
      activeTab, selectedMessageId := Home, None;
      showMessageDetail, navigateToComposer := false, false;
      this.store, this.notifications := store, notifications;
    }

    /** `handleDeepLink(_:)`, from the URL's path components. */
    method HandleDeepLink(components: seq<string>)
      modifies this`activeTab, this`selectedMessageId, this`showMessageDetail, this`navigateToComposer
      modifies store`selectedContactId
      modifies notifications`pendingMessage, notifications`showAnimationOverlay, notifications`currentAvatarAnimation
      ensures var path := RoutePath(components);
        if |path| >= 2 && path[0] == "message" then
          && activeTab == Messages && selectedMessageId == Some(path[1]) && showMessageDetail
          && navigateToComposer == old(navigateToComposer)
          && store.selectedContactId == old(store.selectedContactId)
          && var found := FindReceivedMessage(store.receivedMessages, path[1]);
             if found.Some? then notifications.Presents(found.value, found.value.avatarId)
             else unchanged(notifications)
        else if |path| >= 2 && path[0] == "compose" then
          && activeTab == Compose && navigateToComposer
          && selectedMessageId == old(selectedMessageId) && showMessageDetail == old(showMessageDetail)
          && store.selectedContactId == (if ParseUuid(path[1]).Some? then ParseUuid(path[1]) else old(store.selectedContactId))
          && unchanged(notifications)
        else
          && activeTab == (if |path| >= 1 && path[0] == "settings" then Settings else old(activeTab))
          && selectedMessageId == old(selectedMessageId) && showMessageDetail == old(showMessageDetail)
          && navigateToComposer == old(navigateToComposer)
          && store.selectedContactId == old(store.selectedContactId)
          && unchanged(notifications)
    {
      var path := RoutePath(components);
      if |path| == 0 {
        return;
      }
      if path[0] == "message" {
        if |path| > 1 {
          HandleMessageDeepLink(path[1]);
        }
      } else if path[0] == "compose" {
        if |path| > 1 {
          HandleComposeDeepLink(path[1]);
        }
      } else if path[0] == "settings" {
        activeTab := Settings;
      }
    }

    /** `handleMessageDeepLink(messageId:)`. */
    method HandleMessageDeepLink(messageId: string)
      modifies this`activeTab, this`selectedMessageId, this`showMessageDetail
      modifies notifications`pendingMessage, notifications`showAnimationOverlay, notifications`currentAvatarAnimation
      ensures activeTab == Messages && selectedMessageId == Some(messageId) && showMessageDetail
      ensures var found := FindReceivedMessage(store.receivedMessages, messageId);
        if found.Some? then notifications.Presents(found.value, found.value.avatarId)
        else unchanged(notifications)
    {
      var found := FindReceivedMessage(store.receivedMessages, messageId);
      selectedMessageId := Some(messageId);
      activeTab := Messages;
      showMessageDetail := true;
      if found.Some? {
        notifications.currentAvatarAnimation := Some(found.value.avatarId);
        notifications.showAnimationOverlay := true;
        notifications.pendingMessage := found;
      }
    }

    /** `handleComposeDeepLink(contactId:)`: the contact is preselected only when the text is a UUID. */
    method HandleComposeDeepLink(contactId: string)
      modifies this`activeTab, this`navigateToComposer, store`selectedContactId
      ensures activeTab == Compose && navigateToComposer
      ensures store.selectedContactId ==
        if ParseUuid(contactId).Some? then ParseUuid(contactId) else old(store.selectedContactId)
    {
      activeTab := Compose;
      navigateToComposer := true;
      var uuid := ParseUuid(contactId);
      if uuid.Some? {
        store.selectedContactId := uuid;
      }
    }

    /** `resetNavigation`: clears the message selection and both navigation flags; the tab stays. */
    method ResetNavigation()
      modifies this`selectedMessageId, this`showMessageDetail, this`navigateToComposer
      ensures selectedMessageId == None && !showMessageDetail && !navigateToComposer
    {
      selectedMessageId := None;
      showMessageDetail := false;
      navigateToComposer := false;
    }
  }

  /** The path of the link `/message/{id}` is `message` followed by the identifier. */
  lemma MessageLinkPath(id: string)
    requires id != "/"
    ensures RoutePath(["/", "message", id]) == ["message", id]
  {
    assert ["/", "message", id] == [] + ["/"] + ["message", id];
    RoutePathDropsRoot([], ["message", id]);
    FilterKeepsAll(["message", id], IsNotRoot);
  }

  /** A message link built from a stored message's `uuidString` finds that message when identifiers are unique. */
  lemma MessageLinkFindsStoredMessage(messages: seq<ReceivedMessage>, m: ReceivedMessage)
    requires UniqueBy(messages, ReceivedId) && m in messages
    ensures var path := RoutePath(["/", "message", UuidString(m.id)]);
      && path == ["message", UuidString(m.id)]
      && FindReceivedMessage(messages, path[1]) == Some(m)
  {
    var id := UuidString(m.id);
    assert |id| == 36;
    MessageLinkPath(id);
    StoredMessageIsFoundByString(messages, m);
  }
}
