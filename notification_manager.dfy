/**
 * The notification side of KnockAvatar (Services/NotificationManager.swift):
 * the `userInfo` payload written when a local notification is scheduled, the
 * validating decoder `extractMessageData`, the foreground and tap handlers
 * that raise the reveal overlay, and the two calls made to the platform
 * notification centre, recorded in a ghost log.
 */
module Notifications {
  import opened Wrappers
  import opened Identifiers
  import opened Models

  /** A `userInfo` value; `as? String` succeeds only on `Str`. */
  datatype Value = Str(s: string) | NonString

  /** `[AnyHashable: Any]`, restricted to the string keys the app reads and writes. */
  type UserInfo = map<string, Value>

  /** `userInfo[key] as? String`. */
  function StringField(info: UserInfo, key: string): (r: Option<string>)
    ensures r.Some? <==> key in info && info[key].Str?
    ensures r.Some? ==> info[key] == Str(r.value)
  {
    if key in info && info[key].Str? then Some(info[key].s) else None
  }

  /** The `userInfo` that `scheduleLocalNotification` attaches to a message for a contact. */
  function Payload(m: ScheduledMessage, c: Contact): (info: UserInfo)
    ensures info.Keys == {"messageId", "contactId", "content", "avatarId"}
    ensures StringField(info, "messageId") == Some(UuidString(m.id))
    ensures StringField(info, "contactId") == Some(UuidString(c.id))
    ensures StringField(info, "content") == Some(m.content)
    ensures StringField(info, "avatarId") == Some(m.avatarId)
  {
    map["messageId" := Str(UuidString(m.id)),
        "contactId" := Str(UuidString(c.id)),
        "content" := Str(m.content),
        "avatarId" := Str(m.avatarId)]
  }

  /** The `(message, avatarId)` pair `extractMessageData` returns. */
  datatype MessageData = MessageData(message: ReceivedMessage, avatarId: string)

  /**
   * `extractMessageData(from:)`. All four keys must hold strings and `contactId` must
   * parse as a UUID; emptiness is not checked and `messageId` is not used. The record
   * gets the fresh identifier `freshId` and the receipt time `now`.
   */
  function ExtractMessageData(info: UserInfo, freshId: Uuid, now: Date): (r: Option<MessageData>)
    ensures r.Some? <==>
      && StringField(info, "messageId").Some?
      && StringField(info, "content").Some?
      && StringField(info, "avatarId").Some?
      && StringField(info, "contactId").Some?
      && ParseUuid(StringField(info, "contactId").value).Some?
    ensures r.Some? ==>
      && r.value.message == NewReceivedMessage(freshId, ParseUuid(info["contactId"].s).value,
                                               info["content"].s, info["avatarId"].s, now)
      && r.value.avatarId == r.value.message.avatarId
  {
    var messageId := StringField(info, "messageId");
    var content := StringField(info, "content");
    var avatarId := StringField(info, "avatarId");
    var contactIdString := StringField(info, "contactId");
    if messageId.None? || content.None? || avatarId.None? || contactIdString.None? then None
    else
      var contactId := ParseUuid(contactIdString.value);
      if contactId.None? then None
      else
        var message := NewReceivedMessage(freshId, contactId.value, content.value, avatarId.value, now);
        Some(MessageData(message, avatarId.value))
  }

  /** The payload of a scheduled message decodes to the contact, content and avatar it was built from. */
  lemma PayloadRoundTrip(m: ScheduledMessage, c: Contact, freshId: Uuid, now: Date)
    ensures ExtractMessageData(Payload(m, c), freshId, now)
         == Some(MessageData(NewReceivedMessage(freshId, c.id, m.content, m.avatarId, now), m.avatarId))
  {
    UuidRoundTrip(c.id);
  }

  /** What is shown for a delivered notification; the default sound is not modelled. */
  datatype NotificationContent = NotificationContent(
    title: string, subtitle: string, body: string, badge: int, userInfo: UserInfo)

  /** A calendar trigger, matched to the minute (minutes since the epoch). */
  datatype CalendarTrigger = CalendarTrigger(minute: int, repeats: bool)

  datatype NotificationRequest = NotificationRequest(
    identifier: string, content: NotificationContent, trigger: CalendarTrigger)

  /** A call made to the platform notification centre. */
  datatype PlatformCall =
    | AddRequest(request: NotificationRequest)
    | RemovePending(identifiers: seq<string>)

  /** The request `scheduleLocalNotification(message:contact:)` hands to the notification centre. */
  function LocalNotificationRequest(m: ScheduledMessage, c: Contact): (r: NotificationRequest)
    ensures r.identifier == UuidString(m.id)
    ensures !r.trigger.repeats
    ensures r.trigger.minute * 60 <= m.scheduledDate < r.trigger.minute * 60 + 60
    ensures r.content.body == m.content && r.content.subtitle == "De " + c.name
    ensures r.content.userInfo == Payload(m, c)
  {
    var content := NotificationContent("Toc toc, tu as un message", "De " + c.name, m.content, 1, Payload(m, c));
    NotificationRequest(UuidString(m.id), content, CalendarTrigger(m.scheduledDate / 60, false))
  }

  class NotificationManager {
    var pendingMessage: Option<ReceivedMessage>
    var showAnimationOverlay: bool
    var currentAvatarAnimation: Option<string>
    /** Every call made to the platform notification centre, oldest first. */
    ghost var calls: seq<PlatformCall>

    /** The overlay is up, showing `message` with the animation `avatarId`. */
    predicate Presents(message: ReceivedMessage, avatarId: string)
      reads this
    {
      pendingMessage == Some(message) && currentAvatarAnimation == Some(avatarId) && showAnimationOverlay
    }

    constructor ()
      ensures pendingMessage == None && !showAnimationOverlay && currentAvatarAnimation == None
      ensures calls == []
    {
      pendingMessage, showAnimationOverlay, currentAvatarAnimation := None, false, None;
      calls := [];
    }

    /**
     * `handleForegroundNotification(userInfo:)`. The discreet-mode flag is read from the
     * key-value store in the app; here it is a parameter.
     */
    method HandleForegroundNotification(userInfo: UserInfo, discretMode: bool, freshId: Uuid, now: Date)
      modifies this`pendingMessage, this`showAnimationOverlay, this`currentAvatarAnimation
      ensures var data := ExtractMessageData(userInfo, freshId, now);
        if data.None? || discretMode then unchanged(this)
        else Presents(data.value.message, data.value.avatarId)
    {
      var data := ExtractMessageData(userInfo, freshId, now);
      if data.None? {
        return;
      }
      if discretMode {
        return;
      }
      currentAvatarAnimation := Some(data.value.avatarId);
      pendingMessage := Some(data.value.message);
      showAnimationOverlay := true;
    }

    /** `handleNotificationTap(userInfo:)`: like the foreground handler, but discreet mode is never consulted. */
    method HandleNotificationTap(userInfo: UserInfo, freshId: Uuid, now: Date)
      modifies this`pendingMessage, this`showAnimationOverlay, this`currentAvatarAnimation
      ensures var data := ExtractMessageData(userInfo, freshId, now);
        if data.None? then unchanged(this)
        else Presents(data.value.message, data.value.avatarId)
    {
      var data := ExtractMessageData(userInfo, freshId, now);
      if data.None? {
        return;
      }
      pendingMessage := Some(data.value.message);
      currentAvatarAnimation := Some(data.value.avatarId);
      showAnimationOverlay := true;
    }

    /** `scheduleLocalNotification(message:contact:)`: one non-repeating request keyed by the message id. */
    method ScheduleLocalNotification(message: ScheduledMessage, contact: Contact)
      modifies this`calls
      ensures calls == old(calls) + [AddRequest(LocalNotificationRequest(message, contact))]
    {
      calls := calls + [AddRequest(LocalNotificationRequest(message, contact))];
    }

    /** `cancelNotification(messageId:)`: removes the pending request with that identifier. */
    method CancelNotification(messageId: string)
      modifies this`calls
      ensures calls == old(calls) + [RemovePending([messageId])]
    {
      calls := calls + [RemovePending([messageId])];
    }
  }
}
