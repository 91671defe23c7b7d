/**
 * The message store of KnockAvatar (Services/DataStore.swift): three arrays
 * changed in place by guarded create/read/delete operations, each mutation
 * followed by a save of the valid records. The key-value store write is
 * modelled as the ghost snapshot `saved`; the notification centre is reached
 * through the injected `NotificationManager`.
 */
module Store {
  import opened Wrappers
  import opened Identifiers
  import opened Models
  import opened Seqs
  import opened Notifications

  /** Membership in `CharacterSet.whitespacesAndNewlines`: the space separators, tab, and the line and paragraph breaks. */
  predicate IsWhitespaceOrNewline(c: char) {
    || '\t' <= c <= '\r'
    || c == ' ' || c == '\U{85}' || c == '\U{A0}' || c == '\U{1680}'
    || '\U{2000}' <= c <= '\U{200A}'
    || c == '\U{2028}' || c == '\U{2029}' || c == '\U{202F}' || c == '\U{205F}' || c == '\U{3000}'
  }

  function TrimLeading(s: string): string {
    if s != [] && IsWhitespaceOrNewline(s[0]) then TrimLeading(s[1..]) else s
  }

  function TrimTrailing(s: string): string {
    if s != [] && IsWhitespaceOrNewline(s[|s| - 1]) then TrimTrailing(s[..|s| - 1]) else s
  }

  /** `s.trimmingCharacters(in: .whitespacesAndNewlines)`. */
  function Trim(s: string): string {
    TrimTrailing(TrimLeading(s))
  }

  /** Every character is whitespace or a line break. */
  ghost predicate IsBlank(s: string) {
    forall i :: 0 <= i < |s| ==> IsWhitespaceOrNewline(s[i])
  }

  /** Leading trimming drops the longest blank prefix. */
  lemma {:induction false} TrimLeadingSpec(s: string)
    ensures var r := TrimLeading(s);
      && |r| <= |s| && r == s[|s| - |r|..] && IsBlank(s[..|s| - |r|])
      && (r == [] || !IsWhitespaceOrNewline(r[0]))
  {
    if s != [] && IsWhitespaceOrNewline(s[0]) {
      TrimLeadingSpec(s[1..]);
      var r := TrimLeading(s);
      assert s[..|s| - |r|] == [s[0]] + s[1..][..|s| - 1 - |r|];
    }
  }

  /** Trailing trimming drops the longest blank suffix. */
  lemma {:induction false} TrimTrailingSpec(s: string)
    ensures var r := TrimTrailing(s);
      && |r| <= |s| && r == s[..|r|] && IsBlank(s[|r|..])
      && (r == [] || !IsWhitespaceOrNewline(r[|r| - 1]))
  {
    if s != [] && IsWhitespaceOrNewline(s[|s| - 1]) {
      var init := s[..|s| - 1];
      TrimTrailingSpec(init);
      var r := TrimTrailing(s);
      assert s[|r|..] == init[|r|..] + [s[|s| - 1]];
    }
  }

  /**
   * Trimming keeps a contiguous middle part of `s` that neither starts nor ends with a
   * blank character, and everything it drops on either side is blank.
   */
  lemma TrimSpec(s: string)
    ensures var r := Trim(s);
      && (r == [] || (!IsWhitespaceOrNewline(r[0]) && !IsWhitespaceOrNewline(r[|r| - 1])))
      && exists a :: 0 <= a <= |s| - |r| && r == s[a..a + |r|] && IsBlank(s[..a]) && IsBlank(s[a + |r|..])
  {
    var lead := TrimLeading(s);
    TrimLeadingSpec(s);
    TrimTrailingSpec(lead);
    var r := Trim(s);
    var a := |s| - |lead|;
    assert r == s[a..a + |r|];
    assert s[a + |r|..] == lead[|r|..];
  }

  /** The trimmed text is empty exactly when every character is blank. */
  lemma TrimEmptyIff(s: string)
    ensures Trim(s) == [] <==> IsBlank(s)
  {
    var lead := TrimLeading(s);
    TrimLeadingSpec(s);
    TrimTrailingSpec(lead);
  }

  /** Trimming twice is trimming once. */
  lemma TrimIdempotent(s: string)
    ensures Trim(Trim(s)) == Trim(s)
  {
    var lead := TrimLeading(s);
    TrimLeadingSpec(s);
    TrimTrailingSpec(lead);
    var r := Trim(s);
    if r != [] {
      assert r[0] == lead[0];
    }
  }

  /** `isValidContact`: a non-blank name, a non-blank phone of at least ten characters; the avatar is not checked. */
  predicate IsValidContact(c: Contact) {
    Trim(c.name) != "" && Trim(c.phone) != "" && |c.phone| >= 10
  }

  /** A contact is valid exactly when neither field is blank and the phone has ten characters or more. */
  lemma ValidContactMeaning(c: Contact)
    ensures IsValidContact(c) <==> !IsBlank(c.name) && !IsBlank(c.phone) && |c.phone| >= 10
  {
    TrimEmptyIff(c.name);
    TrimEmptyIff(c.phone);
  }

  /** `getContact(by:)`: the first contact with that identifier. */
  function FindContact(contacts: seq<Contact>, id: Uuid): (r: Option<Contact>)
    ensures r.Some? <==> HasKey(contacts, ContactId, id)
    ensures r.Some? ==> r.value in contacts && r.value.id == id
  {
    FirstWithKey(contacts, ContactId, id)
  }

  /**
   * `isValidMessage`: non-blank content, a date strictly after `now`, an avatar, and a
   * contact that resolves; the repeat mode and the delivery flag are not checked.
   */
  predicate IsValidMessage(m: ScheduledMessage, contacts: seq<Contact>, now: Date)
    ensures IsValidMessage(m, contacts, now) <==>
      !IsBlank(m.content) && m.scheduledDate > now && m.avatarId != "" && HasKey(contacts, ContactId, m.contactId)
  {
    TrimEmptyIff(m.content);
    Trim(m.content) != "" && m.scheduledDate > now && m.avatarId != "" && FindContact(contacts, m.contactId).Some?
  }

  /** `isValidReceivedMessage`: non-blank content and an avatar; the sender is not looked up. */
  predicate IsValidReceivedMessage(m: ReceivedMessage) {
    Trim(m.content) != "" && m.avatarId != ""
  }

  /** A received message is valid exactly when its content is not blank and it names an avatar. */
  lemma ValidReceivedMessageMeaning(m: ReceivedMessage)
    ensures IsValidReceivedMessage(m) <==> !IsBlank(m.content) && m.avatarId != ""
  {
    TrimEmptyIff(m.content);
  }

  /** The `uuidString` of a received message's identifier, the key deep links use. */
  function ReceivedIdString(m: ReceivedMessage): string {
    UuidString(m.id)
  }

  /** `getReceivedMessage(by:)`: the first received message whose `uuidString` is exactly `id`. */
  function FindReceivedMessage(messages: seq<ReceivedMessage>, id: string): (r: Option<ReceivedMessage>)
    ensures r.Some? ==> r.value in messages && ReceivedIdString(r.value) == id
    ensures r.None? <==> forall m :: m in messages ==> ReceivedIdString(m) != id
  {
    FirstWithKey(messages, ReceivedIdString, id)
  }

  /** The scheduled messages still valid at `now` against `contacts`, in order. */
  function ValidMessagesAt(messages: seq<ScheduledMessage>, contacts: seq<Contact>, now: Date): seq<ScheduledMessage> {
    Filter(messages, m => IsValidMessage(m, contacts, now))
  }

  /** `receivedMessages` after `markMessageAsRead(id)`: the first message with that identifier is flagged read. */
  function MarkRead(messages: seq<ReceivedMessage>, id: Uuid): (r: seq<ReceivedMessage>)
    ensures |r| == |messages|
    ensures forall j :: 0 <= j < |r| ==> r[j].(isRead := messages[j].isRead) == messages[j]
    ensures forall j: nat :: j < |r| ==> r[j].isRead == (messages[j].isRead || FirstIndex(messages, ReceivedId, id) == Some(j))
  {
    match FirstIndex(messages, ReceivedId, id)
    case None => messages
    case Some(i) => messages[i := messages[i].(isRead := true)]
  }

  /** With unique identifiers, marking read flags exactly the messages carrying that identifier. */
  lemma MarkReadUnique(messages: seq<ReceivedMessage>, id: Uuid)
    requires UniqueBy(messages, ReceivedId)
    ensures forall j :: 0 <= j < |messages| ==>
      MarkRead(messages, id)[j].isRead == (messages[j].isRead || messages[j].id == id)
  {
    forall j: nat | j < |messages|
      ensures MarkRead(messages, id)[j].isRead == (messages[j].isRead || messages[j].id == id)
    {
      var first := FirstIndex(messages, ReceivedId, id);
      if messages[j].id == id {
        assert first.Some?;
      }
    }
  }

  /** Marking the same message read twice is marking it once. */
  lemma MarkReadIdempotent(messages: seq<ReceivedMessage>, id: Uuid)
    ensures MarkRead(MarkRead(messages, id), id) == MarkRead(messages, id)
  {
    var once := MarkRead(messages, id);
    assert forall j :: 0 <= j < |once| ==> ReceivedId(once[j]) == ReceivedId(messages[j]);
    assert FirstIndex(once, ReceivedId, id) == FirstIndex(messages, ReceivedId, id) by {
      FirstIndexSameKeys(messages, once, id);
    }
  }

  lemma {:induction false} FirstIndexSameKeys(a: seq<ReceivedMessage>, b: seq<ReceivedMessage>, id: Uuid)
    requires |a| == |b| && forall j :: 0 <= j < |a| ==> ReceivedId(a[j]) == ReceivedId(b[j])
    ensures FirstIndex(a, ReceivedId, id) == FirstIndex(b, ReceivedId, id)
  {
    if a != [] {
      FirstIndexSameKeys(a[1..], b[1..], id);
    }
  }

  /** What `saveToUserDefaults` writes: only the records that pass the validity checks at `now`. */
  datatype Snapshot = Snapshot(
    contacts: seq<Contact>,
    scheduledMessages: seq<ScheduledMessage>,
    receivedMessages: seq<ReceivedMessage>)

  function SnapshotOf(contacts: seq<Contact>, scheduled: seq<ScheduledMessage>, received: seq<ReceivedMessage>,
                      now: Date): Snapshot
  {
    Snapshot(Filter(contacts, IsValidContact), ValidMessagesAt(scheduled, contacts, now),
             Filter(received, IsValidReceivedMessage))
  }

  /** The snapshot holds exactly the records that pass the validity checks, and no more of each than memory does. */
  lemma SnapshotHoldsValidRecords(contacts: seq<Contact>, scheduled: seq<ScheduledMessage>,
                                  received: seq<ReceivedMessage>, now: Date)
    ensures var snap := SnapshotOf(contacts, scheduled, received, now);
      && (forall c :: c in snap.contacts <==> c in contacts && IsValidContact(c))
      && (forall m :: m in snap.scheduledMessages <==> m in scheduled && IsValidMessage(m, contacts, now))
      && (forall m :: m in snap.receivedMessages <==> m in received && IsValidReceivedMessage(m))
      && multiset(snap.contacts) <= multiset(contacts)
      && multiset(snap.scheduledMessages) <= multiset(scheduled)
      && multiset(snap.receivedMessages) <= multiset(received)
  {
  }

  /** One key of the key-value store as the loader sees it: missing, undecodable, or a decoded array. */
  datatype Stored<T> = Absent | Corrupt | Present(items: seq<T>)

  /** The key-value store contents read at start-up. */
  datatype Defaults = Defaults(
    contacts: Stored<Contact>,
    scheduledMessages: Stored<ScheduledMessage>,
    receivedMessages: Stored<ReceivedMessage>,
    settings: Option<UserSettings>)

  /** The three arrays `loadFromUserDefaults` leaves in a store whose arrays start empty. */
  function LoadedRecords(d: Defaults, now: Date): (r: Snapshot)
    ensures forall c :: c in r.contacts ==> IsValidContact(c)
    ensures forall m :: m in r.scheduledMessages ==> IsValidMessage(m, r.contacts, now)
    ensures forall m :: m in r.receivedMessages ==> IsValidReceivedMessage(m)
  {
    if d.contacts.Corrupt? then Snapshot([], [], [])
    else
      var contacts := if d.contacts.Present? then Filter(d.contacts.items, IsValidContact) else [];
      if d.scheduledMessages.Corrupt? then Snapshot(contacts, [], [])
      else
        Snapshot(contacts,
                 if d.scheduledMessages.Present? then ValidMessagesAt(d.scheduledMessages.items, contacts, now) else [],
                 if d.receivedMessages.Present? then Filter(d.receivedMessages.items, IsValidReceivedMessage) else [])
  }

  /** The identifiers `UUID()` draws for the records of a snapshot as they are decoded, one per record. */
  datatype RedrawnIds = RedrawnIds(contacts: seq<Uuid>, scheduledMessages: seq<Uuid>, receivedMessages: seq<Uuid>)

  predicate FitsSnapshot(ids: RedrawnIds, snap: Snapshot) {
    && |ids.contacts| == |snap.contacts|
    && |ids.scheduledMessages| == |snap.scheduledMessages|
    && |ids.receivedMessages| == |snap.receivedMessages|
  }

  /**
   * Decoding a saved snapshot as the records' synthesized `Codable` conformance does:
   * a `let id` with an initial value is not decoded, so each record gets the identifier
   * drawn for it; every other field, `contactId` included, comes back as saved.
   */
  function DecodeAsWritten(snap: Snapshot, ids: RedrawnIds): Defaults
    requires FitsSnapshot(ids, snap)
  {
    Defaults(
      Present(seq(|snap.contacts|, i requires 0 <= i < |snap.contacts| => snap.contacts[i].(id := ids.contacts[i]))),
      Present(seq(|snap.scheduledMessages|, i requires 0 <= i < |snap.scheduledMessages| =>
        snap.scheduledMessages[i].(id := ids.scheduledMessages[i]))),
      Present(seq(|snap.receivedMessages|, i requires 0 <= i < |snap.receivedMessages| =>
        snap.receivedMessages[i].(id := ids.receivedMessages[i]))),
      None)
  }

  /**
   * As written, a relaunch loses every saved scheduled message: the saved contacts come
   * back under identifiers no message refers to, so no `contactId` resolves and
   * `isValidMessage` drops them all.
   */
  lemma ReloadAsWrittenDropsScheduled(snap: Snapshot, ids: RedrawnIds, now: Date)
    requires FitsSnapshot(ids, snap)
    requires forall m :: m in snap.scheduledMessages ==> m.contactId !in ids.contacts
    ensures LoadedRecords(DecodeAsWritten(snap, ids), now).scheduledMessages == []
  {
    var d := DecodeAsWritten(snap, ids);
    var contacts := Filter(d.contacts.items, IsValidContact);
    var keep := m => IsValidMessage(m, contacts, now);
    forall m | m in d.scheduledMessages.items ensures !keep(m) {
      var j :| 0 <= j < |d.scheduledMessages.items| && d.scheduledMessages.items[j] == m;
      assert snap.scheduledMessages[j] in snap.scheduledMessages;
    }
    FilterKeepsNone(d.scheduledMessages.items, keep);
  }

  /** One valid contact with one message scheduled for them: the save keeps the message, the reload does not. */
  lemma SavedScheduledMessageIsLost(c: Contact, m: ScheduledMessage, contactId: Uuid, messageId: Uuid, now: Date)
    requires IsValidContact(c) && IsValidMessage(m, [c], now) && contactId != c.id
    ensures SnapshotOf([c], [m], [], now).scheduledMessages == [m]
    ensures LoadedRecords(DecodeAsWritten(SnapshotOf([c], [m], [], now), RedrawnIds([contactId], [messageId], [])), now)
              .scheduledMessages == []
  {
    var snap := SnapshotOf([c], [m], [], now);
    FilterKeepsAll([c], IsValidContact);
    FilterKeepsAll([m], x => IsValidMessage(x, [c], now));
    assert snap == Snapshot([c], [m], []);
    assert ContactId(FindContact([c], m.contactId).value) == m.contactId;
    ReloadAsWrittenDropsScheduled(snap, RedrawnIds([contactId], [messageId], []), now);
  }

  /** Decoding that gives every record back the identifier it was saved with. */
  function DecodePreservingIds(snap: Snapshot): Defaults {
    Defaults(Present(snap.contacts), Present(snap.scheduledMessages), Present(snap.receivedMessages), None)
  }

  /**
   * With identifiers preserved, loading what was saved, at the same clock reading, gives
   * back exactly the saved records (given that the in-memory contacts are valid, which
   * the store maintains).
   */
  lemma ReloadPreservingIdsKeepsSnapshot(contacts: seq<Contact>, scheduled: seq<ScheduledMessage>,
                                         received: seq<ReceivedMessage>, now: Date)
    requires forall c :: c in contacts ==> IsValidContact(c)
    ensures var snap := SnapshotOf(contacts, scheduled, received, now);
      LoadedRecords(DecodePreservingIds(snap), now) == snap
  {
    FilterKeepsAll(contacts, IsValidContact);
    FilterIdempotent(contacts, IsValidContact);
    FilterIdempotent(scheduled, m => IsValidMessage(m, contacts, now));
    FilterIdempotent(received, IsValidReceivedMessage);
  }

  /** A contact added to a store that lacks its identifier is what `getContact(by:)` then finds. */
  lemma AddedContactIsFound(contacts: seq<Contact>, c: Contact)
    requires !HasKey(contacts, ContactId, c.id)
    ensures FindContact(contacts + [c], c.id) == Some(c)
  {
    HasKeyIff(contacts, ContactId, c.id);
    var all := contacts + [c];
    assert ContactId(all[|contacts|]) == c.id;
    var i :| 0 <= i < |all| && all[i] == FindContact(all, c.id).value && forall j :: 0 <= j < i ==> ContactId(all[j]) != c.id;
    assert forall j :: 0 <= j < |contacts| ==> all[j] == contacts[j];
  }

  /** With unique identifiers, the deep-link lookup by `uuidString` finds a stored message. */
  lemma StoredMessageIsFoundByString(messages: seq<ReceivedMessage>, m: ReceivedMessage)
    requires UniqueBy(messages, ReceivedId) && m in messages
    ensures FindReceivedMessage(messages, UuidString(m.id)) == Some(m)
  {
    var k :| 0 <= k < |messages| && messages[k] == m;
    assert ReceivedIdString(messages[k]) == UuidString(m.id);
    var found := FindReceivedMessage(messages, UuidString(m.id));
    var i :| 0 <= i < |messages| && messages[i] == found.value
      && forall j :: 0 <= j < i ==> ReceivedIdString(messages[j]) != UuidString(m.id);
    UuidStringInjective(messages[i].id, m.id);
    assert ReceivedId(messages[i]) == ReceivedId(messages[k]);
    assert i == k;
  }

  /** The guard of `scheduleMessage`: valid at `now` and not already scheduled. */
  predicate CanSchedule(message: ScheduledMessage, contacts: seq<Contact>, scheduled: seq<ScheduledMessage>, now: Date)
    ensures CanSchedule(message, contacts, scheduled, now) ==> FindContact(contacts, message.contactId).Some?
  {
    IsValidMessage(message, contacts, now) && !HasKey(scheduled, ScheduledId, message.id)
  }

  class DataStore {
    var contacts: seq<Contact>
    var scheduledMessages: seq<ScheduledMessage>
    var receivedMessages: seq<ReceivedMessage>
    var avatars: seq<AnimatedAvatar>
    var selectedContactId: Option<Uuid>
    var userSettings: UserSettings
    const notifications: NotificationManager
    /** The last snapshot written to the key-value store by this run, if any. */
    ghost var saved: Option<Snapshot>

    /**
     * Only valid contacts and valid received messages are ever held. Scheduled messages
     * are not covered: their validity depends on the clock. The operations on
     * scheduled messages keep this by their frame alone.
     */
    ghost predicate Valid()
      reads this`contacts, this`receivedMessages
    {
      && (forall c :: c in contacts ==> IsValidContact(c))
      && (forall m :: m in receivedMessages ==> IsValidReceivedMessage(m))
    }

    /** `init()`: empty collections and default settings, then whatever the key-value store holds. */
    constructor (notifications: NotificationManager, avatarIds: seq<Uuid>, defaults: Defaults, now: Date)
      requires |avatarIds| == 5
      ensures Valid()
      ensures this.notifications == notifications
      ensures avatars == DefaultAvatars(avatarIds) && selectedContactId == None && saved == None
      ensures userSettings == if defaults.settings.Some? then defaults.settings.value else DefaultSettings
      ensures contacts == if defaults.contacts.Present? then Filter(defaults.contacts.items, IsValidContact) else []
      ensures scheduledMessages ==
        if !defaults.contacts.Corrupt? && defaults.scheduledMessages.Present?
        then ValidMessagesAt(defaults.scheduledMessages.items, contacts, now) else []
      ensures receivedMessages ==
        if !defaults.contacts.Corrupt? && !defaults.scheduledMessages.Corrupt? && defaults.receivedMessages.Present?
        then Filter(defaults.receivedMessages.items, IsValidReceivedMessage) else []
      ensures Snapshot(contacts, scheduledMessages, receivedMessages) == LoadedRecords(defaults, now)
    {
      this.notifications := notifications;
      contacts, scheduledMessages, receivedMessages := [], [], [];
      avatars := DefaultAvatars(avatarIds);
      selectedContactId := None;
      userSettings := DefaultSettings;
      saved := None;
      new;
      LoadFromUserDefaults(defaults, now);
      LoadSettings(defaults.settings);
    }

    /**
     * `loadFromUserDefaults`: each present key replaces its array by the valid decoded
     * records; an undecodable key abandons the keys after it.
     */
    method LoadFromUserDefaults(defaults: Defaults, now: Date)
      requires Valid()
      modifies this`contacts, this`scheduledMessages, this`receivedMessages
      ensures Valid()
      ensures contacts == if defaults.contacts.Present? then Filter(defaults.contacts.items, IsValidContact) else old(contacts)
      ensures scheduledMessages ==
        if !defaults.contacts.Corrupt? && defaults.scheduledMessages.Present?
        then ValidMessagesAt(defaults.scheduledMessages.items, contacts, now) else old(scheduledMessages)
      ensures receivedMessages ==
        if !defaults.contacts.Corrupt? && !defaults.scheduledMessages.Corrupt? && defaults.receivedMessages.Present?
        then Filter(defaults.receivedMessages.items, IsValidReceivedMessage) else old(receivedMessages)
    {
      if defaults.contacts.Corrupt? {
        return;
      }
      if defaults.contacts.Present? {
        contacts := Filter(defaults.contacts.items, IsValidContact);
      }
      if defaults.scheduledMessages.Corrupt? {
        return;
      }
      if defaults.scheduledMessages.Present? {
        scheduledMessages := ValidMessagesAt(defaults.scheduledMessages.items, contacts, now);
      }
      if defaults.receivedMessages.Present? {
        receivedMessages := Filter(defaults.receivedMessages.items, IsValidReceivedMessage);
      }
    }

    /** `loadSettings`: the decoded settings if any, otherwise the current ones. */
    method LoadSettings(stored: Option<UserSettings>)
      modifies this`userSettings
      ensures userSettings == if stored.Some? then stored.value else old(userSettings)
    {
      if stored.Some? {
        userSettings := stored.value;
      }
    }

    /** `saveToUserDefaults`: writes the records that pass the validity checks at `now`. */
    method SaveToUserDefaults(now: Date)
      modifies this`saved
      ensures saved == Some(SnapshotOf(contacts, scheduledMessages, receivedMessages, now))
    {
      saved := Some(SnapshotOf(contacts, scheduledMessages, receivedMessages, now));
    }

    /** `addContact`: appends a valid contact whose identifier is new, otherwise changes nothing. */
    method AddContact(contact: Contact, now: Date)
      requires Valid()
      modifies this`contacts, this`saved
      ensures Valid()
      ensures UniqueBy(old(contacts), ContactId) ==> UniqueBy(contacts, ContactId)
      ensures var accepted := IsValidContact(contact) && !HasKey(old(contacts), ContactId, contact.id);
        && contacts == (if accepted then old(contacts) + [contact] else old(contacts))
        && saved == (if accepted then Some(SnapshotOf(contacts, scheduledMessages, receivedMessages, now)) else old(saved))
    {
      if !IsValidContact(contact) || HasKey(contacts, ContactId, contact.id) {
        return;
      }
      if UniqueBy(contacts, ContactId) {
        AppendKeepsUnique(contacts, ContactId, contact);
      }
      contacts := contacts + [contact];
      SaveToUserDefaults(now);
    }

    /** `deleteContact`: removes every contact with that identifier, keeping the others in order. */
    method DeleteContact(contact: Contact, now: Date)
      requires Valid()
      modifies this`contacts, this`saved
      ensures Valid()
      ensures UniqueBy(old(contacts), ContactId) ==> UniqueBy(contacts, ContactId)
      ensures contacts == RemoveKey(old(contacts), ContactId, contact.id)
      ensures saved == Some(SnapshotOf(contacts, scheduledMessages, receivedMessages, now))
    {
      contacts := RemoveKey(contacts, ContactId, contact.id);
      SaveToUserDefaults(now);
    }

    /**
     * `scheduleMessage`: appends a message valid at `now` whose identifier is new and asks
     * the notification centre for one request for it; otherwise changes nothing.
     */
    method ScheduleMessage(message: ScheduledMessage, now: Date)
      modifies this`scheduledMessages, this`saved, notifications`calls
      ensures UniqueBy(old(scheduledMessages), ScheduledId) ==> UniqueBy(scheduledMessages, ScheduledId)
      ensures old(CanSchedule(message, contacts, scheduledMessages, now)) ==>
        && scheduledMessages == old(scheduledMessages) + [message]
        && saved == Some(SnapshotOf(contacts, scheduledMessages, receivedMessages, now))
        && notifications.calls == old(notifications.calls) + [AddRequest(LocalNotificationRequest(message, FindContact(old(contacts), message.contactId).value))]
      ensures !old(CanSchedule(message, contacts, scheduledMessages, now)) ==>
        && scheduledMessages == old(scheduledMessages) && saved == old(saved) && notifications.calls == old(notifications.calls)
    {
      if !CanSchedule(message, contacts, scheduledMessages, now) {
        return;
      }
      var contact := FindContact(contacts, message.contactId);
      if UniqueBy(scheduledMessages, ScheduledId) {
        AppendKeepsUnique(scheduledMessages, ScheduledId, message);
      }
      scheduledMessages := scheduledMessages + [message];
      SaveToUserDefaults(now);
      if contact.Some? {
        notifications.ScheduleLocalNotification(message, contact.value);
      }
    }

    /** `cancelMessage`: removes every message with that identifier and always cancels its request. */
    method CancelMessage(message: ScheduledMessage, now: Date)
      modifies this`scheduledMessages, this`saved, notifications`calls
      ensures UniqueBy(old(scheduledMessages), ScheduledId) ==> UniqueBy(scheduledMessages, ScheduledId)
      ensures scheduledMessages == RemoveKey(old(scheduledMessages), ScheduledId, message.id)
      ensures notifications.calls == old(notifications.calls) + [RemovePending([UuidString(message.id)])]
      ensures saved == Some(SnapshotOf(contacts, scheduledMessages, receivedMessages, now))
    {
      scheduledMessages := RemoveKey(scheduledMessages, ScheduledId, message.id);
      notifications.CancelNotification(UuidString(message.id));
      SaveToUserDefaults(now);
    }

    /** `addReceivedMessage`: appends a valid message whose identifier is new, otherwise changes nothing. */
    method AddReceivedMessage(message: ReceivedMessage, now: Date)
      requires Valid()
      modifies this`receivedMessages, this`saved
      ensures Valid()
      ensures UniqueBy(old(receivedMessages), ReceivedId) ==> UniqueBy(receivedMessages, ReceivedId)
      ensures var accepted := IsValidReceivedMessage(message) && !HasKey(old(receivedMessages), ReceivedId, message.id);
        && receivedMessages == (if accepted then old(receivedMessages) + [message] else old(receivedMessages))
        && saved == (if accepted then Some(SnapshotOf(contacts, scheduledMessages, receivedMessages, now)) else old(saved))
    {
      if !IsValidReceivedMessage(message) || HasKey(receivedMessages, ReceivedId, message.id) {
        return;
      }
      if UniqueBy(receivedMessages, ReceivedId) {
        AppendKeepsUnique(receivedMessages, ReceivedId, message);
      }
      receivedMessages := receivedMessages + [message];
      SaveToUserDefaults(now);
    }

    /** `markMessageAsRead`: flags the first message with that identifier; an unknown identifier is a no-op. */
    method MarkMessageAsRead(messageId: Uuid, now: Date)
      requires Valid()
      modifies this`receivedMessages, this`saved
      ensures Valid()
      ensures UniqueBy(old(receivedMessages), ReceivedId) ==> UniqueBy(receivedMessages, ReceivedId)
      ensures receivedMessages == MarkRead(old(receivedMessages), messageId)
      ensures saved == if HasKey(old(receivedMessages), ReceivedId, messageId)
                       then Some(SnapshotOf(contacts, scheduledMessages, receivedMessages, now)) else old(saved)
    {
      var index := FirstIndex(receivedMessages, ReceivedId, messageId);
      if index.Some? {
        ghost var before := receivedMessages;
        receivedMessages := receivedMessages[index.value := receivedMessages[index.value].(isRead := true)];
        assert forall j :: 0 <= j < |before| ==> ReceivedId(receivedMessages[j]) == ReceivedId(before[j]);
        assert forall m :: m in receivedMessages ==> IsValidReceivedMessage(m) by {
          forall m | m in receivedMessages ensures IsValidReceivedMessage(m) {
            var j :| 0 <= j < |receivedMessages| && receivedMessages[j] == m;
            assert before[j] in before;
          }
        }
        SaveToUserDefaults(now);
      }
    }
  }
}
