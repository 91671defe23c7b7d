/**
 * The composer of KnockAvatar (Views/ComposeMessageView.swift): the send-enable
 * rule, the scheduled message built from the form, the hand-off of a contact
 * preselected by a deep link, the reset of the form, and the two pickers (the
 * validated contacts, and the avatars of one category).
 */
module Compose {
  import opened Wrappers
  import opened Identifiers
  import opened Models
  import opened Seqs
  import opened Notifications
  import opened Store

  /** `canSendMessage`: a contact, a non-empty message of at most 500 characters, and an avatar. */
  predicate CanSendMessage(contact: Option<Contact>, content: string, avatar: Option<AnimatedAvatar>) {
    contact.Some? && content != "" && |content| <= 500 && avatar.Some?
  }

  /** The message `scheduleMessage()` builds from the form. */
  function ComposedMessage(id: Uuid, contact: Contact, content: string, date: Date, avatar: AnimatedAvatar,
                           repeatMode: RepeatMode, now: Date): (m: ScheduledMessage)
    ensures m.contactId == contact.id && m.content == content && m.scheduledDate == date
    ensures m.avatarId == avatar.lottieFileName && m.repeatMode == repeatMode
    ensures !m.isDelivered
  {
    NewScheduledMessage(id, contact.id, content, date, avatar.lottieFileName, now, repeatMode)
  }

  /**
   * A message the form can send is accepted by the store when its content is not all
   * blanks, its date is still ahead, the avatar has an animation name, the contact is
   * in the store and the fresh identifier is not already scheduled.
   */
  lemma ComposedMessageIsAccepted(id: Uuid, contact: Contact, content: string, date: Date, avatar: AnimatedAvatar,
                                  repeatMode: RepeatMode, now: Date,
                                  contacts: seq<Contact>, scheduled: seq<ScheduledMessage>)
    requires CanSendMessage(Some(contact), content, Some(avatar))
    requires Trim(content) != "" && date > now && avatar.lottieFileName != ""
    requires contact in contacts && !HasKey(scheduled, ScheduledId, id)
    ensures CanSchedule(ComposedMessage(id, contact, content, date, avatar, repeatMode, now), contacts, scheduled, now)
  {
    var k :| 0 <= k < |contacts| && contacts[k] == contact;
    assert ContactId(contacts[k]) == contact.id;
    HasKeyIff(contacts, ContactId, contact.id);
  }

  /**
   * The form and the store disagree on blank content: the form enables sending
   * " ", the store drops the message, and the form reports success anyway.
   */
  lemma BlankContentPassesFormOnly(id: Uuid, contact: Contact, date: Date, avatar: AnimatedAvatar,
                                   repeatMode: RepeatMode, now: Date, contacts: seq<Contact>)
    ensures CanSendMessage(Some(contact), " ", Some(avatar))
    ensures !IsValidMessage(ComposedMessage(id, contact, " ", date, avatar, repeatMode, now), contacts, now)
  {
    TrimEmptyIff(" ");
  }

  predicate IsValidated(c: Contact) {
    c.isValidated
  }

  /** The contacts `ContactPickerView` lists: the validated ones, in store order. */
  function PickableContacts(contacts: seq<Contact>): (r: seq<Contact>)
    ensures forall c :: c in r <==> c in contacts && c.isValidated
    ensures |r| <= |contacts|
  {
    Filter(contacts, IsValidated)
  }

  /** A contact added from the new-contact form is not validated, so it cannot be picked yet. */
  lemma NewContactIsNotPickable(contacts: seq<Contact>, c: Contact)
    requires !c.isValidated
    ensures PickableContacts(contacts + [c]) == PickableContacts(contacts)
  {
    FilterConcat(contacts, [c], IsValidated);
  }

  /** `AvatarPickerView.filteredAvatars`: all avatars, or those of the chosen category, in order. */
  function FilteredAvatars(avatars: seq<AnimatedAvatar>, category: Option<Category>): (r: seq<AnimatedAvatar>)
    ensures category.None? ==> r == avatars
    ensures category.Some? ==> forall a :: a in r <==> a in avatars && a.category == category.value
    ensures |r| <= |avatars|
  {
    if category.None? then avatars else Filter(avatars, (a: AnimatedAvatar) => a.category == category.value)
  }

  /** Filtering by category keeps the avatars' order: it distributes over concatenation. */
  lemma FilteredAvatarsKeepOrder(a: seq<AnimatedAvatar>, b: seq<AnimatedAvatar>, category: Option<Category>)
    ensures FilteredAvatars(a + b, category) == FilteredAvatars(a, category) + FilteredAvatars(b, category)
  {
    if category.Some? {
      FilterConcat(a, b, (x: AnimatedAvatar) => x.category == category.value);
    }
  }

  class ComposeMessageView {
    var selectedContact: Option<Contact>
    var messageContent: string
    var selectedDate: Date
    var selectedAvatar: Option<AnimatedAvatar>
    var repeatMode: RepeatMode
    var showSuccessAlert: bool
    const store: DataStore

    /** The initial form: no contact, no avatar, empty text, one hour from `now`, no repetition. */
    constructor (store: DataStore, now: Date)
      ensures selectedContact == None && messageContent == "" && selectedDate == now + 3600
      ensures selectedAvatar == None && repeatMode == NoRepeat && !showSuccessAlert
      ensures this.store == store
    {
      selectedContact, messageContent, selectedDate := None, "", now + 3600;
      selectedAvatar, repeatMode, showSuccessAlert := None, NoRepeat, false;
      this.store := store;
    }

    /**
     * `scheduleMessage()`: without a contact or an avatar nothing happens; otherwise the
     * built message goes to the store, which keeps, saves and schedules it only when
     * it accepts it, and the success alert is raised either way. Contacts and received
     * messages are left alone, so the store's `Valid()` is kept.
     */
    method ScheduleMessage(freshId: Uuid, now: Date)
      modifies this`showSuccessAlert, store`scheduledMessages, store`saved, store.notifications`calls
      ensures store.contacts == old(store.contacts) && store.receivedMessages == old(store.receivedMessages)
      ensures UniqueBy(old(store.scheduledMessages), ScheduledId) ==> UniqueBy(store.scheduledMessages, ScheduledId)
      ensures selectedContact.None? || selectedAvatar.None? ==>
        && showSuccessAlert == old(showSuccessAlert)
        && store.scheduledMessages == old(store.scheduledMessages) && store.saved == old(store.saved)
        && store.notifications.calls == old(store.notifications.calls)
      ensures selectedContact.Some? && selectedAvatar.Some? ==> showSuccessAlert
      ensures selectedContact.Some? && selectedAvatar.Some? ==>
        var m := ComposedMessage(freshId, selectedContact.value, messageContent, selectedDate,
                                 selectedAvatar.value, repeatMode, now);
        old(CanSchedule(m, store.contacts, store.scheduledMessages, now)) ==>
          && store.scheduledMessages == old(store.scheduledMessages) + [m]
          && store.saved == Some(SnapshotOf(store.contacts, store.scheduledMessages, store.receivedMessages, now))
          && store.notifications.calls == old(store.notifications.calls)
               + [AddRequest(LocalNotificationRequest(m, FindContact(store.contacts, m.contactId).value))]
      ensures selectedContact.Some? && selectedAvatar.Some? ==>
        var m := ComposedMessage(freshId, selectedContact.value, messageContent, selectedDate,
                                 selectedAvatar.value, repeatMode, now);
        !old(CanSchedule(m, store.contacts, store.scheduledMessages, now)) ==>
          && store.scheduledMessages == old(store.scheduledMessages) && store.saved == old(store.saved)
          && store.notifications.calls == old(store.notifications.calls)
    {
      if selectedContact.None? || selectedAvatar.None? {
        return;
      }
      var message := ComposedMessage(freshId, selectedContact.value, messageContent, selectedDate,
                                     selectedAvatar.value, repeatMode, now);
      store.ScheduleMessage(message, now);
      showSuccessAlert := true;
    }

    /** `resetForm()`: clears the form and puts the date one hour after `now`. */
    method ResetForm(now: Date)
      modifies this`selectedContact, this`messageContent, this`selectedDate, this`selectedAvatar, this`repeatMode
      ensures selectedContact == None && messageContent == "" && selectedDate == now + 3600
      ensures selectedAvatar == None && repeatMode == NoRepeat
    {
      selectedContact := None;
      messageContent := "";
      selectedDate := now + 3600;
      selectedAvatar := None;
      repeatMode := NoRepeat;
    }

    /**
     * `checkPreselectedContact()`: a contact preselected by a deep link is taken over
     * and the store's preselection cleared, but only if the identifier resolves.
     */
    method CheckPreselectedContact()
      modifies this`selectedContact, store`selectedContactId
      ensures var id := old(store.selectedContactId);
        if id.Some? && FindContact(store.contacts, id.value).Some?
        then selectedContact == FindContact(store.contacts, id.value) && store.selectedContactId == None
        else selectedContact == old(selectedContact) && store.selectedContactId == id
    {
      var id := store.selectedContactId;
      if id.Some? {
        var contact := FindContact(store.contacts, id.value);
        if contact.Some? {
          selectedContact := contact;
          store.selectedContactId := None;
        }
      }
    }
  }
}
