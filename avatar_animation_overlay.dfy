/**
 * The reveal overlay of KnockAvatar (Views/AvatarAnimationOverlay.swift). The
 * view owns a tap counter and a `showMessage` flag; the third tap on the avatar
 * reveals the pending message and marks it read in the store. Dismissing clears
 * the three overlay fields of the shared `NotificationManager`.
 *
 * A view instance is created each time the overlay is presented, so its own
 * state starts at no taps and hidden; the constructor models that.
 */
module Overlay {
  import opened Wrappers
  import opened Models
  import opened Notifications
  import opened Seqs
  import opened Store

  /** The overlay's own state. */
  datatype TapState = TapState(tapCount: nat, showMessage: bool)

  /** The state of a freshly presented overlay. */
  const Initial: TapState := TapState(0, false)

  /** The tap taken in state `s` is the one that reveals the message and marks it read. */
  predicate RevealsOnTap(s: TapState) {
    s.tapCount + 1 >= 3 && !s.showMessage
  }

  /** The state after one tap on the avatar. */
  function Tap(s: TapState): (r: TapState)
    ensures r.tapCount == s.tapCount + 1
    ensures s.showMessage ==> r.showMessage
    ensures r.showMessage && !s.showMessage ==> RevealsOnTap(s)
  {
    TapState(s.tapCount + 1, s.showMessage || RevealsOnTap(s))
  }

  /** The state after `n` taps on a freshly presented overlay. */
  function AfterTaps(n: nat): TapState {
    if n == 0 then Initial else Tap(AfterTaps(n - 1))
  }

  /** After `n` taps the counter is `n` and the message is shown exactly when `n >= 3`. */
  lemma {:induction false} AfterTapsShows(n: nat)
    ensures AfterTaps(n) == TapState(n, n >= 3)
  {
    if n > 0 {
      AfterTapsShows(n - 1);
    }
  }

  /** Only the third tap reveals: no earlier one, and no later one. */
  lemma ThirdTapReveals(n: nat)
    ensures RevealsOnTap(AfterTaps(n)) <==> n == 2
  {
    AfterTapsShows(n);
  }

  /** How many of the first `n` taps revealed the message. */
  function Reveals(n: nat): nat {
    if n == 0 then 0 else Reveals(n - 1) + (if RevealsOnTap(AfterTaps(n - 1)) then 1 else 0)
  }

  /** Whatever the number of taps, the message is revealed (and marked read) at most once, and once from the third tap on. */
  lemma {:induction false} RevealsAtMostOnce(n: nat)
    ensures Reveals(n) == if n >= 3 then 1 else 0
  {
    if n > 0 {
      RevealsAtMostOnce(n - 1);
      ThirdTapReveals(n - 1);
    }
  }

  class AvatarAnimationOverlay {
    var tapCount: nat
    var showMessage: bool
    const notifications: NotificationManager
    const store: DataStore
    /** How many times this overlay has asked the store to mark a message read. */
    ghost var readMarks: nat

    function State(): TapState
      reads this`tapCount, this`showMessage
    {
      TapState(tapCount, showMessage)
    }

    /** The message shows from the third tap on, and at most one read mark has been made, only after the reveal. */
    ghost predicate Valid()
      reads this`tapCount, this`showMessage, this`readMarks
    {
      && showMessage == (tapCount >= 3)
      && readMarks <= (if showMessage then 1 else 0)
    }

    constructor (notifications: NotificationManager, store: DataStore)
      ensures Valid() && State() == Initial && readMarks == 0
      ensures this.notifications == notifications && this.store == store
    {
      tapCount, showMessage := 0, false;
      this.notifications, this.store := notifications, store;
      readMarks := 0;
    }

    /**
     * `handleAvatarTap`: counts the tap; on the tap that reveals, marks the pending
     * message (if any) read in the store. The 3-second auto-dismiss is not modelled.
     */
    method HandleAvatarTap(now: Date)
      requires Valid() && store.Valid()
      modifies this`tapCount, this`showMessage, this`readMarks, store`receivedMessages, store`saved
      ensures Valid() && store.Valid()
      ensures State() == Tap(old(State()))
      ensures UniqueBy(old(store.receivedMessages), ReceivedId) ==> UniqueBy(store.receivedMessages, ReceivedId)
      ensures var marks := old(RevealsOnTap(State())) && notifications.pendingMessage.Some?;
        && readMarks == old(readMarks) + (if marks then 1 else 0)
        && store.receivedMessages ==
             (if marks then MarkRead(old(store.receivedMessages), notifications.pendingMessage.value.id)
              else old(store.receivedMessages))
        && store.saved ==
             (if marks && HasKey(old(store.receivedMessages), ReceivedId, notifications.pendingMessage.value.id)
              then Some(SnapshotOf(store.contacts, store.scheduledMessages, store.receivedMessages, now))
              else old(store.saved))
    {
      tapCount := tapCount + 1;
      if tapCount >= 3 && !showMessage {
        showMessage := true;
        var pending := notifications.pendingMessage;
        if pending.Some? {
          store.MarkMessageAsRead(pending.value.id, now);
          readMarks := readMarks + 1;
        }
      }
    }

    /**
     * A tap on the avatar area: the tap handler is attached to the animation only;
     * while no animation name is set the fallback image shows and a tap does nothing.
     */
    method TapAvatarArea(now: Date)
      requires Valid() && store.Valid()
      modifies this`tapCount, this`showMessage, this`readMarks, store`receivedMessages, store`saved
      ensures Valid() && store.Valid()
      ensures notifications.currentAvatarAnimation.None? ==>
        && State() == old(State()) && readMarks == old(readMarks)
        && store.receivedMessages == old(store.receivedMessages) && store.saved == old(store.saved)
      ensures notifications.currentAvatarAnimation.Some? ==>
        && State() == Tap(old(State()))
        && var marks := old(RevealsOnTap(State())) && notifications.pendingMessage.Some?;
           && readMarks == old(readMarks) + (if marks then 1 else 0)
           && store.receivedMessages ==
                (if marks then MarkRead(old(store.receivedMessages), notifications.pendingMessage.value.id)
                 else old(store.receivedMessages))
           && store.saved ==
                (if marks && HasKey(old(store.receivedMessages), ReceivedId, notifications.pendingMessage.value.id)
                 then Some(SnapshotOf(store.contacts, store.scheduledMessages, store.receivedMessages, now))
                 else old(store.saved))
    {
      if notifications.currentAvatarAnimation.Some? {
        HandleAvatarTap(now);
      }
    }

    /** `dismissOverlay`: hides the overlay and forgets the pending message and animation. */
    method DismissOverlay()
      modifies notifications`showAnimationOverlay, notifications`pendingMessage, notifications`currentAvatarAnimation
      ensures !notifications.showAnimationOverlay
      ensures notifications.pendingMessage == None && notifications.currentAvatarAnimation == None
    {
      notifications.showAnimationOverlay := false;
      notifications.pendingMessage := None;
      notifications.currentAvatarAnimation := None;
    }

    /** A tap on the dimmed background dismisses, whatever the overlay's state. */
    method TapBackground()
      modifies notifications`showAnimationOverlay, notifications`pendingMessage, notifications`currentAvatarAnimation
      ensures !notifications.showAnimationOverlay
      ensures notifications.pendingMessage == None && notifications.currentAvatarAnimation == None
    {
      DismissOverlay();
    }
  }
}
