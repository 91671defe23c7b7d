# KnockAvatar, modelled in Dafny

KnockAvatar is an iOS app that sends a "knock": a short message that reaches a
contact as a notification. When the contact opens it, an animated avatar appears
and the text is revealed on the third tap. This project models the bookkeeping and
routing rules that sit between the app's screens and the platform notification
APIs, and proves what those rules promise.

- `Models` (`data_models.dfy`): the records and enumerations. These are contacts,
  scheduled and received messages, animated avatars and user settings, with their
  defaults and the five built-in avatars.
- `Identifiers` (`identifiers.dfy`): Foundation's `UUID`. It is 16 bytes, with the
  upper-case 8-4-4-4-12 `uuidString` and the failable `UUID(uuidString:)`, which
  accepts either case. Parsing inverts printing.
- `Seqs` (`seqs.dfy`): the array operations the app uses. These are `filter`,
  `removeAll(where:)`, `first(where:)`, `firstIndex(where:)`, `contains(where:)`
  and a newest-first sort.
- `Store` (`data_store.dfy`): the `DataStore` class.
  - It holds three arrays, changed in place by guarded operations.
  - Every mutation saves the records that pass the validity checks.
  - The key-value store write is a ghost `saved` snapshot.
  - Loading reapplies the same filters.
- `Notifications` (`notification_manager.dfy`): the notification payload codec and
  the overlay fields the handlers drive.
  - The codec is the `userInfo` built when scheduling and the validating decoder
    `extractMessageData`.
  - Calls to the platform notification centre are recorded in a ghost log.
- `Overlay` (`avatar_animation_overlay.dfy`): the reveal overlay's tap state
  machine.
- `DeepLinks` (`deep_link_manager.dfy`): the `knockavatar://` router, over a URL's
  path components.
- `AddContact` (`add_contact_view.dfy`): phone cleaning and formatting, and the
  contact record the new-contact form builds.
- `Compose` (`compose_message_view.dfy`): the composer's send rule, the message it
  builds, the form reset, the hand-off of a contact preselected by a deep link, and
  the contact and avatar pickers.
- `MessagesList` (`messages_list_view.dfy`): the searchable, newest-first list of
  received messages, and select, delete, replay and deep-link pickup.

Conventions of the model:
- The clock reading `now` is a parameter.
- Every `UUID()` the app draws is a parameter (`freshId`).
- Work the app queues on the main queue runs at once.
- The shared singletons (`DataStore.shared`, `NotificationManager.shared`) are
  object references handed to each class.
- `localizedCaseInsensitiveContains` is a parameter `contains`.
- `trimmingCharacters(in: .whitespacesAndNewlines)` is modelled concretely:
  - the characters trimmed are tab through carriage return, the space separators,
    U+0085 and the line and paragraph separators;
  - a string trims to empty exactly when every character is one of these.

Uniqueness of identifiers:
- Uniqueness is not an invariant of the store, because a load takes the decoded
  arrays as they come.
- Every mutator proves that it keeps identifiers unique when they were unique
  before.
- The store's invariant `Valid()` says that only valid contacts and valid received
  messages are held.

Two disagreements between the forms and the store are stated as lemmas:
- The new-contact form accepts a name made only of blanks, and the store then drops
  that contact.
- The composer accepts content made only of blanks, and the store drops the message
  while the composer still shows its success alert.

The model follows the code as written in both cases.

## Model

| member | source | states |
|---|---|---|
| Models.NewContact | Models/DataModels.swift:8-15 | A new contact carries the given identifier, name, phone and avatar, is created at `now`, and is not validated unless the caller says so. |
| Models.NewScheduledMessage | Models/DataModels.swift:18-26 | A new scheduled message carries the given fields, repeats `.none` by default, and is not delivered. |
| Models.RepeatModesAreDistinct | Models/DataModels.swift:28-34 | There are exactly five repeat modes, every mode is listed, and their raw values are pairwise distinct. |
| Models.DefaultAvatars | Models/DataModels.swift:108-114 | There are five built-in avatars, none premium, with pairwise distinct, non-empty animation names. |
| Models.NewReceivedMessage | Models/DataModels.swift:56-63 | A new received message is stamped with `now` and starts unread. |
| Identifiers.UuidString | Services/NotificationManager.swift:129 | A `uuidString` is 36 characters: upper-case hexadecimal digits, with dashes at offsets 8, 13, 18 and 23. |
| Identifiers.ParseUuid | Services/NotificationManager.swift:104 | `UUID(uuidString:)` succeeds exactly on 36 characters with dashes at 8, 13, 18 and 23 and hexadecimal digits (either case) elsewhere. |
| Identifiers.UnHexHex | Services/NotificationManager.swift:104 | Decoding hexadecimal recovers the bytes that were printed. |
| Identifiers.UuidRoundTrip | Services/NotificationManager.swift:104 | Parsing a UUID's `uuidString` gives back that UUID. |
| Identifiers.UuidStringInjective | Services/DataStore.swift:228 | Two UUIDs with the same `uuidString` are equal, so a lookup by string is a lookup by identifier. |
| Seqs.Filter | Services/DataStore.swift:108 | The filtered array holds exactly the elements that pass, each no more often than in the input. |
| Seqs.FilterConcat | Services/DataStore.swift:108 | Filtering distributes over concatenation, so it keeps the original order. |
| Seqs.FilterKeepsAll | Services/DataStore.swift:108 | An array whose elements all pass is unchanged by the filter. |
| Seqs.FilterKeepsNone | Services/DataStore.swift:108 | An array none of whose elements pass filters to the empty array. |
| Seqs.FilterIdempotent | Services/DataStore.swift:108 | Filtering twice with one predicate is filtering once. |
| Seqs.HasKeyIff | Services/DataStore.swift:171 | `contains(where: { $0.id == k })` holds exactly when some element has key `k`. |
| Seqs.AppendKeepsUnique | Services/DataStore.swift:170-180 | Appending an element whose key is absent keeps keys unique. |
| Seqs.FilterKeepsUnique | Services/DataStore.swift:108 | Filtering keeps keys unique. |
| Seqs.RemoveKey | Services/DataStore.swift:183 | `removeAll` by key keeps exactly the elements with another key, leaves the key absent, adds nothing, and keeps keys unique. |
| Seqs.RemoveAbsentKey | Services/DataStore.swift:183 | Removing a key that is absent changes nothing. |
| Seqs.FirstIndex | Services/DataStore.swift:232 | `firstIndex(where:)` gives the least index with the key, or nothing exactly when no element has it. |
| Seqs.FirstWithKey | Services/DataStore.swift:188 | `first(where:)` gives the element at the least index with the key, or nothing exactly when no element has it. |
| Seqs.Insert | Views/MessagesListView.swift:14 | Inserting into a newest-first array adds exactly that element and keeps the order. |
| Seqs.PrependKeepsNonIncreasing | Views/MessagesListView.swift:14 | Putting an element no older than the head in front of a newest-first array keeps it newest first. |
| Seqs.SortDescending | Views/MessagesListView.swift:14 | The sort is a permutation of its input, in non-increasing key order. |
| Store.TrimLeadingSpec | Services/DataStore.swift:294 | Leading trimming drops the longest prefix of blank characters. |
| Store.TrimTrailingSpec | Services/DataStore.swift:294 | Trailing trimming drops the longest suffix of blank characters. |
| Store.TrimSpec | Services/DataStore.swift:294 | Trimming keeps a contiguous middle part that neither starts nor ends with a blank, and drops only blanks. |
| Store.TrimEmptyIff | Services/DataStore.swift:294 | A string trims to empty exactly when all of its characters are blank. |
| Store.TrimIdempotent | Services/DataStore.swift:294 | Trimming twice is trimming once. |
| Store.IsValidContact | Services/DataStore.swift:293-297 | A contact is valid exactly when its name and phone are not all blanks and the phone has at least ten characters (with Store.ValidContactMeaning). |
| Store.ValidContactMeaning | Services/DataStore.swift:293-297 | A contact is valid exactly when neither its name nor its phone is made only of blanks and the phone has at least ten characters. |
| Store.FindContact | Services/DataStore.swift:187-189 | `getContact(by:)` finds a contact exactly when one has that identifier, and what it finds is a stored contact with that identifier. |
| Store.IsValidMessage | Services/DataStore.swift:299-304 | A scheduled message is valid exactly when its content is not all blanks, its date is strictly after `now`, it names an avatar, and its contact is in the given contacts. |
| Store.IsValidReceivedMessage | Services/DataStore.swift:306-309 | A received message is valid exactly when its content is not all blanks and it names an avatar (with Store.ValidReceivedMessageMeaning); its sender is not looked up. |
| Store.ValidReceivedMessageMeaning | Services/DataStore.swift:306-309 | A received message is valid exactly when its content is not made only of blanks and its avatar name is not empty. |
| Store.FindReceivedMessage | Services/DataStore.swift:227-229 | `getReceivedMessage(by:)` finds a stored message whose `uuidString` is the given text, and finds nothing exactly when no stored message has that `uuidString`. |
| Store.MarkRead | Services/DataStore.swift:231-236 | Marking read keeps the length and every field except `isRead`, and sets `isRead` only on the first message with that identifier. |
| Store.MarkReadUnique | Services/DataStore.swift:231-236 | With unique identifiers, exactly the message with that identifier becomes read. |
| Store.MarkReadIdempotent | Services/DataStore.swift:231-236 | Marking the same message read twice is marking it once. |
| Store.SnapshotOf | Services/DataStore.swift:127-148 | What a save writes: the contacts, scheduled messages and received messages that pass the validity checks at `now`, in order (its properties are Store.SnapshotHoldsValidRecords). |
| Store.SnapshotHoldsValidRecords | Services/DataStore.swift:127-148 | The saved snapshot holds exactly the in-memory records that pass the validity checks at `now`. |
| Store.LoadedRecords | Services/DataStore.swift:104-125 | What a load leaves in empty arrays: every loaded contact and received message is valid, and every loaded scheduled message is valid against the loaded contacts at `now`. An undecodable key abandons the keys after it. |
| Store.DecodeAsWritten | Models/DataModels.swift:8-9 | Decoding as the synthesized `Codable` conformance does: each record gets a newly drawn identifier, every other field comes back as saved. |
| Store.ReloadAsWrittenDropsScheduled | Services/DataStore.swift:104-125 | When the saved messages' contact ids are none of the ids drawn for the decoded contacts, a reload keeps no scheduled message. |
| Store.SavedScheduledMessageIsLost | Services/DataStore.swift:104-148 | A valid contact with one future message for them: the save keeps the message, and the reload at the same `now` drops it. |
| Store.DecodePreservingIds | Services/DataStore.swift:104-125 | Decoding that gives every record back the identifier it was saved with. |
| Store.ReloadPreservingIdsKeepsSnapshot | Services/DataStore.swift:104-148 | With identifiers preserved and valid contacts in memory, reloading a save at the same `now` gives back exactly the saved records. |
| Store.CanSchedule | Services/DataStore.swift:192-193 | The guard of `scheduleMessage`: a valid message whose identifier is new. A message it admits has a contact that `getContact(by:)` finds, so the notification is always scheduled. |
| Store.AddedContactIsFound | Services/DataStore.swift:187-189 | After a contact with a new identifier is appended, `getContact(by:)` finds that contact. |
| Store.StoredMessageIsFoundByString | Services/DataStore.swift:227-229 | With unique identifiers, `getReceivedMessage(by: m.id.uuidString)` finds `m`. |
| Store.DataStore.constructor | Services/DataStore.swift:11-125 | A new store has the default avatars, no preselection and no save. Its settings are the stored ones, else the defaults. Its contacts, scheduled messages and received messages are the valid records of the keys read before the first undecodable one, which is Store.LoadedRecords. The invariant holds. |
| Store.Trim | Services/DataStore.swift:294 | `trimmingCharacters(in: .whitespacesAndNewlines)`: the result is a contiguous part of the input that is empty or neither starts nor ends with a blank (its properties are Store.TrimSpec and the lemmas beside it). |
| Store.DataStore.LoadFromUserDefaults | Services/DataStore.swift:104-125 | Each present key replaces its array by the valid decoded records. An undecodable key abandons the keys after it. The invariant holds. |
| Store.DataStore.LoadSettings | Services/DataStore.swift:151-156 | Decoded settings replace the current ones; otherwise the current ones stay. |
| Store.DataStore.SaveToUserDefaults | Services/DataStore.swift:127-148 | The saved snapshot is the valid records at `now`. |
| Store.DataStore.AddContact | Services/DataStore.swift:170-180 | A contact is appended and saved exactly when it is valid and its identifier is new; otherwise nothing changes. Identifiers stay unique and the invariant holds. |
| Store.DataStore.DeleteContact | Services/DataStore.swift:182-185 | Every contact with that identifier is removed, the others keep their order, and the result is saved. |
| Store.DataStore.ScheduleMessage | Services/DataStore.swift:192-207 | A message that is valid at `now` and has a new identifier is appended, saved and scheduled with exactly one notification request. Otherwise nothing changes. Identifiers stay unique. |
| Store.DataStore.CancelMessage | Services/DataStore.swift:209-213 | Every message with that identifier is removed. One cancel call for its `uuidString` is made even when none was present. The result is saved. |
| Store.DataStore.AddReceivedMessage | Services/DataStore.swift:215-225 | A received message is appended and saved exactly when it is valid and its identifier is new; otherwise nothing changes. |
| Store.DataStore.MarkMessageAsRead | Services/DataStore.swift:231-236 | The first message with that identifier becomes read and the store saves. An unknown identifier changes nothing and saves nothing. |
| Notifications.StringField | Services/NotificationManager.swift:100-103 | `userInfo[key] as? String` succeeds exactly when the key holds a string, and gives that string. |
| Notifications.Payload | Services/NotificationManager.swift:127-132 | The payload has exactly the four keys, holding the message's `uuidString`, the contact's `uuidString`, the content and the avatar. |
| Notifications.ExtractMessageData | Services/NotificationManager.swift:99-115 | Decoding succeeds exactly when the four keys hold strings and `contactId` parses. The message then has a fresh identifier, the parsed sender, and the content and avatar verbatim, and the paired avatar is the message's. |
| Notifications.PayloadRoundTrip | Services/NotificationManager.swift:99-132 | Decoding the payload of a scheduled message yields its contact, content and avatar. |
| Notifications.LocalNotificationRequest | Services/NotificationManager.swift:118-138 | The request is keyed by the message's `uuidString` and fires once, in the minute of the scheduled date. It shows the content from the contact and carries the payload. |
| Notifications.NotificationManager.constructor | Services/NotificationManager.swift:13-15 | No pending message, no overlay, no animation, and no platform calls. |
| Notifications.NotificationManager.HandleForegroundNotification | Services/NotificationManager.swift:64-81 | An invalid payload or discreet mode changes nothing. Otherwise the overlay presents the decoded message with its animation. The store is not touched. |
| Notifications.NotificationManager.HandleNotificationTap | Services/NotificationManager.swift:84-96 | An invalid payload changes nothing. Otherwise the overlay presents the decoded message, whatever discreet mode says. |
| Notifications.NotificationManager.ScheduleLocalNotification | Services/NotificationManager.swift:118-147 | Exactly one add request, for that message and contact, is made. |
| Notifications.NotificationManager.CancelNotification | Services/NotificationManager.swift:161-163 | Exactly one removal of the pending request with that identifier is made. |
| Overlay.Tap | Views/AvatarAnimationOverlay.swift:82-92 | A tap adds one to the count and never hides a shown message. A tap reveals only from the third tap on. |
| Overlay.AfterTapsShows | Views/AvatarAnimationOverlay.swift:82-92 | After `n` taps the count is `n` and the message shows exactly when `n >= 3`. |
| Overlay.ThirdTapReveals | Views/AvatarAnimationOverlay.swift:89-92 | The third tap is the one that reveals, and no other tap does. |
| Overlay.RevealsAtMostOnce | Views/AvatarAnimationOverlay.swift:89-97 | Over any number of taps the message is revealed, and marked read, at most once, and exactly once from three taps on. |
| Overlay.AvatarAnimationOverlay.constructor | Views/AvatarAnimationOverlay.swift:10-12 | A presented overlay starts with no taps, hidden, and nothing marked read. |
| Overlay.AvatarAnimationOverlay.HandleAvatarTap | Views/AvatarAnimationOverlay.swift:82-104 | The state advances by one tap. Only the revealing tap marks the pending message, if any, read: the store's messages become Store.MarkRead of that id, and the store saves only when it holds that message. Other taps leave the store alone. Uniqueness, the store invariant and the overlay's invariant that at most one mark follows the reveal all hold. |
| Overlay.AvatarAnimationOverlay.TapAvatarArea | Views/AvatarAnimationOverlay.swift:26-44 | Without an animation name a tap changes nothing. With one it has exactly the effect of Overlay.AvatarAnimationOverlay.HandleAvatarTap: the tap state, the read mark, the store's messages and its save. |
| Overlay.AvatarAnimationOverlay.DismissOverlay | Views/AvatarAnimationOverlay.swift:106-112 | The overlay is hidden and the pending message and animation are cleared. |
| Overlay.AvatarAnimationOverlay.TapBackground | Views/AvatarAnimationOverlay.swift:17-22 | A background tap dismisses from any state. |
| DeepLinks.RoutePath | Services/DeepLinkManager.swift:31 | The route holds every path component except the root `/`. |
| DeepLinks.RoutePathDropsRoot | Services/DeepLinkManager.swift:31 | Dropping a root component keeps the other components in order. |
| DeepLinks.MessageLinkPath | Services/DeepLinkManager.swift:28-31 | The path `/message/{id}` routes as `message` followed by the identifier. |
| DeepLinks.MessageLinkFindsStoredMessage | Services/DeepLinkManager.swift:62-66 | With unique identifiers, a message link built from a stored message's `uuidString` finds that message. |
| DeepLinks.DeepLinkManager.constructor | Services/DeepLinkManager.swift:10-13 | The router starts on the home tab with no selection and no navigation flags. |
| DeepLinks.DeepLinkManager.HandleDeepLink | Services/DeepLinkManager.swift:25-52 | `message/{id}` opens the message tab on the id and presents a stored message. `compose/{id}` opens the composer and preselects a parsed contact id. `settings` changes only the tab. Anything else, including a link with no components or a missing second one, changes nothing. |
| DeepLinks.DeepLinkManager.HandleMessageDeepLink | Services/DeepLinkManager.swift:55-68 | The message tab opens on that id with the detail flag set. The overlay presents the message only when the store holds it. |
| DeepLinks.DeepLinkManager.HandleComposeDeepLink | Services/DeepLinkManager.swift:71-80 | The composer opens. The store's preselected contact changes only when the text parses as a UUID. |
| DeepLinks.DeepLinkManager.ResetNavigation | Services/DeepLinkManager.swift:83-87 | The selection and both navigation flags are cleared; the active tab is untouched. |
| AddContact.Clean | Views/AddContactView.swift:140 | The cleaned number holds exactly the input's digits and `+` signs and is no longer than the input. |
| AddContact.IsValidPhone | Views/AddContactView.swift:116-120 | A valid number has at least ten characters, and so does its formatted form, which the store's length check then accepts. |
| AddContact.CleanKeepsPhoneChars | Views/AddContactView.swift:140 | Cleaning keeps exactly the digits and `+` signs, in order, and leaves a string made only of them unchanged. |
| AddContact.FormatPhone | Views/AddContactView.swift:138-151 | A formatted number starts with `+`, holds only digits and `+`, and is at least as long as the cleaned input. |
| AddContact.FormatPhoneCases | Views/AddContactView.swift:143-148 | A leading `0` becomes `+33`, a leading `+` is kept, and otherwise a `+` is prepended. |
| AddContact.FormatPhoneIdempotent | Views/AddContactView.swift:138-151 | Formatting a formatted number changes nothing. |
| AddContact.CanAddContact | Views/AddContactView.swift:112-114 | The add button is enabled for a non-empty name (blanks count) and a valid number; the number it stores then has at least ten characters. |
| AddContact.ContactFromForm | Views/AddContactView.swift:122-128 | The form's contact is unvalidated, with the selected avatar's animation name and the formatted phone. |
| AddContact.FormContactIsValid | Views/AddContactView.swift:122-130 | A contact the form accepts, with a name that is not all blanks, passes the store's validity check. |
| AddContact.BlankNamePassesFormOnly | Views/AddContactView.swift:112-114 | The form accepts a blank name that the store's validity check rejects. |
| Compose.CanSendMessage | Views/ComposeMessageView.swift:145-150 | The send button needs a contact, non-empty content of at most 500 characters and an avatar; Compose.BlankContentPassesFormOnly shows it is weaker than the store's check. |
| Compose.ComposedMessage | Views/ComposeMessageView.swift:156-162 | The built message carries the contact's id, the content, the date, the avatar's animation name and the repeat mode, and is not delivered. |
| Compose.ComposedMessageIsAccepted | Views/ComposeMessageView.swift:152-164 | A sendable message is accepted by the store when its content is not all blanks, its date is ahead, its avatar is named, its contact is stored and its id is new. |
| Compose.BlankContentPassesFormOnly | Views/ComposeMessageView.swift:145-150 | The composer enables sending blank content, which the store rejects. |
| Compose.PickableContacts | Views/ComposeMessageView.swift:198 | The contact picker lists exactly the validated contacts. |
| Compose.NewContactIsNotPickable | Views/ComposeMessageView.swift:198 | A contact just added from the form, being unvalidated, does not change the picker's list. |
| Compose.FilteredAvatars | Views/ComposeMessageView.swift:235-240 | Without a category all avatars are listed; with one, exactly the avatars of that category. |
| Compose.FilteredAvatarsKeepOrder | Views/ComposeMessageView.swift:235-240 | Filtering avatars by category keeps their order. |
| Compose.ComposeMessageView.constructor | Views/ComposeMessageView.swift:8-15 | The form starts empty, with the date one hour after `now`, no repetition and no alert. |
| Compose.ComposeMessageView.ScheduleMessage | Views/ComposeMessageView.swift:152-170 | Without a contact or an avatar nothing changes. Otherwise the success alert is raised, and the store's outcome is stated in full. If the store accepts the built message, it is appended, the store saves, and exactly one notification request for it and its contact is made. If not, the messages, the save and the notification log are untouched. Contacts and received messages are untouched either way, so the store's invariant is kept, and so is identifier uniqueness. |
| Compose.ComposeMessageView.ResetForm | Views/ComposeMessageView.swift:172-178 | Contact and avatar are cleared, the content is emptied, the date is one hour after `now`, and the repeat mode is `.none`. |
| Compose.ComposeMessageView.CheckPreselectedContact | Views/ComposeMessageView.swift:180-186 | A preselected id that resolves becomes the selected contact and is cleared; otherwise both are untouched. |
| MessagesList.MatchesSearch | Views/MessagesListView.swift:16-19 | A message matches when its content, or the name of a sender that resolves, contains the search text; Store.FindContact gives the sender. |
| MessagesList.FilteredMessages | Views/MessagesListView.swift:12-20 | An empty search lists a permutation of the received messages. Otherwise exactly the matching messages are listed, none more often than stored. Either way the list is newest first. |
| MessagesList.EmptySearchShowsAll | Views/MessagesListView.swift:13-14 | With an empty search every received message is listed and the count is unchanged. |
| MessagesList.DeleteReceivedMessage | Views/MessagesListView.swift:70-75 | Exactly the messages with that identifier are removed and the result is saved. Uniqueness and the store invariant are kept. |
| MessagesList.MessagesListView.constructor | Views/MessagesListView.swift:9-10 | No message is selected and the search is empty. |
| MessagesList.MessagesListView.SelectMessage | Views/MessagesListView.swift:65-68 | The first stored message with that identifier becomes read, and the store saves only when one exists. Then the message is selected. Uniqueness and the store invariant are kept. |
| MessagesList.MessagesListView.DeleteMessage | Views/MessagesListView.swift:70-75 | Exactly the messages with that identifier are removed, the others keep their order, and the result is saved. Uniqueness and the store invariant are kept. |
| MessagesList.MessagesListView.ReplayMessage | Views/MessagesListView.swift:77-82 | The overlay presents the message with its animation; the store, and so `isRead`, is untouched. |
| MessagesList.MessagesListView.CheckDeepLink | Views/MessagesListView.swift:84-91 | The view acts only when the router asked for a detail with an id and the store holds that message. It then selects the message and resets the router; otherwise nothing changes. |
| MessagesList.MessageDetailView.constructor | Views/MessagesListView.swift:178-182 | The sheet opens on its message. |
| MessagesList.MessageDetailView.DeleteMessage | Views/MessagesListView.swift:280-284 | Exactly the messages with the sheet's identifier are removed, the result is saved, and the sheet closes. Uniqueness and the store invariant are kept. |

## Left out

- The Core Data container (Services/DataStore.swift:21-90) is left out. The model it builds is never attached to anything. Only the key-value store fallback is modelled.
- The simulator-only seeding and the random incoming message (Services/DataStore.swift:239-290) are left out. They are compiled for the simulator only.
- JSON encoding and decoding are left out. A save is a snapshot of the records that pass the checks, and a load takes each key as missing, undecodable or a decoded array. How decoding treats identifiers is under "## Findings".
- `saveSettings` (Services/DataStore.swift:158-167) is left out. It only encodes the settings to the key-value store.
- Store.DataStore.ScheduleMessage and Store.DataStore.CancelMessage have no invariant in their contracts. They change only `scheduledMessages`, `saved` and the notification log, and `Valid()` reads none of these, so the invariant holds by their frame.
- Notifications.NotificationManager.HandleForegroundNotification takes discreet mode as an argument. The app reads it from the `discretMode` key of the key-value store, but the settings screen persists an encoded `UserSettings` under `userSettings`. So nothing is claimed about the setting reaching the handler.
- Authorization requests, remote-notification registration, the device token, the badge reset and the notification sound are left out. They are platform I/O.
- The timers and animations are left out. This covers the 3-second auto-dismiss after a reveal, `startAnimation` and the animation progress, the delayed replay of `MessageDetailView.replayAnimation`, Lottie playback, haptics and sounds. Each is timing or presentation with no state the rules depend on.
- Notifications.LocalNotificationRequest reduces the calendar trigger to the minute since the epoch. The calendar, the time zone and the date components are not modelled.
- URL parsing is left out. DeepLinks.DeepLinkManager.HandleDeepLink takes the URL's path components. With a link written `knockavatar://message/{id}`, `message` is the URL's host (section 3.2 of RFC 3986), not a path component, so such a link reaches no route. The model covers the path form `knockavatar:///message/{id}`.
- `localizedCaseInsensitiveContains` is a parameter of MessagesList.FilteredMessages. Its locale-dependent case folding is not modelled.
- Time is a whole number of seconds. `Date` is a floating-point count of seconds, and its fractions are not modelled: a date within the same second as `now` compares as equal.
- Character counts (`count` in the phone, content and 500-character checks) are modelled as sequence length. Grapheme clusters are not modelled.
- MessagesList.FilteredMessages promises no order among messages with equal receipt times. Swift's `sorted` is not documented as stable.
- The views' layout, and the screens SettingsView, ContentView, KnockAvatarApp, the notification service extension and Package.swift, are not part of this model. They hold UI, app-delegate glue, image drawing and build settings.
- The source calls the private `saveToUserDefaults` from the message views, which Swift does not allow. The model lets the views call the store's save as the code intends.

## Findings

| source | as written | input that shows it | evidently intended | confidence | as-written member | corrected member |
|---|---|---|---|---|---|---|
| Services/DataStore.swift:104-125 | `Contact.id` and `ScheduledMessage.id` are `let` constants with an initial value (Models/DataModels.swift:9, 19, 57), which the synthesized `Decodable` does not decode, so each reload draws new ids. `contactId` is decoded as saved, so no saved message's contact resolves and `isValidMessage` drops every scheduled message. | One valid contact and one message scheduled for them in the future, saved and then reloaded in the same second. | Reloading a save gives back the saved records with their identifiers. | high for the code path, not executed | Store.SavedScheduledMessageIsLost (over Store.ReloadAsWrittenDropsScheduled) | Store.ReloadPreservingIdsKeepsSnapshot |

The store's loader (Store.DataStore.LoadFromUserDefaults and the constructor) takes the decoded arrays as they come, so it works for both decodings. Store.LoadedRecords is the part shared by both rows.
