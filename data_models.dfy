/**
 * The records and enumerations of KnockAvatar (Models/DataModels.swift).
 *
 * Swift gives every record `let id = UUID()` and a creation stamp `Date()`;
 * here the freshly drawn identifier and the clock reading are parameters of
 * the constructor functions (`New...`). A `Date` is a whole number of
 * seconds.
 */
module Models {
  import opened Wrappers
  import opened Identifiers

  type Date = int

  datatype Contact = Contact(
    id: Uuid,
    name: string,
    phone: string,
    avatarId: string,
    isValidated: bool,   // set only by the mutual-acceptance flow, never by this app
    createdAt: Date)

  /** The memberwise initialiser `Contact(name:phone:avatarId:isValidated:)`. */
  function NewContact(id: Uuid, name: string, phone: string, avatarId: string, now: Date,
                      isValidated: bool := false): (c: Contact)
    ensures c.id == id && c.name == name && c.phone == phone && c.avatarId == avatarId
    ensures c.isValidated == isValidated && c.createdAt == now
  {
    Contact(id, name, phone, avatarId, isValidated, now)
  }

  datatype RepeatMode = NoRepeat | Daily | Weekly | Monthly | Yearly {
    /** The `String` raw value, which is also the label shown in the composer. */
    function RawValue(): string {
      match this
      case NoRepeat => "Aucune"
      case Daily => "Quotidien"
      case Weekly => "Hebdomadaire"
      case Monthly => "Mensuel"
      case Yearly => "Annuel"
    }
  }

  /** `RepeatMode.allCases`, in declaration order. */
  const AllRepeatModes: seq<RepeatMode> := [NoRepeat, Daily, Weekly, Monthly, Yearly]

  lemma RepeatModesAreDistinct()
    ensures |AllRepeatModes| == 5
    ensures forall m: RepeatMode :: m in AllRepeatModes
    ensures forall i, j :: 0 <= i < j < 5 ==> AllRepeatModes[i].RawValue() != AllRepeatModes[j].RawValue()
  {
    forall m: RepeatMode ensures m in AllRepeatModes {
      match m
      case NoRepeat => assert AllRepeatModes[0] == m;
      case Daily => assert AllRepeatModes[1] == m;
      case Weekly => assert AllRepeatModes[2] == m;
      case Monthly => assert AllRepeatModes[3] == m;
      case Yearly => assert AllRepeatModes[4] == m;
    }
  }

  datatype ScheduledMessage = ScheduledMessage(
    id: Uuid,
    contactId: Uuid,
    content: string,
    scheduledDate: Date,
    avatarId: string,
    repeatMode: RepeatMode,
    isDelivered: bool,
    createdAt: Date)

  /** The memberwise initialiser `ScheduledMessage(contactId:content:scheduledDate:avatarId:repeatMode:)`. */
  function NewScheduledMessage(id: Uuid, contactId: Uuid, content: string, scheduledDate: Date,
                               avatarId: string, now: Date,
                               repeatMode: RepeatMode := NoRepeat): (m: ScheduledMessage)
    ensures m.id == id && m.contactId == contactId && m.content == content
    ensures m.scheduledDate == scheduledDate && m.avatarId == avatarId && m.repeatMode == repeatMode
    ensures !m.isDelivered && m.createdAt == now
  {
    ScheduledMessage(id, contactId, content, scheduledDate, avatarId, repeatMode, false, now)
  }

  datatype Category = Animals | Funny | Romantic | Birthday | Holiday {
    function RawValue(): string {
      match this
      case Animals => "Animaux"
      case Funny => "Drôle"
      case Romantic => "Romantique"
      case Birthday => "Anniversaire"
      case Holiday => "Vacances"
    }
  }

  datatype AnimatedAvatar = AnimatedAvatar(
    id: Uuid,
    name: string,
    lottieFileName: string,
    soundFile: Option<string>,
    category: Category,
    isPremium: bool)

  /**
   * `AnimatedAvatar.defaultAvatars`. The five identifiers are the `UUID()`s drawn
   * when the static array is first built.
   */
  function DefaultAvatars(ids: seq<Uuid>): (avatars: seq<AnimatedAvatar>)
    requires |ids| == 5
    ensures |avatars| == 5
    ensures forall i :: 0 <= i < 5 ==> avatars[i].id == ids[i] && !avatars[i].isPremium
    ensures forall i, j :: 0 <= i < j < 5 ==> avatars[i].lottieFileName != avatars[j].lottieFileName
    ensures forall i :: 0 <= i < 5 ==> avatars[i].lottieFileName != ""
  {
    [ AnimatedAvatar(ids[0], "Chat joyeux", "cat_happy", Some("meow.mp3"), Animals, false),
      AnimatedAvatar(ids[1], "Chien mignon", "dog_cute", Some("woof.mp3"), Animals, false),
      AnimatedAvatar(ids[2], "Coeur battant", "heart_beat", None, Romantic, false),
      AnimatedAvatar(ids[3], "Gâteau festif", "birthday_cake", Some("party.mp3"), Birthday, false),
      AnimatedAvatar(ids[4], "Clown rigolo", "clown_fun", Some("laugh.mp3"), Funny, false) ]
  }

  datatype ReceivedMessage = ReceivedMessage(
    id: Uuid,
    fromContactId: Uuid,
    content: string,
    avatarId: string,
    receivedAt: Date,
    isRead: bool)

  /** The memberwise initialiser `ReceivedMessage(fromContactId:content:avatarId:)`. */
  function NewReceivedMessage(id: Uuid, fromContactId: Uuid, content: string, avatarId: string,
                              now: Date): (m: ReceivedMessage)
    ensures m.id == id && m.fromContactId == fromContactId
    ensures m.content == content && m.avatarId == avatarId
    ensures m.receivedAt == now && !m.isRead
  {
    ReceivedMessage(id, fromContactId, content, avatarId, now, false)
  }

  datatype AppTheme = Light | Dark | Auto

  /** The hour and minute a `DateComponents` value may carry. */
  datatype DateComponents = DateComponents(hour: Option<int>, minute: Option<int>)

  datatype UserSettings = UserSettings(
    enableSound: bool,
    enableVibration: bool,
    discretMode: bool,
    notificationHour: Option<DateComponents>,
    theme: AppTheme)

  /** `UserSettings()`: sound and vibration on, discreet mode off, no preferred hour, automatic theme. */
  const DefaultSettings: UserSettings := UserSettings(true, true, false, None, Auto)

  /** Names the identifier of each record kind, so that the sequence lemmas can key on it. */
  function ContactId(c: Contact): Uuid { c.id }
  function ScheduledId(m: ScheduledMessage): Uuid { m.id }
  function ReceivedId(m: ReceivedMessage): Uuid { m.id }
}
