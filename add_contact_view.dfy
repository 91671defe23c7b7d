/**
 * The rules of the new-contact form of KnockAvatar (Views/AddContactView.swift):
 * cleaning a phone number down to its digits and `+` signs, the length check on
 * the cleaned number, the rewrite of its prefix into international form, the
 * enable rule of the add button, and the contact record the form hands to the
 * store.
 */
module AddContact {
  import opened Identifiers
  import opened Models
  import opened Seqs
  import opened Store

  /** The characters the pattern `[^0-9+]` does not remove. */
  predicate IsPhoneChar(c: char) {
    '0' <= c <= '9' || c == '+'
  }

  /** `phone.replacingOccurrences(of: "[^0-9+]", with: "", options: .regularExpression)`. */
  function Clean(phone: string): (cleaned: string)
    ensures forall c :: c in cleaned <==> c in phone && IsPhoneChar(c)
    ensures |cleaned| <= |phone|
  {
    Filter(phone, IsPhoneChar)
  }

  /** Cleaning keeps exactly the digits and `+` signs, in their original order. */
  lemma CleanKeepsPhoneChars(a: string, b: string)
    ensures forall c :: c in Clean(a) <==> c in a && IsPhoneChar(c)
    ensures Clean(a + b) == Clean(a) + Clean(b)
    ensures (forall i :: 0 <= i < |a| ==> IsPhoneChar(a[i])) ==> Clean(a) == a
  {
    FilterConcat(a, b, IsPhoneChar);
    if forall i :: 0 <= i < |a| ==> IsPhoneChar(a[i]) {
      FilterKeepsAll(a, IsPhoneChar);
    }
  }

  /** `isValidPhone(_:)`: at least ten characters survive cleaning. */
  predicate IsValidPhone(phone: string)
    ensures IsValidPhone(phone) ==> |phone| >= 10 && |FormatPhone(phone)| >= 10
  {
    |Clean(phone)| >= 10
  }

  /**
   * `formatPhone(_:)`: the cleaned number with a `+` in front; a leading `0` (a
   * French national number) becomes `+33`, a leading `+` is kept as it is.
   */
  function FormatPhone(phone: string): (r: string)
    ensures |r| > 0 && r[0] == '+'
    ensures forall i :: 0 <= i < |r| ==> IsPhoneChar(r[i])
    ensures |r| >= |Clean(phone)|
  {
    var cleaned := Clean(phone);
    assert forall i :: 0 <= i < |cleaned| ==> IsPhoneChar(cleaned[i]) by {
      forall i | 0 <= i < |cleaned| ensures IsPhoneChar(cleaned[i]) {
        assert cleaned[i] in cleaned;
      }
    }
    if !(|cleaned| > 0 && cleaned[0] == '+') && !(|cleaned| > 0 && cleaned[0] == '0') then
      "+" + cleaned
    else if |cleaned| > 0 && cleaned[0] == '0' then
      "+33" + cleaned[1..]
    else
      cleaned
  }

  /** The three prefix rules, stated on the cleaned number. */
  lemma FormatPhoneCases(phone: string)
    ensures var cleaned := Clean(phone);
      && (|cleaned| > 0 && cleaned[0] == '0' ==> FormatPhone(phone) == "+33" + cleaned[1..])
      && (|cleaned| > 0 && cleaned[0] == '+' ==> FormatPhone(phone) == cleaned)
      && (!(|cleaned| > 0 && cleaned[0] in "0+") ==> FormatPhone(phone) == "+" + cleaned)
  {
  }

  /** Formatting a formatted number changes nothing. */
  lemma FormatPhoneIdempotent(phone: string)
    ensures FormatPhone(FormatPhone(phone)) == FormatPhone(phone)
  {
    var r := FormatPhone(phone);
    CleanKeepsPhoneChars(r, []);
  }

  /**
   * `canAddContact`: a name that is not empty (blanks count) and a valid phone number;
   * the number it enables is then stored with at least ten characters.
   */
  predicate CanAddContact(name: string, phone: string)
    ensures CanAddContact(name, phone) ==> |FormatPhone(phone)| >= 10
  {
    name != "" && IsValidPhone(phone)
  }

  /**
   * The contact `addContact()` builds from the form: the formatted phone, the
   * selected avatar's animation name, and not validated yet.
   */
  function ContactFromForm(id: Uuid, name: string, phone: string, avatar: AnimatedAvatar, now: Date): (c: Contact)
    ensures c.isValidated == false
    ensures c.avatarId == avatar.lottieFileName
    ensures c.phone == FormatPhone(phone) && c.name == name
  {
    NewContact(id, name, FormatPhone(phone), avatar.lottieFileName, now)
  }

  /** When the name is not all blanks, a contact the form accepts passes the store's validity check. */
  lemma FormContactIsValid(id: Uuid, name: string, phone: string, avatar: AnimatedAvatar, now: Date)
    requires CanAddContact(name, phone) && Trim(name) != ""
    ensures IsValidContact(ContactFromForm(id, name, phone, avatar, now))
  {
    var formatted := FormatPhone(phone);
    TrimEmptyIff(formatted);
    assert !IsWhitespaceOrNewline(formatted[0]);
  }

  /**
   * The form and the store disagree on a blank name: with any phone the form
   * accepts, the form enables the button for the name " ", the store drops the
   * contact, and the form closes all the same.
   */
  lemma BlankNamePassesFormOnly(id: Uuid, phone: string, avatar: AnimatedAvatar, now: Date)
    requires IsValidPhone(phone)
    ensures CanAddContact(" ", phone)
    ensures !IsValidContact(ContactFromForm(id, " ", phone, avatar, now))
  {
    TrimEmptyIff(" ");
  }
}
