/**
 * The doula's settings page (first generation): the profile form loaded with `""` for
 * missing values, edited field by field, and saved through an update that must return the
 * updated row; and the avatar initials.
 */
module DoulaSettings {
  import opened Wrappers
  import opened JsText
  import opened Records
  import Ui

  /** The form's fields. */
  datatype Field = FullName | Phone | Address | PersonalNotes | AvatarUrl | Email

  datatype SettingsForm = SettingsForm(
    fullName: string, phone: string, address: string, personalNotes: string,
    avatarUrl: string, email: string)

  /** A profile row; every column may be empty. */
  datatype ProfileRow = ProfileRow(
    fullName: Option<string>, phone: Option<string>, address: Option<string>,
    personalNotes: Option<string>, avatarUrl: Option<string>)

  /** The signed-in user. */
  datatype User = User(id: string, email: Option<string>)

  /** The columns the save writes. */
  datatype ProfileUpdate = ProfileUpdate(
    fullName: string, phone: string, address: string, personalNotes: string)

  const EmptyForm: SettingsForm := SettingsForm("", "", "", "", "", "")

  function FieldOf(f: SettingsForm, field: Field): string {
    match field
    case FullName => f.fullName
    case Phone => f.phone
    case Address => f.address
    case PersonalNotes => f.personalNotes
    case AvatarUrl => f.avatarUrl
    case Email => f.email
  }

  /** `{ ...prev, [field]: value }`: the named field takes the value and no other changes. */
  function WithField(f: SettingsForm, field: Field, value: string): (r: SettingsForm)
    ensures forall g :: FieldOf(r, g) == if g == field then value else FieldOf(f, g)
  {
    match field
    case FullName => f.(fullName := value)
    case Phone => f.(phone := value)
    case Address => f.(address := value)
    case PersonalNotes => f.(personalNotes := value)
    case AvatarUrl => f.(avatarUrl := value)
    case Email => f.(email := value)
  }

  /** Two forms that agree on every field are the same form. */
  lemma FormExtensional(a: SettingsForm, b: SettingsForm)
    requires forall g :: FieldOf(a, g) == FieldOf(b, g)
    ensures a == b
  {
    assert FieldOf(a, FullName) == FieldOf(b, FullName);
    assert FieldOf(a, Phone) == FieldOf(b, Phone);
    assert FieldOf(a, Address) == FieldOf(b, Address);
    assert FieldOf(a, PersonalNotes) == FieldOf(b, PersonalNotes);
    assert FieldOf(a, AvatarUrl) == FieldOf(b, AvatarUrl);
    assert FieldOf(a, Email) == FieldOf(b, Email);
  }

  /** Typing a field's current value back changes nothing. */
  lemma WithFieldSame(f: SettingsForm, field: Field)
    ensures WithField(f, field, FieldOf(f, field)) == f
  {
    FormExtensional(WithField(f, field, FieldOf(f, field)), f);
  }

  /** The form as loaded: each profile value, or `""`; the email comes from the user. */
  function LoadedForm(profile: ProfileRow, userEmail: Option<string>): (r: SettingsForm)
    ensures r.fullName == TextOr(profile.fullName, "") && r.phone == TextOr(profile.phone, "")
    ensures r.address == TextOr(profile.address, "") && r.personalNotes == TextOr(profile.personalNotes, "")
    ensures r.avatarUrl == TextOr(profile.avatarUrl, "") && r.email == TextOr(userEmail, "")
  {
    SettingsForm(TextOr(profile.fullName, ""), TextOr(profile.phone, ""), TextOr(profile.address, ""),
      TextOr(profile.personalNotes, ""), TextOr(profile.avatarUrl, ""), TextOr(userEmail, ""))
  }

  /** An empty profile loads as the empty form. */
  lemma EmptyProfileLoadsEmpty()
    ensures LoadedForm(ProfileRow(None, None, None, None, None), None) == EmptyForm
  {
  }

  /** The four saved fields replaced by the values of the returned row, `""` when empty. */
  function AfterSave(f: SettingsForm, row: ProfileRow): (r: SettingsForm)
    ensures r.fullName == TextOr(row.fullName, "") && r.phone == TextOr(row.phone, "")
    ensures r.address == TextOr(row.address, "") && r.personalNotes == TextOr(row.personalNotes, "")
    ensures r.avatarUrl == f.avatarUrl && r.email == f.email
  {
    f.(fullName := TextOr(row.fullName, ""), phone := TextOr(row.phone, ""),
       address := TextOr(row.address, ""), personalNotes := TextOr(row.personalNotes, ""))
  }

  /** When the server returns what was sent, the saved form is unchanged. */
  lemma SaveEchoKeepsForm(f: SettingsForm)
    ensures AfterSave(f, ProfileRow(Some(f.fullName), Some(f.phone), Some(f.address), Some(f.personalNotes), None)) == f
  {
  }

  /** How a save ends. */
  datatype SaveOutcome = NotSignedIn | NoRowReturned | Saved

  /**
   * `getInitials`: `ME` for an empty name; otherwise the upper-cased first characters of
   * the space-separated words, at most two, which is empty for a name of spaces.
   */
  function Initials(name: string): (r: string)
    ensures name == [] ==> r == "ME"
    ensures name != [] ==> r == ToUpper(Ui.WordInitials(name))
    ensures |r| <= 2
  {
    if name == [] then "ME" else ToUpper(Ui.WordInitials(name))
  }

  /** A name of spaces alone gives no initials at all, not `ME`. */
  lemma BlankNameHasNoInitials()
    ensures Initials(" ") == []
  {
    Ui.WordInitialsEmptyIff(" ");
  }

  /** The page's state. */
  class SettingsPage {
    var formData: SettingsForm
    var loading: bool
    var saving: bool

    constructor()
      ensures formData == EmptyForm && loading && !saving
    {
      formData := EmptyForm;
      loading := true;
      saving := false;
    }

    /**
     * `fetchProfile`: with a user and a profile row the form is replaced by the loaded one;
     * without a user, without a row or on an error it stays as it was. Loading ends.
     */
    method FetchProfile(user: Option<User>, profile: Option<ProfileRow>)
      modifies this`formData, this`loading
      ensures user.Some? && profile.Some? ==> formData == LoadedForm(profile.value, user.value.email)
      ensures user.None? || profile.None? ==> formData == old(formData)
      ensures !loading
    {
      if user.Some? && profile.Some? {
        formData := LoadedForm(profile.value, user.value.email);
      }
      loading := false;
    }

    /** `handleChange`. */
    method HandleChange(field: Field, value: string)
      modifies this`formData
      ensures formData == WithField(old(formData), field, value)
    {
      formData := WithField(formData, field, value);
    }

    /**
     * `handleSave`: with a user, the four fields are sent; an update that returns no row
     * is an error that leaves the form as it was, a returned row is copied back into the
     * form. Saving is clear afterwards in every case.
     */
    method HandleSave(user: Option<User>, returned: Option<ProfileRow>)
      returns (update: Option<ProfileUpdate>, outcome: SaveOutcome)
      modifies this`formData, this`saving
      ensures user.None? ==> update.None? && outcome == NotSignedIn
      ensures user.Some? ==> update == Some(ProfileUpdate(old(formData).fullName, old(formData).phone,
        old(formData).address, old(formData).personalNotes))
      ensures user.Some? && returned.None? ==> outcome == NoRowReturned
      ensures user.Some? && returned.Some? ==> outcome == Saved
      ensures outcome == Saved ==> formData == AfterSave(old(formData), returned.value)
      ensures outcome != Saved ==> formData == old(formData)
      ensures !saving
    {
      saving := true;
      if user.None? {
        saving := false;
        return None, NotSignedIn;
      }
      update := Some(ProfileUpdate(formData.fullName, formData.phone, formData.address, formData.personalNotes));
      if returned.None? {
        outcome := NoRowReturned;
      } else {
        formData := AfterSave(formData, returned.value);
        outcome := Saved;
      }
      saving := false;
    }
  }
}
