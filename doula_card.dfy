/**
 * A doula's card in the public explorer: avatar initials, the WhatsApp enquiry link, the
 * registration link, the experience badge and the specialty badges.
 */
module DoulaCard {
  import opened Wrappers
  import opened JsText
  import Ui

  /** A doula's public profile; the optional columns may be missing. */
  datatype Doula = Doula(
    id: string, fullName: string, bio: Option<string>, yearsExperience: Option<int>,
    serviceAreas: Option<seq<string>>, specialties: Option<seq<string>>, phone: Option<string>)

  /** The initials: the first characters of the space-separated words, at most two, with no fallback. */
  function CardInitials(d: Doula): (r: string)
    ensures |r| <= 2
    ensures r == Ui.WordInitials(d.fullName)
  {
    Ui.WordInitials(d.fullName)
  }

  /** A name of spaces alone leaves the avatar without initials. */
  lemma CardInitialsEmptyIff(d: Doula)
    ensures CardInitials(d) == [] <==> forall i :: 0 <= i < |d.fullName| ==> d.fullName[i] == ' '
  {
    Ui.WordInitialsEmptyIff(d.fullName);
  }

  const EnquiryText: string := "?text=היי ראיתי אותך ב-SmartDoula ואשמח לשמוע פרטים"

  /** The WhatsApp link: `#` without a phone, otherwise the phone's digits and a greeting. */
  function WhatsAppHref(phone: Option<string>): (r: string)
    ensures !Truthy(phone) ==> r == "#"
    ensures Truthy(phone) ==>
      && StartsWith(r, Ui.WhatsAppPrefix)
      && |r| == |Ui.WhatsAppPrefix| + |DigitsOnly(phone.value)| + |EnquiryText|
      && r[|Ui.WhatsAppPrefix|..|r| - |EnquiryText|] == DigitsOnly(phone.value)
      && r[|r| - |EnquiryText|..] == EnquiryText
  {
    if Truthy(phone) then
      var link := Ui.WhatsAppLink(phone);
      assert link == Ui.WhatsAppPrefix + DigitsOnly(phone.value);
      link + EnquiryText
    else "#"
  }

  /** Two phone numbers with the same digits give the same link. */
  lemma WhatsAppHrefNormalised(a: string, b: string)
    requires a != [] && b != [] && DigitsOnly(a) == DigitsOnly(b)
    ensures WhatsAppHref(Some(a)) == WhatsAppHref(Some(b))
  {
  }

  /** `handleRegisterClick` navigates to the invite page for this doula. */
  function RegisterPath(d: Doula): (r: string)
    ensures r == Ui.InviteLink("", d.id)
  {
    Ui.InvitePath + d.id
  }

  /** The id can be read back from the registration path. */
  lemma RegisterPathCarriesId(d: Doula)
    ensures StartsWith(RegisterPath(d), Ui.InvitePath)
    ensures RegisterPath(d)[|Ui.InvitePath|..] == d.id
  {
  }

  /**
   * `years_experience && <badge/>`: the badge with the number of years when they are
   * present and non-zero, nothing when they are missing, and a bare `0` for zero years.
   */
  function ExperienceBadge(years: Option<int>): (r: Ui.Guarded)
    ensures r.Element? <==> years.Some? && years.value != 0
    ensures r.Element? ==> r.n == years.value
    ensures r.Omitted? <==> years.None?
  {
    Ui.GuardedNumber(years)
  }

  /** A doula with zero years of experience shows the text `0` and no badge. */
  lemma ZeroYearsShowsZero(years: Option<int>)
    ensures ExperienceBadge(years) == Ui.ZeroText <==> years == Some(0)
  {
  }

  /** The specialty badges: the first three, then `+k` for the rest; none when missing. */
  function SpecialtyStrip(d: Doula): (r: Ui.Strip)
    ensures d.specialties.None? ==> r == Ui.Strip([], None)
    ensures d.specialties.Some? ==>
      var s := d.specialties.value;
      && |r.shown| <= 3 && |r.shown| <= |s| && r.shown == s[..|r.shown|]
      && (r.more.Some? <==> |s| > 3)
      && (r.more.Some? ==> r.more.value == |s| - 3)
  {
    Ui.Overflow(d.specialties.GetOr([]), 3)
  }

  const DefaultBio: string := "דולה מוסמכת המלווה נשים וזוגות בתהליך הלידה, מעניקה תמיכה רגשית ופיזית..."

  /** The biography, or the generic text when it is missing or empty. */
  function BioText(d: Doula): (r: string)
    ensures r != []
    ensures Truthy(d.bio) ==> r == d.bio.value
  {
    if Truthy(d.bio) then d.bio.value else DefaultBio
  }
}
