/**
 * The mother's settings page, shared by both generations: the form is loaded from the
 * profile row and, for a mother, from her active pregnancy; saving writes the profile and,
 * when the form holds a pregnancy id, the pregnancy. Rows and form are loosely typed records.
 */
module MotherSettings {
  import opened Wrappers
  import opened JsText
  import opened JsParseInt
  import opened Records

  /** `row.field || ""` for each listed field. */
  function TextPart(row: Record, fields: seq<string>): (r: Record)
    ensures r.Keys == set f | f in fields
    ensures forall f :: f in fields ==> r[f] == OrText(Get(row, f), "")
  {
    map f | f in fields :: OrText(Get(row, f), "")
  }

  /**
   * `value?.toString() || fallback` on a numeric column: a missing number gives the
   * fallback, a present one its decimal text, 0 included.
   */
  function NumberText(v: Value, fallback: string): (r: Value)
    ensures v == Null ==> r == Text(fallback)
    ensures v.Number? ==> r == Text(IntToString(v.n))
    ensures v.Text? ==> r == OrText(v, fallback)
  {
    match v
    case Null => Text(fallback)
    case Number(n) => Text(IntToString(n))
    case _ => OrText(v, fallback)
  }

  /** `parseInt(value)` on a form field; `NaN` is stored as `null`. */
  function ParseValue(v: Value): (r: Value)
    ensures r == Null || r.Number?
    ensures v.Text? ==> (r == Null <==> ParseInt(v.s).None?)
    ensures v.Text? && ParseInt(v.s).Some? ==> r == Number(ParseInt(v.s).value)
    ensures v.Number? ==> r == v
  {
    match v
    case Text(s) => if ParseInt(s).Some? then Number(ParseInt(s).value) else Null
    case Number(n) => v
    case _ => Null
  }

  /** A number shown in the form by `NumberText` is read back unchanged by `parseInt`. */
  lemma NumberTextRoundTrip(n: int, fallback: string)
    ensures ParseValue(NumberText(Number(n), fallback)) == Number(n)
  {
    var t := IntToString(n);
    assert t + [] == t;
    ParseIntToString(n, []);
    assert ParseInt(t) == Some(n);
  }

  /** A one-digit fallback text reads back as its number. */
  lemma FallbackText(d: char)
    requires IsDigit(d)
    ensures ParseValue(Text([d])) == Number(DigitValue(d))
  {
    var t := [d];
    assert t + [] == t;
    ParseIntDigits(t, []);
    assert ParseInt(t) == Some(DigitsValue(t));
    OneDigitValue(d);
  }

  /** A count shown in the form reads back as itself, a missing one as the fallback's number. */
  lemma CountReadBack(v: Value, fallback: string, d: int)
    requires ParseValue(Text(fallback)) == Number(d)
    ensures v.Number? ==> ParseValue(NumberText(v, fallback)) == v
    ensures v == Null ==> ParseValue(NumberText(v, fallback)) == Number(d)
  {
    if v.Number? {
      NumberTextRoundTrip(v.n, fallback);
    }
  }

  lemma OneDigitValue(d: char)
    requires IsDigit(d)
    ensures DigitsValue([d]) == DigitValue(d)
  {
    assert [d][..0] == [];
  }

  /** The merged form holds a pregnancy for a mother whose active pregnancy was found. */
  predicate LoadsPregnancy(profile: Record, preg: Option<Record>) {
    Get(profile, "role") == Text("mother") && preg.Some?
  }

  /** The profile update, the same in both generations: an empty birth date is sent as `null`. */
  function ProfileUpdate(form: Record): (r: Record)
    ensures r.Keys == {"full_name", "phone", "address", "date_of_birth", "personal_notes"}
    ensures r["full_name"] == Get(form, "full_name") && r["phone"] == Get(form, "phone")
    ensures r["address"] == Get(form, "address") && r["personal_notes"] == Get(form, "personal_notes")
    ensures r["date_of_birth"] == OrNull(Get(form, "date_of_birth"))
  {
    map[
      "full_name" := Get(form, "full_name"), "phone" := Get(form, "phone"),
      "address" := Get(form, "address"), "date_of_birth" := OrNull(Get(form, "date_of_birth")),
      "personal_notes" := Get(form, "personal_notes")]
  }

  /** The pregnancy is written only for a mother whose form holds a pregnancy id. */
  predicate WritesPregnancy(role: Value, form: Record) {
    role == Text("mother") && JsTruthy(Get(form, "pregnancy_id"))
  }
}

/** The first generation of the mother's settings page. */
module SrcMotherSettings {
  import opened Wrappers
  import opened JsMath
  import opened Records
  import opened Pregnancy
  import opened MotherSettings

  const ProfileFields: seq<string> :=
    ["full_name", "phone", "address", "date_of_birth", "avatar_url", "personal_notes"]

  const PregnancyTextFields: seq<string> := [
    "last_period_date", "estimated_due_date", "blood_type", "allergies",
    "background_diseases", "hospital_preference", "g_p_summary"]

  /** The form before anything is loaded. */
  function InitialForm(): (r: Record)
    ensures Get(r, "pregnancy_id") == Null && Get(r, "number_of_fetuses") == Text("1")
    ensures forall f :: f in ProfileFields || f in PregnancyTextFields ==> Get(r, f) == Text("")
  {
    (map f | f in ProfileFields + PregnancyTextFields :: Text(""))
      ["pregnancy_id" := Null]["number_of_fetuses" := Text("1")]
  }

  /** The active pregnancy's part of the form: its id, its text columns and the number of fetuses. */
  function PregnancyPart(preg: Record): (r: Record)
    ensures r.Keys == (set f | f in PregnancyTextFields) + {"pregnancy_id", "number_of_fetuses"}
    ensures r["pregnancy_id"] == Get(preg, "id")
    ensures r["number_of_fetuses"] == NumberText(Get(preg, "number_of_fetuses"), "1")
    ensures forall f :: f in PregnancyTextFields ==> r[f] == OrText(Get(preg, f), "")
  {
    CountNotText();
    TextPart(preg, PregnancyTextFields)["pregnancy_id" := Get(preg, "id")]
      ["number_of_fetuses" := NumberText(Get(preg, "number_of_fetuses"), "1")]
  }

  /**
   * The merged form: the profile's six fields, then, for a mother with an active
   * pregnancy, the pregnancy's. The form is replaced as a whole, so for anyone else the
   * pregnancy fields are gone.
   */
  function LoadedForm(profile: Record, preg: Option<Record>): (r: Record)
    ensures r.Keys == (set f | f in ProfileFields) + (if LoadsPregnancy(profile, preg) then PregnancyPart(preg.value).Keys else {})
    ensures LoadsPregnancy(profile, preg) ==> forall k :: k in PregnancyPart(preg.value) ==> r[k] == PregnancyPart(preg.value)[k]
  {
    var base := TextPart(profile, ProfileFields);
    if LoadsPregnancy(profile, preg) then base + PregnancyPart(preg.value) else base
  }

  /** The profile's and the pregnancy's fields are distinct. */
  lemma PartsDisjoint(preg: Record)
    ensures (set f | f in ProfileFields) !! PregnancyPart(preg).Keys
  {
  }

  /** Every profile field of the loaded form comes from the profile, `""` when empty. */
  lemma LoadedProfileField(profile: Record, preg: Option<Record>, f: string)
    requires f in ProfileFields
    ensures LoadedForm(profile, preg)[f] == OrText(Get(profile, f), "")
  {
    if preg.Some? {
      PartsDisjoint(preg.value);
    }
  }

  /** Without an active pregnancy the loaded form has no pregnancy id, so no save touches a pregnancy. */
  lemma NoPregnancyNoPregnancyWrite(profile: Record, role: Value)
    ensures !WritesPregnancy(role, LoadedForm(profile, None))
  {
    assert "pregnancy_id" !in set f | f in ProfileFields;
  }

  /** The pregnancy update: the listed columns as they stand, the count through `parseInt`. */
  function PregnancyUpdate(form: Record): (r: Record)
    ensures r.Keys == (set f | f in PregnancyTextFields) + {"number_of_fetuses"}
    ensures r["last_period_date"] == OrNull(Get(form, "last_period_date"))
    ensures r["number_of_fetuses"] == ParseValue(Get(form, "number_of_fetuses"))
    ensures forall f :: f in PregnancyTextFields && f != "last_period_date" ==> r[f] == Get(form, f)
  {
    CountNotText();
    (map f | f in PregnancyTextFields :: if f == "last_period_date" then OrNull(Get(form, f)) else Get(form, f))
      ["number_of_fetuses" := ParseValue(Get(form, "number_of_fetuses"))]
  }

  /** The count is not among the text columns. */
  lemma CountNotText()
    ensures "last_period_date" in PregnancyTextFields
    ensures forall f :: f in PregnancyTextFields ==> f != "number_of_fetuses" && f != "pregnancy_id"
  {
  }

  /** A stored number of fetuses, 0 included, survives a load and an unchanged save. */
  lemma FetusCountSurvivesSave(profile: Record, preg: Record, n: int)
    requires Get(profile, "role") == Text("mother") && Get(preg, "number_of_fetuses") == Number(n)
    ensures PregnancyUpdate(LoadedForm(profile, Some(preg)))["number_of_fetuses"] == Number(n)
  {
    var form := LoadedForm(profile, Some(preg));
    assert Get(form, "number_of_fetuses") == NumberText(Number(n), "1");
    NumberTextRoundTrip(n, "1");
  }

  const HourMs: int := 3600000

  /** The effect fills in the due date: the form has a last-period date and no due date. */
  predicate FillsDueDate(form: Record) {
    Get(form, "last_period_date").Date? && !JsTruthy(Get(form, "estimated_due_date"))
  }

  /** The zone's offset from UTC changes by less than a day between the two dates. */
  predicate OffsetShiftBelowDay(offsetAtLmp: int, offsetAtDue: int) {
    -DayMs < offsetAtDue - offsetAtLmp < DayMs
  }

  /**
   * The due date as the effect computes it. `new Date("yyyy-mm-dd")` is midnight UTC of
   * the last-period day; `setDate(getDate() + 280)` moves the local calendar day by 280
   * while keeping the local time of day; `toISOString` then reads the UTC day back. The
   * zone's offsets from UTC (east positive) at the two local times enter the result:
   * when the offset grows in between, as when daylight saving time begins, the due date
   * comes out a day early.
   */
  function DueDayAsWritten(lmpDay: int, offsetAtLmp: int, offsetAtDue: int): (r: int)
    requires OffsetShiftBelowDay(offsetAtLmp, offsetAtDue)
    ensures offsetAtDue <= offsetAtLmp ==> r == lmpDay + TermDays
    ensures offsetAtDue > offsetAtLmp ==> r == lmpDay + TermDays - 1
  {
    var localStart := DayMs * lmpDay + offsetAtLmp;
    var localDue := localStart + TermDays * DayMs;
    var utcDue := localDue - offsetAtDue;
    assert utcDue == DayMs * (lmpDay + TermDays) + (offsetAtLmp - offsetAtDue);
    FloorDiv(utcDue, DayMs)
  }

  /**
   * In Jerusalem (two hours east of UTC in winter, three in summer) a last period on
   * 2025-01-01, day 20089, gives 2025-10-07, day 20368, instead of 2025-10-08.
   */
  lemma DueDayAsWrittenEarlyInJerusalem()
    ensures DueDayAsWritten(20089, 2 * HourMs, 3 * HourMs) == 20368
    ensures DueDayFromLmp(20089) == 20369
  {
  }

  /** The due date the page means to compute: forty weeks after the last period. */
  function DueDayFromLmp(lmpDay: int): (r: int)
    ensures DayMs * r - DayMs * lmpDay == 40 * WeekMs
  {
    lmpDay + TermDays
  }

  /** Wherever the zone's offset does not grow between the two dates, the code as written is right. */
  lemma DueDayAsWrittenAgreesWithoutShift(lmpDay: int, offsetAtLmp: int, offsetAtDue: int)
    requires -DayMs < offsetAtDue - offsetAtLmp <= 0
    ensures DueDayAsWritten(lmpDay, offsetAtLmp, offsetAtDue) == DueDayFromLmp(lmpDay)
  {
  }

  class SettingsPage {
    var role: Value
    var formData: Record
    var loading: bool
    var saving: bool

    constructor()
      ensures role == Text("mother") && formData == InitialForm() && loading && !saving
    {
      role := Text("mother");
      formData := InitialForm();
      loading := true;
      saving := false;
    }

    /**
     * `fetchUserData`: without a user or without the profile row nothing changes;
     * otherwise the role is the profile's and the form is the merged one (`preg` is the
     * active pregnancy the query found, read only for a mother). Loading ends.
     */
    method FetchUserData(signedIn: bool, profile: Option<Record>, preg: Option<Record>)
      modifies this`role, this`formData, this`loading
      ensures signedIn && profile.Some? ==>
        role == Get(profile.value, "role") && formData == LoadedForm(profile.value, preg)
      ensures !(signedIn && profile.Some?) ==> role == old(role) && formData == old(formData)
      ensures !loading
    {
      if signedIn && profile.Some? {
        role := Get(profile.value, "role");
        formData := LoadedForm(profile.value, preg);
      }
      loading := false;
    }

    /**
     * The effect run when the last-period date changes: with a date and no due date yet,
     * the due date is set as `DueDayAsWritten` computes it, which depends on the zone's
     * offsets from UTC at the last-period midnight and at the due date; otherwise nothing
     * changes. Where the offset does not grow in between, that is forty weeks later.
     */
    method LmpEffect(offsetAtLmp: int, offsetAtDue: int)
      requires OffsetShiftBelowDay(offsetAtLmp, offsetAtDue)
      modifies this`formData
      ensures FillsDueDate(old(formData)) ==>
        formData == Set(old(formData), "estimated_due_date",
          Date(DueDayAsWritten(Get(old(formData), "last_period_date").day, offsetAtLmp, offsetAtDue)))
      ensures FillsDueDate(old(formData)) && offsetAtDue <= offsetAtLmp ==>
        formData == Set(old(formData), "estimated_due_date",
          Date(DueDayFromLmp(Get(old(formData), "last_period_date").day)))
      ensures !FillsDueDate(old(formData)) ==> formData == old(formData)
    {
      var lmp := Get(formData, "last_period_date");
      if FillsDueDate(formData) {
        formData := Set(formData, "estimated_due_date", Date(DueDayAsWritten(lmp.day, offsetAtLmp, offsetAtDue)));
      }
    }

    /** `handleChange`. */
    method HandleChange(field: string, value: Value)
      modifies this`formData
      ensures formData == Set(old(formData), field, value)
    {
      formData := Set(formData, field, value);
    }

    /**
     * `handleSave`: for a signed-in user the profile is written; when that succeeds and
     * the form holds a mother's pregnancy, the pregnancy is written too. The form is not
     * changed; `saved` reports the success message. Saving is clear afterwards.
     */
    method HandleSave(signedIn: bool, profileOk: bool, pregnancyOk: bool)
      returns (profileWrite: Option<Record>, pregnancyWrite: Option<Record>, saved: bool)
      modifies this`saving
      ensures !signedIn ==> profileWrite.None? && pregnancyWrite.None? && !saved
      ensures signedIn ==> profileWrite == Some(ProfileUpdate(formData))
      ensures pregnancyWrite.Some? <==> signedIn && profileOk && WritesPregnancy(role, formData)
      ensures pregnancyWrite.Some? ==> pregnancyWrite.value == PregnancyUpdate(formData)
      ensures saved <==> signedIn && profileOk && (pregnancyWrite.None? || pregnancyOk)
      ensures !saving
    {
      saving := true;
      profileWrite, pregnancyWrite, saved := None, None, false;
      if signedIn {
        profileWrite := Some(ProfileUpdate(formData));
        if profileOk {
          if WritesPregnancy(role, formData) {
            pregnancyWrite := Some(PregnancyUpdate(formData));
          }
          saved := pregnancyWrite.None? || pregnancyOk;
        }
      }
      saving := false;
    }
  }
}

/** The site generation of the mother's settings page. */
module SiteMotherSettings {
  import opened Wrappers
  import opened JsParseInt
  import opened Records
  import opened MotherSettings

  const ProfileFields: seq<string> :=
    ["full_name", "phone", "address", "date_of_birth", "personal_notes"]

  const PregnancyTextFields: seq<string> := [
    "last_period_date", "estimated_due_date", "blood_type", "allergies",
    "background_diseases", "hospital_primary", "g_p_summary"]

  /** The form before anything is loaded. */
  function InitialForm(): (r: Record)
    ensures Get(r, "pregnancy_id") == Null
    ensures Get(r, "number_of_fetuses") == Text("1") && Get(r, "number_of_previous_births") == Text("0")
    ensures forall f :: f in ProfileFields || f in PregnancyTextFields ==> Get(r, f) == Text("")
  {
    (map f | f in ProfileFields + PregnancyTextFields :: Text(""))
      ["pregnancy_id" := Null]["number_of_fetuses" := Text("1")]["number_of_previous_births" := Text("0")]
  }

  function PregnancyPart(preg: Record): (r: Record)
    ensures r.Keys == (set f | f in PregnancyTextFields) + {"pregnancy_id", "number_of_fetuses", "number_of_previous_births"}
    ensures r["pregnancy_id"] == Get(preg, "id")
    ensures r["number_of_fetuses"] == NumberText(Get(preg, "number_of_fetuses"), "1")
    ensures r["number_of_previous_births"] == NumberText(Get(preg, "number_of_previous_births"), "0")
    ensures forall f :: f in PregnancyTextFields ==> r[f] == OrText(Get(preg, f), "")
  {
    CountsNotText();
    TextPart(preg, PregnancyTextFields)["pregnancy_id" := Get(preg, "id")]
      ["number_of_fetuses" := NumberText(Get(preg, "number_of_fetuses"), "1")]
      ["number_of_previous_births" := NumberText(Get(preg, "number_of_previous_births"), "0")]
  }

  /**
   * The merged form: the profile's five fields, then, for a mother with an active
   * pregnancy, the pregnancy's. The form is replaced as a whole, so for anyone else the
   * pregnancy fields are gone.
   */
  function LoadedForm(profile: Record, preg: Option<Record>): (r: Record)
    ensures r.Keys == (set f | f in ProfileFields) + (if LoadsPregnancy(profile, preg) then PregnancyPart(preg.value).Keys else {})
    ensures LoadsPregnancy(profile, preg) ==> forall k :: k in PregnancyPart(preg.value) ==> r[k] == PregnancyPart(preg.value)[k]
  {
    var base := TextPart(profile, ProfileFields);
    if LoadsPregnancy(profile, preg) then base + PregnancyPart(preg.value) else base
  }

  /** The profile's and the pregnancy's fields are distinct. */
  lemma PartsDisjoint(preg: Record)
    ensures (set f | f in ProfileFields) !! PregnancyPart(preg).Keys
  {
  }

  /** Every profile field of the loaded form comes from the profile, `""` when empty. */
  lemma LoadedProfileField(profile: Record, preg: Option<Record>, f: string)
    requires f in ProfileFields
    ensures LoadedForm(profile, preg)[f] == OrText(Get(profile, f), "")
  {
    if preg.Some? {
      PartsDisjoint(preg.value);
    }
  }

  /** `parseInt(value) || fallback`: `NaN` and 0 give the fallback. */
  function ParseOr(v: Value, fallback: int): (r: Value)
    ensures r.Number?
    ensures ParseValue(v).Number? && ParseValue(v).n != 0 ==> r == ParseValue(v)
    ensures ParseValue(v) == Null || ParseValue(v) == Number(0) ==> r == Number(fallback)
  {
    var p := ParseValue(v);
    if p.Number? && p.n != 0 then p else Number(fallback)
  }

  /**
   * The pregnancy update: empty dates are sent as `null`; the two counts go through
   * `parseInt` with 1 fetus and 0 previous births as fallbacks.
   */
  function PregnancyUpdate(form: Record): (r: Record)
    ensures r.Keys == (set f | f in PregnancyTextFields) + {"number_of_fetuses", "number_of_previous_births"}
    ensures r["last_period_date"] == OrNull(Get(form, "last_period_date"))
    ensures r["estimated_due_date"] == OrNull(Get(form, "estimated_due_date"))
    ensures r["number_of_fetuses"] == ParseOr(Get(form, "number_of_fetuses"), 1)
    ensures r["number_of_previous_births"] == ParseOr(Get(form, "number_of_previous_births"), 0)
    ensures forall f :: f in PregnancyTextFields && f != "last_period_date" && f != "estimated_due_date" ==>
      r[f] == Get(form, f)
  {
    CountsNotText();
    (map f | f in PregnancyTextFields :: if IsDate(f) then OrNull(Get(form, f)) else Get(form, f))
      ["number_of_fetuses" := ParseOr(Get(form, "number_of_fetuses"), 1)]
      ["number_of_previous_births" := ParseOr(Get(form, "number_of_previous_births"), 0)]
  }

  /** The two date columns, sent as `null` when empty. */
  predicate IsDate(f: string) {
    f == "last_period_date" || f == "estimated_due_date"
  }

  /** The two counts are not among the text columns. */
  lemma CountsNotText()
    ensures "last_period_date" in PregnancyTextFields && "estimated_due_date" in PregnancyTextFields
    ensures forall f :: f in PregnancyTextFields ==>
      f != "number_of_fetuses" && f != "number_of_previous_births" && f != "pregnancy_id"
  {
  }

  /**
   * A stored number of fetuses survives a load and an unchanged save, except that 0 is
   * written back as 1; a missing one is written as 1.
   */
  lemma FetusCountSurvivesSave(profile: Record, preg: Record)
    requires Get(profile, "role") == Text("mother")
    ensures var v := Get(preg, "number_of_fetuses");
      var u := PregnancyUpdate(LoadedForm(profile, Some(preg)));
      && (v.Number? && v.n != 0 ==> u["number_of_fetuses"] == v)
      && (v == Number(0) || v == Null ==> u["number_of_fetuses"] == Number(1))
  {
    var v := Get(preg, "number_of_fetuses");
    var form := LoadedForm(profile, Some(preg));
    assert Get(form, "number_of_fetuses") == NumberText(v, "1");
    FallbackText('1');
    CountReadBack(v, "1", 1);
  }

  /** A stored number of previous births, 0 included, survives; a missing one is written as 0. */
  lemma BirthCountSurvivesSave(profile: Record, preg: Record)
    requires Get(profile, "role") == Text("mother")
    ensures var v := Get(preg, "number_of_previous_births");
      var u := PregnancyUpdate(LoadedForm(profile, Some(preg)));
      && (v.Number? ==> u["number_of_previous_births"] == v)
      && (v == Null ==> u["number_of_previous_births"] == Number(0))
  {
    var v := Get(preg, "number_of_previous_births");
    var form := LoadedForm(profile, Some(preg));
    assert Get(form, "number_of_previous_births") == NumberText(v, "0");
    FallbackText('0');
    CountReadBack(v, "0", 0);
  }

  class SettingsPage {
    var role: Value
    var formData: Record
    var loading: bool
    var saving: bool

    constructor()
      ensures role == Text("mother") && formData == InitialForm() && loading && !saving
    {
      role := Text("mother");
      formData := InitialForm();
      loading := true;
      saving := false;
    }

    /** `fetchUserData`: as in the first generation; a missing profile row changes nothing. */
    method FetchUserData(signedIn: bool, profile: Option<Record>, preg: Option<Record>)
      modifies this`role, this`formData, this`loading
      ensures signedIn && profile.Some? ==>
        role == Get(profile.value, "role") && formData == LoadedForm(profile.value, preg)
      ensures !(signedIn && profile.Some?) ==> role == old(role) && formData == old(formData)
      ensures !loading
    {
      if signedIn && profile.Some? {
        role := Get(profile.value, "role");
        formData := LoadedForm(profile.value, preg);
      }
      loading := false;
    }

    /** `handleChange`. */
    method HandleChange(field: string, value: Value)
      modifies this`formData
      ensures formData == Set(old(formData), field, value)
    {
      formData := Set(formData, field, value);
    }

    /**
     * `handleSave`: as in the first generation, with this generation's pregnancy update;
     * a successful save also reloads the page's data (`refetch`).
     */
    method HandleSave(signedIn: bool, profileOk: bool, pregnancyOk: bool)
      returns (profileWrite: Option<Record>, pregnancyWrite: Option<Record>, refetch: bool)
      modifies this`saving
      ensures !signedIn ==> profileWrite.None? && pregnancyWrite.None? && !refetch
      ensures signedIn ==> profileWrite == Some(ProfileUpdate(formData))
      ensures pregnancyWrite.Some? <==> signedIn && profileOk && WritesPregnancy(role, formData)
      ensures pregnancyWrite.Some? ==> pregnancyWrite.value == PregnancyUpdate(formData)
      ensures refetch <==> signedIn && profileOk && (pregnancyWrite.None? || pregnancyOk)
      ensures !saving
    {
      saving := true;
      profileWrite, pregnancyWrite, refetch := None, None, false;
      if signedIn {
        profileWrite := Some(ProfileUpdate(formData));
        if profileOk {
          if WritesPregnancy(role, formData) {
            pregnancyWrite := Some(PregnancyUpdate(formData));
          }
          refetch := pregnancyWrite.None? || pregnancyOk;
        }
      }
      saving := false;
    }
  }
}
