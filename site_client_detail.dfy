/**
 * The doula's client page (site generation): the edit form built from the pregnancy row
 * and the mother's profile, the week shown in the header, the tag strip, the WhatsApp
 * button and the two update payloads sent on save. Rows and form are loosely typed
 * records; database calls become their results.
 */
module SiteClientDetail {
  import opened Wrappers
  import opened JsMath
  import opened Records
  import opened Pregnancy
  import Ui

  /** The six profile fields copied into the form, each defaulting to `""`. */
  const ProfileFields: seq<string> :=
    ["full_name", "phone", "phone_secondary", "email", "address", "occupation"]

  /** The profile columns written back on save. */
  const ProfileUpdateFields: seq<string> :=
    ["full_name", "phone", "phone_secondary", "address", "occupation"]

  /** The pregnancy columns written back on save, besides the two coerced to `null`. */
  const PregnancyCopiedFields: seq<string> := [
    "client_status", "is_shomeret_shabbat", "is_home_birth", "general_notes",
    "partner_name", "partner_phone", "partner_occupation", "companion_name",
    "companion_phone", "companion_relation", "blood_type", "allergies",
    "background_diseases", "obstetric_history", "hospital_primary", "hospital_secondary",
    "estimated_due_date", "number_of_fetuses", "number_of_previous_births", "g_p_summary",
    "birth_plan_notes", "backup_doula_name", "backup_doula_phone", "backup_doula_notes", "tags"]

  /** The pregnancy columns sent as `null` when their form value is falsy. */
  const PregnancyNullableFields: seq<string> := ["agreed_price", "last_period_date"]

  /** `profile?.field || ""`. */
  function ProfileValue(profile: Option<Record>, field: string): (r: Value)
    ensures profile.None? ==> r == Text("")
    ensures profile.Some? ==> r == OrText(Get(profile.value, field), "")
  {
    if profile.None? then Text("") else OrText(Get(profile.value, field), "")
  }

  /**
   * `{ ...preg, full_name: ..., ..., occupation: ... }`: every pregnancy column is copied,
   * then the six profile fields are set, each to `""` when missing or empty.
   */
  function FormDataOf(preg: Record, profile: Option<Record>): (r: Record)
    ensures r.Keys == preg.Keys + set f | f in ProfileFields
    ensures forall f :: f in ProfileFields ==> r[f] == ProfileValue(profile, f)
    ensures forall k :: k in preg && k !in ProfileFields ==> r[k] == preg[k]
  {
    var keys := preg.Keys + set f | f in ProfileFields;
    map k | k in keys :: if k in ProfileFields then ProfileValue(profile, k) else preg[k]
  }

  /** Every profile field of the loaded form is text, never `null`. */
  lemma FormProfileFieldsAreText(preg: Record, profile: Option<Record>, f: string)
    requires f in ProfileFields
    requires profile.Some? ==> forall k :: k in profile.value ==> profile.value[k].Text? || profile.value[k] == Null
    ensures FormDataOf(preg, profile)[f].Text?
  {
  }

  /** The fields listed, read from the form. */
  function Pick(form: Record, fields: seq<string>): (r: Record)
    ensures r.Keys == set f | f in fields
    ensures forall f :: f in fields ==> r[f] == Get(form, f)
  {
    map f | f in fields :: Get(form, f)
  }

  /** The profile update: five fields as they stand in the form. */
  function ProfileUpdate(form: Record): (r: Record)
    ensures r.Keys == set f | f in ProfileUpdateFields
    ensures forall f :: f in ProfileUpdateFields ==> r[f] == Get(form, f)
  {
    Pick(form, ProfileUpdateFields)
  }

  /**
   * The pregnancy update: the listed fields as they stand, except that a falsy
   * `agreed_price` or `last_period_date` is sent as `null`.
   */
  function PregnancyUpdate(form: Record): (r: Record)
    ensures r.Keys == (set f | f in PregnancyCopiedFields) + (set f | f in PregnancyNullableFields)
    ensures forall f :: f in PregnancyCopiedFields && f !in PregnancyNullableFields ==> r[f] == Get(form, f)
    ensures forall f :: f in PregnancyNullableFields ==> r[f] == OrNull(Get(form, f))
  {
    var keys := (set f | f in PregnancyCopiedFields) + (set f | f in PregnancyNullableFields);
    map f | f in keys :: if f in PregnancyNullableFields then OrNull(Get(form, f)) else Get(form, f)
  }

  /** An empty price or last-period date is sent as `null`, never as `""`. */
  lemma EmptyPriceSentAsNull(form: Record)
    requires Get(form, "agreed_price") == Text("") && Get(form, "last_period_date") == Text("")
    ensures PregnancyUpdate(form)["agreed_price"] == Null
    ensures PregnancyUpdate(form)["last_period_date"] == Null
  {
  }

  /**
   * `calculateWeek`: 0 without a due date; otherwise the raw week, never below 0 and
   * with no upper bound.
   */
  function CalculateWeek(due: Option<int>, now: int): (r: int)
    ensures r >= 0
    ensures due.None? ==> r == 0
    ensures due.Some? ==> r == Max(0, RawWeek(due.value, now))
  {
    if due.None? then 0 else Max(0, RawWeek(due.value, now))
  }

  /** Long after the due date the week keeps growing past 40. */
  lemma WeekUnbounded(due: int)
    ensures CalculateWeek(Some(due), due + 3 * WeekMs) == 43
  {
    assert FloorDiv(-3 * WeekMs, WeekMs) == -3;
  }

  /** The tags of the form as a list; a missing or non-list value shows no tags. */
  function TagsOf(form: Record): seq<string> {
    match Get(form, "tags")
    case List(items) => items
    case _ => []
  }

  /** The tag strip in the header: two tags, then `+k` for the rest. */
  function TagStrip(form: Record): (r: Ui.Strip)
    ensures |r.shown| <= 2 && |r.shown| <= |TagsOf(form)| && r.shown == TagsOf(form)[..|r.shown|]
    ensures r.more.Some? <==> |TagsOf(form)| > 2
    ensures r.more.Some? ==> r.more.value == |TagsOf(form)| - 2
  {
    Ui.Overflow(TagsOf(form), 2)
  }

  /** The WhatsApp button: the digits of the form's phone, `undefined` when it has none. */
  function WhatsApp(form: Record): (r: string)
    ensures Get(form, "phone").Text? ==> r == Ui.WhatsAppLink(Some(Get(form, "phone").s))
  {
    match Get(form, "phone")
    case Text(s) => Ui.WhatsAppLink(Some(s))
    case _ => Ui.WhatsAppLink(None)
  }

  /** The page's state: the form being edited and the editing and saving flags. */
  class ClientDetailPage {
    var formData: Record
    var isEditing: bool
    var saving: bool
    var loading: bool

    constructor()
      ensures formData == map[] && !isEditing && !saving && loading
    {
      formData := map[];
      isEditing := false;
      saving := false;
      loading := true;
    }

    /**
     * `fetchClientData`: without an id nothing happens; a failed fetch keeps the form; a
     * fetched pregnancy and profile replace the form with their merge.
     */
    method Load(id: Option<string>, fetched: Option<(Record, Option<Record>)>)
      modifies this
      ensures id.None? ==> formData == old(formData) && loading == old(loading)
      ensures id.Some? && fetched.None? ==> formData == old(formData) && !loading
      ensures id.Some? && fetched.Some? ==> formData == FormDataOf(fetched.value.0, fetched.value.1) && !loading
      ensures isEditing == old(isEditing) && saving == old(saving)
    {
      if id.None? {
        return;
      }
      loading := true;
      if fetched.Some? {
        formData := FormDataOf(fetched.value.0, fetched.value.1);
      }
      loading := false;
    }

    /** Editing one field from the form's inputs. */
    method Update(field: string, value: Value)
      modifies this`formData
      ensures formData == Set(old(formData), field, value)
    {
      formData := Set(formData, field, value);
    }

    /**
     * `handleSave`: both payloads are sent; the profile update's error is not checked,
     * so only the pregnancy update's outcome decides whether editing ends and the client
     * is fetched again. Saving is cleared either way.
     */
    method Save(pregnancyOk: bool) returns (profile: Record, pregnancy: Record, refetch: bool)
      modifies this`saving, this`isEditing
      ensures profile == ProfileUpdate(formData) && pregnancy == PregnancyUpdate(formData)
      ensures refetch <==> pregnancyOk
      ensures isEditing == (if pregnancyOk then false else old(isEditing))
      ensures !saving
    {
      saving := true;
      profile := ProfileUpdate(formData);
      pregnancy := PregnancyUpdate(formData);
      refetch := false;
      if pregnancyOk {
        isEditing := false;
        refetch := true;
      }
      saving := false;
    }
  }
}
