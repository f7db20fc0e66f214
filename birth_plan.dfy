/**
 * The birth plan kept as JSON on a pregnancy: named sections of yes/no choices and free
 * notes, with the default plan and the two edits both viewers make.
 */
module BirthPlan {
  import opened Wrappers

  /** A birth plan: each section maps an option to whether it is wanted. */
  datatype Plan = Plan(sections: map<string, map<string, bool>>, notes: Option<string>)

  /** Lights, music and pool off; natural pain management only; empty notes. */
  function DefaultPlan(): (r: Plan)
    ensures r.sections.Keys == {"environment", "painManagement"}
    ensures forall k :: k in r.sections["environment"] ==> !r.sections["environment"][k]
    ensures forall k :: k in r.sections["painManagement"] ==>
      (r.sections["painManagement"][k] <==> k == "natural")
    ensures "natural" in r.sections["painManagement"]
    ensures r.notes == Some("")
  {
    Plan(map[
      "environment" := map["dimmedLights" := false, "music" := false, "pools" := false],
      "painManagement" := map["epidural" := false, "natural" := true, "gas" := false]],
      Some(""))
  }

  /**
   * `{ ...plan, [section]: { ...plan[section], [key]: value } }`: one choice is set; a
   * section the plan lacks is created holding just that choice.
   */
  function UpdateSection(p: Plan, section: string, key: string, value: bool): (r: Plan)
    ensures r.sections.Keys == p.sections.Keys + {section}
    ensures key in r.sections[section] && r.sections[section][key] == value
    ensures section in p.sections ==>
      r.sections[section].Keys == p.sections[section].Keys + {key}
      && forall k :: k in p.sections[section] && k != key ==> r.sections[section][k] == p.sections[section][k]
    ensures section !in p.sections ==> r.sections[section] == map[key := value]
    ensures forall s :: s in p.sections && s != section ==> r.sections[s] == p.sections[s]
    ensures r.notes == p.notes
  {
    var current := if section in p.sections then p.sections[section] else map[];
    p.(sections := p.sections[section := current[key := value]])
  }

  /** A second change of the same choice overrides the first. */
  lemma UpdateSectionTwice(p: Plan, section: string, key: string, a: bool, b: bool)
    ensures UpdateSection(UpdateSection(p, section, key, a), section, key, b)
         == UpdateSection(p, section, key, b)
  {
    var m := if section in p.sections then p.sections[section] else map[];
    assert m[key := a][key := b] == m[key := b];
    assert p.sections[section := m[key := a]][section := m[key := b]] == p.sections[section := m[key := b]];
  }

  /** Setting a choice to the value it already has changes nothing. */
  lemma UpdateSectionSame(p: Plan, section: string, key: string)
    requires section in p.sections && key in p.sections[section]
    ensures UpdateSection(p, section, key, p.sections[section][key]) == p
  {
    var m := p.sections[section];
    assert m[key := m[key]] == m;
    assert p.sections[section := m] == p.sections;
  }

  /** Changes to different choices can be made in either order. */
  lemma UpdateSectionCommutes(p: Plan, s1: string, k1: string, v1: bool, s2: string, k2: string, v2: bool)
    requires s1 != s2 || k1 != k2
    ensures UpdateSection(UpdateSection(p, s1, k1, v1), s2, k2, v2)
         == UpdateSection(UpdateSection(p, s2, k2, v2), s1, k1, v1)
  {
    var m1 := if s1 in p.sections then p.sections[s1] else map[];
    var m2 := if s2 in p.sections then p.sections[s2] else map[];
    if s1 == s2 {
      assert m1[k1 := v1][k2 := v2] == m1[k2 := v2][k1 := v1];
      assert p.sections[s1 := m1[k1 := v1]][s1 := m1[k1 := v1][k2 := v2]]
          == p.sections[s1 := m1[k2 := v2]][s1 := m1[k2 := v2][k1 := v1]];
    } else {
      assert p.sections[s1 := m1[k1 := v1]][s2 := m2[k2 := v2]]
          == p.sections[s2 := m2[k2 := v2]][s1 := m1[k1 := v1]];
    }
  }

  /** `{ ...plan, notes: value }`: only the notes change. */
  function UpdateNotes(p: Plan, value: string): (r: Plan)
    ensures r.sections == p.sections && r.notes == Some(value)
  {
    p.(notes := Some(value))
  }
}

/** The birth-plan tab of the client page, which edits a plan held by its parent. */
module BirthPlanTab {
  import opened Wrappers
  import opened BirthPlan

  /** `plan || default`: a missing plan is shown and edited as the default one. */
  function SafePlan(plan: Option<Plan>): (r: Plan)
    ensures plan.Some? ==> r == plan.value
    ensures plan.None? ==> r == DefaultPlan()
  {
    if plan.Some? then plan.value else DefaultPlan()
  }

  /** The notes box shows `""` when the plan has no notes. */
  function NotesText(plan: Option<Plan>): (r: string)
    ensures SafePlan(plan).notes.Some? ==> r == SafePlan(plan).notes.value
    ensures SafePlan(plan).notes.None? ==> r == []
  {
    SafePlan(plan).notes.GetOr("")
  }

  /** Editing a missing plan starts from the default: the other choices keep their defaults. */
  lemma EditMissingPlan(key: string, value: bool)
    requires key != "natural"
    ensures var r := UpdateSection(SafePlan(None), "painManagement", key, value);
      && r.sections["painManagement"][key] == value
      && r.sections["painManagement"]["natural"]
      && r.sections["environment"] == DefaultPlan().sections["environment"]
      && r.notes == Some("")
  {
  }
}

/** The stand-alone birth-plan editor, which holds the plan and saves it itself. */
module BirthPlanEditor {
  import opened Wrappers
  import opened BirthPlan

  class Editor {
    var plan: Plan
    var saving: bool

    /** The plan starts as the stored one, or the default when there is none. */
    constructor(initialData: Option<Plan>)
      ensures initialData.Some? ==> plan == initialData.value
      ensures initialData.None? ==> plan == DefaultPlan()
      ensures !saving
    {
      plan := if initialData.Some? then initialData.value else DefaultPlan();
      saving := false;
    }

    /** `updateSection`: one choice of the held plan is set. */
    method SetChoice(section: string, key: string, value: bool)
      modifies this`plan
      ensures plan == UpdateSection(old(plan), section, key, value)
    {
      plan := UpdateSection(plan, section, key, value);
    }

    /** Typing in the notes box replaces only the notes. */
    method EditNotes(value: string)
      modifies this`plan
      ensures plan == UpdateNotes(old(plan), value)
    {
      plan := UpdateNotes(plan, value);
    }

    /**
     * `handleSave`: the whole current plan is written as `birth_plan_notes`; the saving
     * flag is clear afterwards whether or not the write succeeded.
     */
    method HandleSave(writeOk: bool) returns (written: Plan)
      modifies this`saving
      ensures written == plan && !saving
    {
      saving := true;
      written := plan;
      saving := false;
    }
  }
}
