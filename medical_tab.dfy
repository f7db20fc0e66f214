/**
 * The medical tab of the client page: field edits and the client's tag list. Each handler
 * builds a new form from the old one; the tag input's text is returned beside it.
 */
module MedicalTab {
  import opened Records
  import opened Seqs

  /** The tags column holds a text array, or nothing yet. */
  predicate TagsWellFormed(form: Record) {
    Get(form, "tags").List? || Get(form, "tags") == Null
  }

  /** `formData.tags || []`. */
  function Tags(form: Record): seq<string> {
    match Get(form, "tags")
    case List(items) => items
    case _ => []
  }

  predicate NoDuplicates(tags: seq<string>) {
    forall i, j :: 0 <= i < j < |tags| ==> tags[i] != tags[j]
  }

  /** `update(field, val)`: the named field takes the value, every other field is kept. */
  function Update(form: Record, field: string, val: Value): (r: Record)
    ensures Get(r, field) == val
    ensures forall k :: k in form && k != field ==> k in r && r[k] == form[k]
    ensures forall k :: k in r ==> k in form || k == field
  {
    Set(form, field, val)
  }

  /**
   * `addTag`: a non-empty tag that is not yet present is appended to the list and the
   * input is cleared; otherwise form and input stay as they were. The tag is not trimmed.
   */
  function AddTag(form: Record, newTag: string): (r: (Record, string))
    requires TagsWellFormed(form)
    ensures newTag != [] && newTag !in Tags(form) ==>
      r.0 == Update(form, "tags", List(Tags(form) + [newTag])) && r.1 == []
    ensures newTag == [] || newTag in Tags(form) ==> r == (form, newTag)
    ensures TagsWellFormed(r.0)
  {
    if newTag != [] && newTag !in Tags(form) then
      (Update(form, "tags", List(Tags(form) + [newTag])), "")
    else (form, newTag)
  }

  /** The input is cleared exactly when the tag was appended. */
  lemma AddTagClearsOnlyOnAppend(form: Record, newTag: string)
    requires TagsWellFormed(form)
    ensures AddTag(form, newTag).1 == [] <==> newTag == [] || newTag !in Tags(form)
    ensures |Tags(AddTag(form, newTag).0)| == |Tags(form)| + (if newTag != [] && newTag !in Tags(form) then 1 else 0)
  {
  }

  /** Adding a tag never creates a duplicate. */
  lemma AddTagKeepsNoDuplicates(form: Record, newTag: string)
    requires TagsWellFormed(form) && NoDuplicates(Tags(form))
    ensures NoDuplicates(Tags(AddTag(form, newTag).0))
  {
    var tags := Tags(form);
    if newTag != [] && newTag !in tags {
      var t := tags + [newTag];
      assert Tags(AddTag(form, newTag).0) == t;
      forall i, j | 0 <= i < j < |t| ensures t[i] != t[j] {
        if j == |tags| {
          assert t[i] == tags[i];
          assert tags[i] in tags;
        }
      }
    }
  }

  /** A tag of spaces alone is still accepted. */
  lemma BlankTagAccepted(form: Record)
    requires TagsWellFormed(form) && " " !in Tags(form)
    ensures Tags(AddTag(form, " ").0) == Tags(form) + [" "]
  {
  }

  /**
   * `removeTag`: every occurrence of the tag is removed and the remaining tags keep their
   * order. The list must exist: the page offers removal only for a shown tag.
   */
  function RemoveTag(form: Record, tag: string): (r: Record)
    requires Get(form, "tags").List?
    ensures Get(r, "tags").List?
    ensures tag !in Tags(r)
    ensures SubsequenceOf(Tags(r), Tags(form))
    ensures forall t :: t in Tags(form) && t != tag ==> t in Tags(r)
    ensures forall k :: k in form && k != "tags" ==> k in r && r[k] == form[k]
  {
    var keep := (t: string) => t != tag;
    var kept := Filter(Tags(form), keep);
    FilterSubsequence(Tags(form), keep);
    FilterKeepsOthers(Tags(form), tag);
    TagsOfUpdate(form, kept);
    Update(form, "tags", List(kept))
  }

  /** The tags of a form whose list was just replaced. */
  lemma TagsOfUpdate(form: Record, items: seq<string>)
    ensures Get(Update(form, "tags", List(items)), "tags") == List(items)
    ensures Tags(Update(form, "tags", List(items))) == items
  {
  }

  /** Filtering out one tag keeps every other tag. */
  lemma FilterKeepsOthers(tags: seq<string>, tag: string)
    ensures forall t :: t in tags && t != tag ==> t in Filter(tags, (x: string) => x != tag)
  {
    forall t | t in tags && t != tag ensures t in Filter(tags, (x: string) => x != tag) {
      var i :| 0 <= i < |tags| && tags[i] == t;
    }
  }

  /** Removing a tag just added gives back the list as it was. */
  lemma RemoveUndoesAdd(form: Record, newTag: string)
    requires TagsWellFormed(form) && newTag != [] && newTag !in Tags(form)
    ensures Tags(RemoveTag(AddTag(form, newTag).0, newTag)) == Tags(form)
  {
    var keep := (t: string) => t != newTag;
    var tags := Tags(form);
    forall i | 0 <= i < |tags| ensures keep(tags[i]) {
      assert tags[i] in tags;
    }
    FilterKeepsAll(tags, keep);
    FilterAppend(tags, [newTag], keep);
    assert Filter([newTag], keep) == [];
  }
}
