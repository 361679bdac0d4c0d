/**
 * The technical-skills list (components/skills.tsx): a name and a level per
 * skill, saved under `"portfolio_technical_skills"`, drawn as a bar whose
 * width follows the level.
 */
module Skills {
  import opened Wrappers
  import opened Collection
  import opened Entities
  import opened Storage

  const SkillsKey: string := "portfolio_technical_skills"

  const DefaultSkills: seq<Skill> := [
    Entry("1", SkillFields("Java", Intermediate)),
    Entry("2", SkillFields("Python", Intermediate)),
    Entry("3", SkillFields("HTML", Advanced)),
    Entry("4", SkillFields("JavaScript", Intermediate)),
    Entry("5", SkillFields("CSS", Advanced))
  ]

  /** The form holds exactly a skill's fields; a new form starts at Intermediate. */
  const EmptyForm: SkillFields := SkillFields("", Intermediate)

  /** The order of the select's options. */
  function Rank(l: Level): nat {
    match l
    case Beginner => 0
    case Intermediate => 1
    case Advanced => 2
  }

  /** The bar width in percent: 90 for Advanced, 70 for Intermediate, 50 otherwise. */
  function BarWidth(l: Level): (w: nat)
    ensures 50 <= w <= 90
    ensures w == 50 + 20 * Rank(l)
  {
    if l == Advanced then 90 else if l == Intermediate then 70 else 50
  }

  /** A higher level never draws a shorter bar, and different levels draw different bars. */
  lemma BarWidthMonotone(a: Level, b: Level)
    ensures Rank(a) <= Rank(b) <==> BarWidth(a) <= BarWidth(b)
    ensures a != b ==> BarWidth(a) != BarWidth(b)
  {
  }

  function PickSkills(v: Stored): Option<seq<Skill>> {
    if v.SkillList? then Some(v.skills) else None
  }

  class SkillsSection {
    const store: LocalStorage
    var technicalSkills: seq<Skill>
    var isDialogOpen: bool
    var editingSkill: Option<Skill>
    var formData: SkillFields

    /** The list on screen is the list in storage. */
    predicate Mirrored()
      reads this, store
    {
      SkillsKey in store.items && store.items[SkillsKey] == SkillList(technicalSkills)
    }

    /** Load after save: a reload of a mirrored list restores exactly that list. */
    lemma ReloadRestores()
      requires Mirrored()
      ensures RestoreWith(Lookup(store.items, SkillsKey), PickSkills) == Restored(technicalSkills)
    {
    }

    /** The dialog state `resetForm` leaves behind. */
    predicate FormCleared()
      reads this
    {
      formData == EmptyForm && editingSkill == None && !isDialogOpen
    }

    constructor (store: LocalStorage)
      ensures this.store == store && technicalSkills == DefaultSkills
      ensures FormCleared()
    {
      this.store := store;
      technicalSkills := DefaultSkills;
      isDialogOpen := false;
      editingSkill := None;
      formData := EmptyForm;
    }

    /** The mount effect: a saved list replaces the defaults. */
    method Mount() returns (outcome: Restore<seq<Skill>>)
      modifies this
      ensures outcome == RestoreWith(Lookup(store.items, SkillsKey), PickSkills)
      ensures technicalSkills == (if outcome.Restored? then outcome.value else old(technicalSkills))
      ensures isDialogOpen == old(isDialogOpen) && editingSkill == old(editingSkill)
      ensures formData == old(formData)
    {
      outcome := RestoreWith(Lookup(store.items, SkillsKey), PickSkills);
      if outcome.Restored? {
        technicalSkills := outcome.value;
      }
    }

    /** `saveSkills`: the new list on screen and in storage. */
    method Save(updated: seq<Skill>)
      modifies this, store
      ensures technicalSkills == updated && Mirrored()
      ensures store.items == old(store.items)[SkillsKey := SkillList(updated)]
      ensures isDialogOpen == old(isDialogOpen) && editingSkill == old(editingSkill)
      ensures formData == old(formData)
    {
      technicalSkills := updated;
      store.SetItem(SkillsKey, SkillList(updated));
    }

    /** `resetForm`: empty name, level back to Intermediate, nothing being edited. */
    method ResetForm()
      modifies this
      ensures FormCleared() && technicalSkills == old(technicalSkills)
    {
      formData := EmptyForm;
      editingSkill := None;
      isDialogOpen := false;
    }

    /** The "Add Skill" button: a cleared form in an open dialog. */
    method OpenForAdd()
      modifies this
      ensures formData == EmptyForm && editingSkill == None && isDialogOpen
      ensures technicalSkills == old(technicalSkills)
    {
      ResetForm();
      isDialogOpen := true;
    }

    /** The name input and the level select; the select offers only the three levels. */
    method EditForm(form: SkillFields)
      modifies this
      ensures formData == form
      ensures technicalSkills == old(technicalSkills) && editingSkill == old(editingSkill)
      ensures isDialogOpen == old(isDialogOpen)
    {
      formData := form;
    }

    /** `handleSubmit`: `{...editingSkill, ...formData}` keeps the id and takes the
        form's name and level; a new skill gets `newId`. */
    method HandleSubmit(newId: string)
      modifies this, store
      ensures old(editingSkill).Some? ==>
        technicalSkills == Updated(old(technicalSkills), old(editingSkill).value.id, old(formData))
      ensures old(editingSkill).None? ==>
        technicalSkills == old(technicalSkills) + [Entry(newId, old(formData))]
      ensures Mirrored() && store.items == old(store.items)[SkillsKey := SkillList(technicalSkills)]
      ensures FormCleared()
    {
      if editingSkill.Some? {
        Save(Updated(technicalSkills, editingSkill.value.id, formData));
      } else {
        Save(technicalSkills + [Entry(newId, formData)]);
      }
      ResetForm();
    }

    /** `handleDelete`: `confirmed` is the answer to the `confirm` prompt. */
    method HandleDelete(id: string, confirmed: bool)
      modifies this, store
      ensures confirmed ==> technicalSkills == Removed(old(technicalSkills), id)
      ensures confirmed ==> store.items == old(store.items)[SkillsKey := SkillList(technicalSkills)]
      ensures !confirmed ==> technicalSkills == old(technicalSkills) && store.items == old(store.items)
      ensures isDialogOpen == old(isDialogOpen) && editingSkill == old(editingSkill)
      ensures formData == old(formData)
    {
      if confirmed {
        Save(Removed(technicalSkills, id));
      }
    }

    /** `handleEdit`: the dialog opens on the skill's name and level. */
    method HandleEdit(s: Skill)
      modifies this
      ensures editingSkill == Some(s) && formData == s.fields && isDialogOpen
      ensures technicalSkills == old(technicalSkills)
    {
      editingSkill := Some(s);
      formData := s.fields;
      isDialogOpen := true;
    }
  }
}
