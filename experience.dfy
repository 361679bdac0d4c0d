/**
 * The experience section (components/experience.tsx): jobs with one
 * responsibility per line, saved under `"portfolio_experiences"`.
 */
module Experience {
  import opened Wrappers
  import opened Collection
  import opened TextList
  import opened Entities
  import opened Storage

  const ExperiencesKey: string := "portfolio_experiences"

  const DefaultExperiences: seq<Entities.Experience> := [
    Entry("1", ExperienceFields("Freelance", "Web Developer", "2023 - Present", [
      "Developed responsive websites for small businesses and startups",
      "Implemented modern web technologies including React and Next.js",
      "Collaborated with clients to understand requirements and deliver solutions",
      "Maintained and updated existing web applications"])),
    Entry("2", ExperienceFields("Academic Projects", "Student Developer", "2022 - Present", [
      "Built machine learning models for student performance prediction",
      "Created interactive web applications using React",
      "Participated in coding competitions and hackathons",
      "Collaborated with peers on group projects"]))
  ]

  /** The dialog's form: responsibilities are one text, a line each. */
  datatype ExperienceForm = ExperienceForm(company: string, role: string, duration: string, responsibilities: string)

  const EmptyForm: ExperienceForm := ExperienceForm("", "", "", "")

  /** The fields a submitted form saves: the responsibilities split into lines,
      trimmed, with blank lines dropped. */
  function FieldsOf(form: ExperienceForm): (r: ExperienceFields)
    ensures Normalised(r.responsibilities, '\n')
    ensures r.company == form.company && r.role == form.role && r.duration == form.duration
  {
    ExperienceFields(form.company, form.role, form.duration, Normalise(form.responsibilities, '\n'))
  }

  /** The form `handleEdit` fills in: responsibilities joined with "\n";
      splitting that text again on submit gives back normalised lines unchanged. */
  function FormOf(e: ExperienceFields): (r: ExperienceForm)
    ensures r.company == e.company && r.role == e.role && r.duration == e.duration
    ensures Normalised(e.responsibilities, '\n') ==> Normalise(r.responsibilities, '\n') == e.responsibilities
  {
    var form := ExperienceForm(e.company, e.role, e.duration, Join(e.responsibilities, "\n"));
    if Normalised(e.responsibilities, '\n') then LinesRoundTrip(e.responsibilities); form else form
  }

  /** Opening a saved job and submitting it untouched saves the same fields,
      provided its lines are trimmed, non-empty and contain no line break. */
  lemma EditSubmitRoundTrip(e: ExperienceFields)
    requires Normalised(e.responsibilities, '\n')
    ensures FieldsOf(FormOf(e)) == e
  {
    LinesRoundTrip(e.responsibilities);
  }

  function PickExperiences(v: Stored): Option<seq<Entities.Experience>> {
    if v.ExperienceList? then Some(v.experiences) else None
  }

  class ExperienceSection {
    const store: LocalStorage
    var experiences: seq<Entities.Experience>
    var isDialogOpen: bool
    var editingExperience: Option<Entities.Experience>
    var formData: ExperienceForm

    /** The list on screen is the list in storage. */
    predicate Mirrored()
      reads this, store
    {
      ExperiencesKey in store.items && store.items[ExperiencesKey] == ExperienceList(experiences)
    }

    /** Load after save: a reload of a mirrored list restores exactly that list. */
    lemma ReloadRestores()
      requires Mirrored()
      ensures RestoreWith(Lookup(store.items, ExperiencesKey), PickExperiences) == Restored(experiences)
    {
    }

    /** The dialog state `resetForm` leaves behind. */
    predicate FormCleared()
      reads this
    {
      formData == EmptyForm && editingExperience == None && !isDialogOpen
    }

    constructor (store: LocalStorage)
      ensures this.store == store && experiences == DefaultExperiences
      ensures FormCleared()
    {
      this.store := store;
      experiences := DefaultExperiences;
      isDialogOpen := false;
      editingExperience := None;
      formData := EmptyForm;
    }

    /** The mount effect: a saved list replaces the defaults. */
    method Mount() returns (outcome: Restore<seq<Entities.Experience>>)
      modifies this
      ensures outcome == RestoreWith(Lookup(store.items, ExperiencesKey), PickExperiences)
      ensures experiences == (if outcome.Restored? then outcome.value else old(experiences))
      ensures isDialogOpen == old(isDialogOpen) && editingExperience == old(editingExperience)
      ensures formData == old(formData)
    {
      outcome := RestoreWith(Lookup(store.items, ExperiencesKey), PickExperiences);
      if outcome.Restored? {
        experiences := outcome.value;
      }
    }

    /** `saveExperiences`: the new list on screen and in storage. */
    method Save(updated: seq<Entities.Experience>)
      modifies this, store
      ensures experiences == updated && Mirrored()
      ensures store.items == old(store.items)[ExperiencesKey := ExperienceList(updated)]
      ensures isDialogOpen == old(isDialogOpen) && editingExperience == old(editingExperience)
      ensures formData == old(formData)
    {
      experiences := updated;
      store.SetItem(ExperiencesKey, ExperienceList(updated));
    }

    /** `resetForm`: clears the dialog and leaves the list alone. */
    method ResetForm()
      modifies this
      ensures FormCleared() && experiences == old(experiences)
    {
      formData := EmptyForm;
      editingExperience := None;
      isDialogOpen := false;
    }

    /** The "Add Experience" button: a cleared form in an open dialog. */
    method OpenForAdd()
      modifies this
      ensures formData == EmptyForm && editingExperience == None && isDialogOpen
      ensures experiences == old(experiences)
    {
      ResetForm();
      isDialogOpen := true;
    }

    /** Typing into the dialog's inputs. */
    method EditForm(form: ExperienceForm)
      modifies this
      ensures formData == form
      ensures experiences == old(experiences) && editingExperience == old(editingExperience)
      ensures isDialogOpen == old(isDialogOpen)
    {
      formData := form;
    }

    /** `handleSubmit`: replaces every record with the editing id by the merged
        record, or appends a record with `newId`; then saves and resets the form. */
    method HandleSubmit(newId: string)
      modifies this, store
      ensures old(editingExperience).Some? ==>
        experiences == Updated(old(experiences), old(editingExperience).value.id, FieldsOf(old(formData)))
      ensures old(editingExperience).None? ==>
        experiences == old(experiences) + [Entry(newId, FieldsOf(old(formData)))]
      ensures Mirrored() && store.items == old(store.items)[ExperiencesKey := ExperienceList(experiences)]
      ensures FormCleared()
    {
      var fields := FieldsOf(formData);
      if editingExperience.Some? {
        Save(Updated(experiences, editingExperience.value.id, fields));
      } else {
        Save(experiences + [Entry(newId, fields)]);
      }
      ResetForm();
    }

    /** `handleDelete`: `confirmed` is the answer to the `confirm` prompt. */
    method HandleDelete(id: string, confirmed: bool)
      modifies this, store
      ensures confirmed ==> experiences == Removed(old(experiences), id)
      ensures confirmed ==> store.items == old(store.items)[ExperiencesKey := ExperienceList(experiences)]
      ensures !confirmed ==> experiences == old(experiences) && store.items == old(store.items)
      ensures isDialogOpen == old(isDialogOpen) && editingExperience == old(editingExperience)
      ensures formData == old(formData)
    {
      if confirmed {
        Save(Removed(experiences, id));
      }
    }

    /** `handleEdit`: the dialog opens on the job's fields. */
    method HandleEdit(e: Entities.Experience)
      modifies this
      ensures editingExperience == Some(e) && formData == FormOf(e.fields) && isDialogOpen
      ensures experiences == old(experiences)
    {
      editingExperience := Some(e);
      formData := FormOf(e.fields);
      isDialogOpen := true;
    }
  }
}
