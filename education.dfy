/**
 * The education section (components/education.tsx): degrees with one
 * highlight per line, saved under `"portfolio_education"`.
 */
module Education {
  import opened Wrappers
  import opened Collection
  import opened TextList
  import opened Entities
  import opened Storage

  const EducationKey: string := "portfolio_education"

  const DefaultEducation: seq<Entities.Education> := [
    Entry("1", EducationFields("Bachelor of Technology in Computer Science", "Your University Name", "2021 - 2025", [
      "CGPA: 8.5/10",
      "Relevant Coursework: Data Structures, Algorithms, Machine Learning, Web Development",
      "Member of Computer Science Society",
      "Participated in multiple hackathons and coding competitions"])),
    Entry("2", EducationFields("Higher Secondary Education", "Your School Name", "2019 - 2021", [
      "Percentage: 85%",
      "Science Stream (PCM with Computer Science)",
      "School Topper in Computer Science",
      "Led the school coding club"]))
  ]

  /** The dialog's form: highlights are one text, a line each. */
  datatype EducationForm = EducationForm(degree: string, institute: string, duration: string, highlights: string)

  const EmptyForm: EducationForm := EducationForm("", "", "", "")

  /** The fields a submitted form saves: the highlights split into lines,
      trimmed, with blank lines dropped. */
  function FieldsOf(form: EducationForm): (r: EducationFields)
    ensures Normalised(r.highlights, '\n')
    ensures r.degree == form.degree && r.institute == form.institute && r.duration == form.duration
  {
    EducationFields(form.degree, form.institute, form.duration, Normalise(form.highlights, '\n'))
  }

  /** The form `handleEdit` fills in: highlights joined with "\n"; splitting
      that text again on submit gives back normalised lines unchanged. */
  function FormOf(e: EducationFields): (r: EducationForm)
    ensures r.degree == e.degree && r.institute == e.institute && r.duration == e.duration
    ensures Normalised(e.highlights, '\n') ==> Normalise(r.highlights, '\n') == e.highlights
  {
    var form := EducationForm(e.degree, e.institute, e.duration, Join(e.highlights, "\n"));
    if Normalised(e.highlights, '\n') then LinesRoundTrip(e.highlights); form else form
  }

  /** Opening a saved degree and submitting it untouched saves the same fields,
      provided its lines are trimmed, non-empty and contain no line break. */
  lemma EditSubmitRoundTrip(e: EducationFields)
    requires Normalised(e.highlights, '\n')
    ensures FieldsOf(FormOf(e)) == e
  {
    LinesRoundTrip(e.highlights);
  }

  function PickEducation(v: Stored): Option<seq<Entities.Education>> {
    if v.EducationList? then Some(v.education) else None
  }

  class EducationSection {
    const store: LocalStorage
    var education: seq<Entities.Education>
    var isDialogOpen: bool
    var editingEducation: Option<Entities.Education>
    var formData: EducationForm

    /** The list on screen is the list in storage. */
    predicate Mirrored()
      reads this, store
    {
      EducationKey in store.items && store.items[EducationKey] == EducationList(education)
    }

    /** Load after save: a reload of a mirrored list restores exactly that list. */
    lemma ReloadRestores()
      requires Mirrored()
      ensures RestoreWith(Lookup(store.items, EducationKey), PickEducation) == Restored(education)
    {
    }

    /** The dialog state `resetForm` leaves behind. */
    predicate FormCleared()
      reads this
    {
      formData == EmptyForm && editingEducation == None && !isDialogOpen
    }

    constructor (store: LocalStorage)
      ensures this.store == store && education == DefaultEducation
      ensures FormCleared()
    {
      this.store := store;
      education := DefaultEducation;
      isDialogOpen := false;
      editingEducation := None;
      formData := EmptyForm;
    }

    /** The mount effect: a saved list replaces the defaults. */
    method Mount() returns (outcome: Restore<seq<Entities.Education>>)
      modifies this
      ensures outcome == RestoreWith(Lookup(store.items, EducationKey), PickEducation)
      ensures education == (if outcome.Restored? then outcome.value else old(education))
      ensures isDialogOpen == old(isDialogOpen) && editingEducation == old(editingEducation)
      ensures formData == old(formData)
    {
      outcome := RestoreWith(Lookup(store.items, EducationKey), PickEducation);
      if outcome.Restored? {
        education := outcome.value;
      }
    }

    /** `saveEducation`: the new list on screen and in storage. */
    method Save(updated: seq<Entities.Education>)
      modifies this, store
      ensures education == updated && Mirrored()
      ensures store.items == old(store.items)[EducationKey := EducationList(updated)]
      ensures isDialogOpen == old(isDialogOpen) && editingEducation == old(editingEducation)
      ensures formData == old(formData)
    {
      education := updated;
      store.SetItem(EducationKey, EducationList(updated));
    }

    /** `resetForm`: clears the dialog and leaves the list alone. */
    method ResetForm()
      modifies this
      ensures FormCleared() && education == old(education)
    {
      formData := EmptyForm;
      editingEducation := None;
      isDialogOpen := false;
    }

    /** The "Add Education" button: a cleared form in an open dialog. */
    method OpenForAdd()
      modifies this
      ensures formData == EmptyForm && editingEducation == None && isDialogOpen
      ensures education == old(education)
    {
      ResetForm();
      isDialogOpen := true;
    }

    /** Typing into the dialog's inputs. */
    method EditForm(form: EducationForm)
      modifies this
      ensures formData == form
      ensures education == old(education) && editingEducation == old(editingEducation)
      ensures isDialogOpen == old(isDialogOpen)
    {
      formData := form;
    }

    /** `handleSubmit`: replaces every record with the editing id by the merged
        record, or appends a record with `newId`; then saves and resets the form. */
    method HandleSubmit(newId: string)
      modifies this, store
      ensures old(editingEducation).Some? ==>
        education == Updated(old(education), old(editingEducation).value.id, FieldsOf(old(formData)))
      ensures old(editingEducation).None? ==>
        education == old(education) + [Entry(newId, FieldsOf(old(formData)))]
      ensures Mirrored() && store.items == old(store.items)[EducationKey := EducationList(education)]
      ensures FormCleared()
    {
      var fields := FieldsOf(formData);
      if editingEducation.Some? {
        Save(Updated(education, editingEducation.value.id, fields));
      } else {
        Save(education + [Entry(newId, fields)]);
      }
      ResetForm();
    }

    /** `handleDelete`: `confirmed` is the answer to the `confirm` prompt. */
    method HandleDelete(id: string, confirmed: bool)
      modifies this, store
      ensures confirmed ==> education == Removed(old(education), id)
      ensures confirmed ==> store.items == old(store.items)[EducationKey := EducationList(education)]
      ensures !confirmed ==> education == old(education) && store.items == old(store.items)
      ensures isDialogOpen == old(isDialogOpen) && editingEducation == old(editingEducation)
      ensures formData == old(formData)
    {
      if confirmed {
        Save(Removed(education, id));
      }
    }

    /** `handleEdit`: the dialog opens on the degree's fields. */
    method HandleEdit(e: Entities.Education)
      modifies this
      ensures editingEducation == Some(e) && formData == FormOf(e.fields) && isDialogOpen
      ensures education == old(education)
    {
      editingEducation := Some(e);
      formData := FormOf(e.fields);
      isDialogOpen := true;
    }
  }
}
