/**
 * The projects section (components/projects.tsx): a list of project cards an
 * admin can add, edit and delete, saved under `"portfolio_projects"`.
 */
module Projects {
  import opened Wrappers
  import opened Collection
  import opened TextList
  import opened Entities
  import opened Storage
  import opened Upload

  const ProjectsKey: string := "portfolio_projects"

  /** The three cards shown before anything is saved. */
  const DefaultProjects: seq<Project> := [
    Entry("1", ProjectFields(
      "Student Performance Prediction",
      "A machine learning project that predicts student performance based on various factors. Uses Python and scikit-learn to analyze educational data and provide insights.",
      ["Python", "Machine Learning", "scikit-learn", "Pandas"],
      "#", "#", "/machine-learning-dashboard.png")),
    Entry("2", ProjectFields(
      "React Shopping Cart",
      "A fully functional e-commerce shopping cart application built with React. Features include product listing, cart management, and checkout flow.",
      ["React", "JavaScript", "CSS", "HTML"],
      "#", "#", "/shopping-cart-interface.jpg")),
    Entry("3", ProjectFields(
      "Portfolio Website",
      "A modern, responsive portfolio website showcasing projects and skills. Built with Next.js and features dark/light mode toggle.",
      ["Next.js", "React", "TypeScript", "Tailwind CSS"],
      "#", "#", "/portfolio-website-design.png"))
  ]

  /** The dialog's form: the technologies are one comma-separated text. */
  datatype ProjectForm = ProjectForm(
    title: string,
    description: string,
    technologies: string,
    github: string,
    demo: string,
    image: string)

  const EmptyForm: ProjectForm := ProjectForm("", "", "", "", "", "")

  /** The fields a submitted form saves: the technologies text split on ',',
      trimmed, with empty names dropped; every other field as typed. */
  function FieldsOf(form: ProjectForm): (r: ProjectFields)
    ensures Normalised(r.technologies, ',')
    ensures r.title == form.title && r.description == form.description
    ensures r.github == form.github && r.demo == form.demo && r.image == form.image
  {
    ProjectFields(form.title, form.description, Normalise(form.technologies, ','),
                  form.github, form.demo, form.image)
  }

  /** The form `handleEdit` fills in: technologies joined with ", "; splitting
      that text again on submit gives back normalised names unchanged. */
  function FormOf(p: ProjectFields): (r: ProjectForm)
    ensures r.title == p.title && r.description == p.description
    ensures r.github == p.github && r.demo == p.demo && r.image == p.image
    ensures Normalised(p.technologies, ',') ==> Normalise(r.technologies, ',') == p.technologies
  {
    var form := ProjectForm(p.title, p.description, Join(p.technologies, ", "), p.github, p.demo, p.image);
    if Normalised(p.technologies, ',') then TechnologiesRoundTrip(p.technologies); form else form
  }

  /** Opening a saved project and submitting it untouched saves the same fields,
      provided its technology names are trimmed, non-empty and comma-free. */
  lemma EditSubmitRoundTrip(p: ProjectFields)
    requires Normalised(p.technologies, ',')
    ensures FieldsOf(FormOf(p)) == p
  {
    TechnologiesRoundTrip(p.technologies);
  }

  function PickProjects(v: Stored): Option<seq<Project>> {
    if v.ProjectList? then Some(v.projects) else None
  }

  class ProjectsSection {
    const store: LocalStorage
    var projects: seq<Project>
    var isDialogOpen: bool
    var editingProject: Option<Project>
    var imagePreview: string
    var formData: ProjectForm

    /** The list on screen is the list in storage. */
    predicate Mirrored()
      reads this, store
    {
      ProjectsKey in store.items && store.items[ProjectsKey] == ProjectList(projects)
    }

    /** Load after save: a reload of a mirrored list restores exactly that list. */
    lemma ReloadRestores()
      requires Mirrored()
      ensures RestoreWith(Lookup(store.items, ProjectsKey), PickProjects) == Restored(projects)
    {
    }

    /** The dialog state `resetForm` leaves behind. */
    predicate FormCleared()
      reads this
    {
      formData == EmptyForm && editingProject == None && imagePreview == "" && !isDialogOpen
    }

    constructor (store: LocalStorage)
      ensures this.store == store && projects == DefaultProjects
      ensures FormCleared()
    {
      this.store := store;
      projects := DefaultProjects;
      isDialogOpen := false;
      editingProject := None;
      imagePreview := "";
      formData := EmptyForm;
    }

    /** The mount effect: a saved list replaces the defaults. */
    method Mount() returns (outcome: Restore<seq<Project>>)
      modifies this
      ensures outcome == RestoreWith(Lookup(store.items, ProjectsKey), PickProjects)
      ensures projects == (if outcome.Restored? then outcome.value else old(projects))
      ensures isDialogOpen == old(isDialogOpen) && editingProject == old(editingProject)
      ensures imagePreview == old(imagePreview) && formData == old(formData)
    {
      outcome := RestoreWith(Lookup(store.items, ProjectsKey), PickProjects);
      if outcome.Restored? {
        projects := outcome.value;
      }
    }

    /** `saveProjects`: the new list on screen and in storage. */
    method Save(updated: seq<Project>)
      modifies this, store
      ensures projects == updated && Mirrored()
      ensures store.items == old(store.items)[ProjectsKey := ProjectList(updated)]
      ensures isDialogOpen == old(isDialogOpen) && editingProject == old(editingProject)
      ensures imagePreview == old(imagePreview) && formData == old(formData)
    {
      projects := updated;
      store.SetItem(ProjectsKey, ProjectList(updated));
    }

    /** `resetForm`: clears the dialog and leaves the list alone. */
    method ResetForm()
      modifies this
      ensures FormCleared() && projects == old(projects)
    {
      formData := EmptyForm;
      editingProject := None;
      imagePreview := "";
      isDialogOpen := false;
    }

    /** The "Add Project" button: a cleared form in an open dialog. */
    method OpenForAdd()
      modifies this
      ensures formData == EmptyForm && editingProject == None && imagePreview == "" && isDialogOpen
      ensures projects == old(projects)
    {
      ResetForm();
      isDialogOpen := true;
    }

    /** Typing into the dialog's inputs; the image has no text input and is kept. */
    method EditForm(form: ProjectForm)
      modifies this
      ensures formData == form.(image := old(formData).image)
      ensures projects == old(projects) && editingProject == old(editingProject)
      ensures imagePreview == old(imagePreview) && isDialogOpen == old(isDialogOpen)
    {
      formData := form.(image := formData.image);
    }

    /** `handleSubmit`: replaces every record with the editing id by the merged
        record, or appends a record with `newId` (`Date.now()` in the source);
        then saves and resets the form. */
    method HandleSubmit(newId: string)
      modifies this, store
      ensures old(editingProject).Some? ==>
        projects == Updated(old(projects), old(editingProject).value.id, FieldsOf(old(formData)))
      ensures old(editingProject).None? ==>
        projects == old(projects) + [Entry(newId, FieldsOf(old(formData)))]
      ensures Mirrored() && store.items == old(store.items)[ProjectsKey := ProjectList(projects)]
      ensures FormCleared()
    {
      var fields := FieldsOf(formData);
      if editingProject.Some? {
        Save(Updated(projects, editingProject.value.id, fields));
      } else {
        Save(projects + [Entry(newId, fields)]);
      }
      ResetForm();
    }

    /** `handleDelete`: `confirmed` is the answer to the `confirm` prompt. */
    method HandleDelete(id: string, confirmed: bool)
      modifies this, store
      ensures confirmed ==> projects == Removed(old(projects), id)
      ensures confirmed ==> store.items == old(store.items)[ProjectsKey := ProjectList(projects)]
      ensures !confirmed ==> projects == old(projects) && store.items == old(store.items)
      ensures isDialogOpen == old(isDialogOpen) && editingProject == old(editingProject)
      ensures imagePreview == old(imagePreview) && formData == old(formData)
    {
      if confirmed {
        Save(Removed(projects, id));
      }
    }

    /** `handleEdit`: the dialog opens on the project's fields. */
    method HandleEdit(p: Project)
      modifies this
      ensures editingProject == Some(p) && formData == FormOf(p.fields)
      ensures imagePreview == p.fields.image && isDialogOpen
      ensures projects == old(projects)
    {
      editingProject := Some(p);
      formData := FormOf(p.fields);
      imagePreview := p.fields.image;
      isDialogOpen := true;
    }

    /** `handleImageUpload`; `dataUrl` is what the file reader produces for the file. */
    method HandleImageUpload(file: Option<SelectedFile>, dataUrl: string) returns (outcome: UploadOutcome)
      modifies this
      ensures outcome == ImageUploadOutcome(file)
      ensures outcome == Loaded ==> formData == old(formData).(image := dataUrl) && imagePreview == dataUrl
      ensures outcome != Loaded ==> formData == old(formData) && imagePreview == old(imagePreview)
      ensures projects == old(projects) && editingProject == old(editingProject)
      ensures isDialogOpen == old(isDialogOpen)
    {
      outcome := ImageUploadOutcome(file);
      if outcome == Loaded {
        formData := formData.(image := dataUrl);
        imagePreview := dataUrl;
      }
    }

    /** `handleRemoveImage`. */
    method HandleRemoveImage()
      modifies this
      ensures formData == old(formData).(image := "") && imagePreview == ""
      ensures projects == old(projects) && editingProject == old(editingProject)
      ensures isDialogOpen == old(isDialogOpen)
    {
      formData := formData.(image := "");
      imagePreview := "";
    }
  }
}
