/**
 * The extras section (components/extras.tsx): a list of certifications kept by
 * position and saved under `"certifications"`, and its own résumé slot.
 */
module Extras {
  import opened Wrappers
  import opened Collection
  import opened Entities
  import opened Storage
  import opened Upload
  import opened Resume

  const CertificationsKey: string := "certifications"

  const DefaultCertifications: seq<Certification> := [
    Certification("Machine Learning Specialization", "Coursera", "2023", "", ""),
    Certification("Web Development Bootcamp", "Udemy", "2022", "", ""),
    Certification("Python for Data Science", "DataCamp", "2023", "", "")
  ]

  const EmptyForm: Certification := Certification("", "", "", "", "")

  /** The guard of `handleSaveCertification`: title, issuer and year must be filled in. */
  predicate Complete(c: Certification)
    ensures Complete(c) ==> c != EmptyForm
  {
    c.title != "" && c.issuer != "" && c.year != ""
  }

  /** The list a save produces: the form replaces position `editing`, or is
      appended when nothing is being edited; an incomplete form saves nothing. */
  function Saved(certs: seq<Certification>, editing: Option<int>, form: Certification): (r: Option<seq<Certification>>)
    ensures r.None? <==> !Complete(form)
    ensures r.Some? && editing.None? ==> r.value == certs + [form]
    ensures r.Some? && editing.Some? && 0 <= editing.value < |certs| ==>
      |r.value| == |certs| && r.value[editing.value] == form &&
      forall i :: 0 <= i < |certs| && i != editing.value ==> r.value[i] == certs[i]
    ensures r.Some? && editing.Some? && !(0 <= editing.value < |certs|) ==> r.value == certs
  {
    if !Complete(form) then None
    else if editing.Some? then Some(ReplacedAt(certs, editing.value, form))
    else Some(certs + [form])
  }

  /** Editing a certification and saving the form untouched gives back the same list. */
  lemma SaveUnchangedEdit(certs: seq<Certification>, k: int)
    requires 0 <= k < |certs| && Complete(certs[k])
    ensures Saved(certs, Some(k), certs[k]) == Some(certs)
  {
    assert certs[k := certs[k]] == certs;
  }

  /** Deleting the certification just appended gives back the old list. */
  lemma DeleteUndoesAppend(certs: seq<Certification>, form: Certification)
    requires Complete(form)
    ensures RemovedAt(Saved(certs, None, form).value, |certs|) == certs
  {
  }

  function PickCertifications(v: Stored): Option<seq<Certification>> {
    if v.CertificationList? then Some(v.certifications) else None
  }

  class ExtrasSection {
    const store: LocalStorage
    const resume: ResumeSlot
    var certifications: seq<Certification>
    var isDialogOpen: bool
    var editingIndex: Option<int>
    var formData: Certification
    var imagePreview: string

    /** The list on screen is the list in storage. */
    predicate Mirrored()
      reads this, store
    {
      CertificationsKey in store.items && store.items[CertificationsKey] == CertificationList(certifications)
    }

    /** Load after save: a reload of a mirrored list restores exactly that list. */
    lemma ReloadRestores()
      requires Mirrored()
      ensures RestoreWith(Lookup(store.items, CertificationsKey), PickCertifications) == Restored(certifications)
    {
    }

    constructor (store: LocalStorage)
      ensures this.store == store && fresh(resume) && resume.store == store
      ensures resume.resumeUrl == None && resume.resumeName == ""
      ensures certifications == DefaultCertifications && !isDialogOpen && editingIndex == None
      ensures formData == EmptyForm && imagePreview == ""
    {
      this.store := store;
      resume := new ResumeSlot(store);
      certifications := DefaultCertifications;
      isDialogOpen := false;
      editingIndex := None;
      formData := EmptyForm;
      imagePreview := "";
    }

    /** The mount effect: the résumé slot is restored, then a saved list replaces the defaults. */
    method Mount() returns (outcome: Restore<seq<Certification>>)
      requires resume.store == store
      modifies this, resume
      ensures outcome == RestoreWith(Lookup(store.items, CertificationsKey), PickCertifications)
      ensures certifications == (if outcome.Restored? then outcome.value else old(certifications))
      ensures resume.resumeUrl == (if TextOf(Lookup(store.items, UrlKey)).Some?
                                   then TextOf(Lookup(store.items, UrlKey)) else old(resume.resumeUrl))
      ensures resume.resumeName == (if TextOf(Lookup(store.items, NameKey)).Some?
                                    then TextOf(Lookup(store.items, NameKey)).value else old(resume.resumeName))
      ensures isDialogOpen == old(isDialogOpen) && editingIndex == old(editingIndex)
      ensures formData == old(formData) && imagePreview == old(imagePreview)
    {
      resume.Mount();
      outcome := RestoreWith(Lookup(store.items, CertificationsKey), PickCertifications);
      if outcome.Restored? {
        certifications := outcome.value;
      }
    }

    /** `handleAddCertification`: nothing being edited, a cleared form, the dialog open. */
    method HandleAdd()
      modifies this
      ensures editingIndex == None && formData == EmptyForm && imagePreview == "" && isDialogOpen
      ensures certifications == old(certifications)
    {
      editingIndex := None;
      formData := EmptyForm;
      imagePreview := "";
      isDialogOpen := true;
    }

    /** `handleEditCertification(index)`; the buttons pass the index of a listed card. */
    method HandleEdit(index: int)
      requires 0 <= index < |certifications|
      modifies this
      ensures certifications == old(certifications)
      ensures editingIndex == Some(index) && formData == certifications[index]
      ensures imagePreview == certifications[index].image && isDialogOpen
    {
      editingIndex := Some(index);
      formData := certifications[index];
      imagePreview := certifications[index].image;
      isDialogOpen := true;
    }

    /** Typing into the dialog's inputs; the image has no text input and is kept. */
    method EditForm(form: Certification)
      modifies this
      ensures formData == form.(image := old(formData).image)
      ensures certifications == old(certifications) && editingIndex == old(editingIndex)
      ensures imagePreview == old(imagePreview) && isDialogOpen == old(isDialogOpen)
    {
      formData := form.(image := formData.image);
    }

    /** `handleDeleteCertification(index)`: no confirmation; the list is saved at once.
        `editingIndex` is left as it is. */
    method HandleDelete(index: int)
      modifies this, store
      ensures certifications == RemovedAt(old(certifications), index) && Mirrored()
      ensures store.items == old(store.items)[CertificationsKey := CertificationList(certifications)]
      ensures isDialogOpen == old(isDialogOpen) && editingIndex == old(editingIndex)
      ensures formData == old(formData) && imagePreview == old(imagePreview)
    {
      var updated := RemovedAt(certifications, index);
      certifications := updated;
      store.SetItem(CertificationsKey, CertificationList(updated));
    }

    /** `handleSaveCertification`: an incomplete form is ignored; otherwise the list is
        saved and the dialog closes with a cleared form. `editingIndex` is not reset. */
    method HandleSave()
      modifies this, store
      ensures Saved(old(certifications), old(editingIndex), old(formData)).None? ==>
        certifications == old(certifications) && store.items == old(store.items) &&
        formData == old(formData) && imagePreview == old(imagePreview) && isDialogOpen == old(isDialogOpen)
      ensures Saved(old(certifications), old(editingIndex), old(formData)).Some? ==>
        certifications == Saved(old(certifications), old(editingIndex), old(formData)).value &&
        Mirrored() &&
        store.items == old(store.items)[CertificationsKey := CertificationList(certifications)] &&
        formData == EmptyForm && imagePreview == "" && !isDialogOpen
      ensures editingIndex == old(editingIndex)
    {
      var updated := Saved(certifications, editingIndex, formData);
      if updated.None? {
        return;
      }
      certifications := updated.value;
      store.SetItem(CertificationsKey, CertificationList(certifications));
      isDialogOpen := false;
      formData := EmptyForm;
      imagePreview := "";
    }

    /** `handleImageUpload`; `dataUrl` is what the file reader produces for the file. */
    method HandleImageUpload(file: Option<SelectedFile>, dataUrl: string) returns (outcome: UploadOutcome)
      modifies this
      ensures outcome == ImageUploadOutcome(file)
      ensures outcome == Loaded ==> formData == old(formData).(image := dataUrl) && imagePreview == dataUrl
      ensures outcome != Loaded ==> formData == old(formData) && imagePreview == old(imagePreview)
      ensures certifications == old(certifications) && editingIndex == old(editingIndex)
      ensures isDialogOpen == old(isDialogOpen)
    {
      outcome := ImageUploadOutcome(file);
      if outcome == Loaded {
        formData := formData.(image := dataUrl);
        imagePreview := dataUrl;
      }
    }

    /** `handleRemoveImage`. */
    method HandleRemoveImage()
      modifies this
      ensures formData == old(formData).(image := "") && imagePreview == ""
      ensures certifications == old(certifications) && editingIndex == old(editingIndex)
      ensures isDialogOpen == old(isDialogOpen)
    {
      formData := formData.(image := "");
      imagePreview := "";
    }
  }
}
