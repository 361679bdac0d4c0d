/**
 * The résumé slot that components/about.tsx and components/extras.tsx each keep
 * with the same code: a data-URL and a file name, stored under `"resume-url"`
 * and `"resume-name"`.
 */
module Resume {
  import opened Wrappers
  import opened Storage
  import opened Upload

  const UrlKey: string := "resume-url"
  const NameKey: string := "resume-name"

  /** The download name used when no file name is known. */
  const FallbackName: string := "resume.pdf"

  /** `handleResumeDownload`: nothing happens unless the url is a non-empty string;
      the link's download name is `resumeName || "resume.pdf"`. */
  function DownloadName(url: Option<string>, name: string): (r: Option<string>)
    ensures r.None? <==> url.None? || url.value == ""
    ensures r.Some? && name != "" ==> r.value == name
    ensures r.Some? && name == "" ==> r.value == "resume.pdf"
  {
    if url.None? || url.value == "" then None
    else if name != "" then Some(name)
    else Some(FallbackName)
  }

  /** A download, when there is one, never has an empty file name. */
  lemma DownloadNameNonEmpty(url: Option<string>, name: string)
    requires DownloadName(url, name).Some?
    ensures DownloadName(url, name).value != ""
  {
  }

  class ResumeSlot {
    const store: LocalStorage
    var resumeUrl: Option<string>
    var resumeName: string

    /** Both keys hold exactly what is on screen. */
    predicate InStore()
      reads this, store
    {
      resumeUrl.Some? &&
      Lookup(store.items, UrlKey) == Some(Text(resumeUrl.value)) &&
      Lookup(store.items, NameKey) == Some(Text(resumeName))
    }

    /** Load after upload: a reload restores the stored url, and the stored
        name unless it is empty (an empty name counts as absent). */
    lemma ReloadRestores()
      requires InStore()
      ensures resumeUrl.value != "" ==> TextOf(Lookup(store.items, UrlKey)) == resumeUrl
      ensures resumeName != "" ==> TextOf(Lookup(store.items, NameKey)) == Some(resumeName)
    {
    }

    /** Nothing on screen and neither key in storage. */
    predicate Cleared()
      reads this, store
    {
      resumeUrl == None && resumeName == "" && UrlKey !in store.items && NameKey !in store.items
    }

    constructor (store: LocalStorage)
      ensures this.store == store && resumeUrl == None && resumeName == ""
    {
      this.store := store;
      resumeUrl := None;
      resumeName := "";
    }

    /** The mount effect: each value is restored on its own, and only when its
        stored text is present and non-empty. */
    method Mount()
      modifies this
      ensures resumeUrl == (if TextOf(Lookup(store.items, UrlKey)).Some?
                            then TextOf(Lookup(store.items, UrlKey)) else old(resumeUrl))
      ensures resumeName == (if TextOf(Lookup(store.items, NameKey)).Some?
                             then TextOf(Lookup(store.items, NameKey)).value else old(resumeName))
    {
      var savedResume := TextOf(Lookup(store.items, UrlKey));
      var savedName := TextOf(Lookup(store.items, NameKey));
      if savedResume.Some? {
        resumeUrl := savedResume;
      }
      if savedName.Some? {
        resumeName := savedName.value;
      }
    }

    /** `handleResumeUpload` once the reader has produced `dataUrl`; unlike the image
        uploads there is no type or size check. */
    method HandleResumeUpload(file: Option<SelectedFile>, dataUrl: string)
      modifies this, store
      ensures file.None? ==> resumeUrl == old(resumeUrl) && resumeName == old(resumeName)
      ensures file.None? ==> store.items == old(store.items)
      ensures file.Some? ==> resumeUrl == Some(dataUrl) && resumeName == file.value.name
      ensures file.Some? ==>
        store.items == old(store.items)[UrlKey := Text(dataUrl)][NameKey := Text(file.value.name)]
      ensures file.Some? ==> InStore()
    {
      if file.Some? {
        resumeUrl := Some(dataUrl);
        resumeName := file.value.name;
        store.SetItem(UrlKey, Text(dataUrl));
        store.SetItem(NameKey, Text(file.value.name));
      }
    }

    /** `handleResumeDelete`: the result does not depend on what was there, so
        deleting again changes nothing. */
    method HandleResumeDelete()
      modifies this, store
      ensures Cleared()
      ensures store.items == old(store.items) - {UrlKey, NameKey}
    {
      resumeUrl := None;
      resumeName := "";
      store.RemoveItem(UrlKey);
      store.RemoveItem(NameKey);
    }

    /** `handleResumeDownload`: the file name the created link downloads as, if any. */
    method HandleResumeDownload() returns (download: Option<string>)
      ensures download == DownloadName(resumeUrl, resumeName)
    {
      download := DownloadName(resumeUrl, resumeName);
    }
  }
}
