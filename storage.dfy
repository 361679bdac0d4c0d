/**
 * The browser's `localStorage`, shared by every component. The source stores
 * plain strings and lists as `JSON.stringify` text; here a stored value keeps
 * its type, and a value of the wrong shape stands for text `JSON.parse` would
 * reject or read as something else.
 */
module Storage {
  import opened Wrappers
  import opened Entities

  datatype Stored =
    | Text(text: string)
    | ProjectList(projects: seq<Project>)
    | ExperienceList(experiences: seq<Experience>)
    | EducationList(education: seq<Education>)
    | SkillList(skills: seq<Skill>)
    | CertificationList(certifications: seq<Certification>)

  /** The key/value store every component writes through. */
  class LocalStorage {
    var items: map<string, Stored>

    constructor (initial: map<string, Stored>)
      ensures items == initial
    {
      items := initial;
    }

    /** `localStorage.setItem(key, value)`. */
    method SetItem(key: string, value: Stored)
      modifies this
      ensures items == old(items)[key := value]
    {
      items := items[key := value];
    }

    /** `localStorage.removeItem(key)`; removing an absent key is allowed. */
    method RemoveItem(key: string)
      modifies this
      ensures items == old(items) - {key}
    {
      items := items - {key};
    }
  }

  /** `localStorage.getItem(key)`, with `null` as `None`. */
  function Lookup(items: map<string, Stored>, key: string): (r: Option<Stored>)
    ensures r.Some? <==> key in items
    ensures r.Some? ==> r.value == items[key]
  {
    if key in items then Some(items[key]) else None
  }

  /** `if (saved)`: a value read back is used only when present and not the empty string. */
  predicate Truthy(v: Option<Stored>) {
    v.Some? && v.value != Text("")
  }

  /** What reading a list back on mount gives: nothing stored, the list, or a value
      `JSON.parse` would not turn into the list (the source throws there). */
  datatype Restore<T> = NotStored | Restored(value: T) | Malformed

  /** Mount-time restore of a list from the value under its key; `pick` accepts the
      values of the list's own shape. */
  function RestoreWith<T>(v: Option<Stored>, pick: Stored -> Option<T>): (r: Restore<T>)
    ensures r.NotStored? <==> !Truthy(v)
    ensures r.Restored? <==> Truthy(v) && pick(v.value).Some?
    ensures r.Restored? ==> r.value == pick(v.value).value
  {
    if !Truthy(v) then NotStored
    else match pick(v.value)
      case Some(x) => Restored(x)
      case None => Malformed
  }

  /** `if (saved) setX(saved)` for a text key: the restored text, if any. */
  function TextOf(v: Option<Stored>): (r: Option<string>)
    ensures r.Some? <==> Truthy(v) && v.value.Text?
    ensures r.Some? ==> r.value != "" && v.value == Text(r.value)
  {
    if Truthy(v) && v.value.Text? then Some(v.value.text) else None
  }
}
