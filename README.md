# Portfolio site: a verified model of its editable state

The site is a single-page portfolio written as React components. Most of it is
rendering. The parts that hold and change state are modelled here:

- the admin session (`isAdmin`, `isEditMode` and the stored `"isAdmin"` flag);
- the five editable lists: projects, experience, education, technical skills
  and certifications. Each list has add, edit and delete, and every change is
  written to a fixed `localStorage` key;
- the delimiter-list normaliser that turns a form's text field into a list;
  the edit dialog joins the list back into text;
- the image-upload check (MIME type prefix `image/`, at most 5 MiB);
- the résumé slot (`"resume-url"` / `"resume-name"`) kept by the About and
  Extras sections;
- the header's scroll-driven active-section search and its mobile menu toggle.

Each component is a `class` whose fields are the component's `useState`
values. `localStorage` is one shared `Storage.LocalStorage` object with a
`map<string, Stored>` field. The admin provider, the résumé slot and the
editable sections hold a reference to it and write through `SetItem` and
`RemoveItem`; the header holds none. The list transforms and the text
normaliser are pure functions, and the methods are proved against them.

Modules, one per source file plus shared ones:

| module | file | models |
|---|---|---|
| `Wrappers` | wrappers.dfy | `T \| null` as `Option<T>` |
| `TextList` | text_list.dfy | `split(d).map(trim).filter(Boolean)` and `join` |
| `Collection` | collection.dfy | id-keyed records, and the id- and position-based `map`/`filter` |
| `Entities` | entities.dfy | the record types of the five lists |
| `Storage` | storage.dfy | `localStorage` and the mount-time restore |
| `Upload` | upload.dfy | the image check |
| `Admin` | admin.dfy | lib/admin-context.tsx |
| `Projects`, `Experience`, `Education`, `Skills`, `Extras` | one file each | the components of the same name |
| `Resume` | resume.dfy | the résumé slot of components/about.tsx and components/extras.tsx |
| `Header` | header.dfy | components/header.tsx |

Inputs that come from the browser are parameters:

- the `Date.now()` id of a new record;
- the answer to `confirm`;
- the data URL the `FileReader` produces;
- the selected `File` (name, type, size);
- `window.scrollY`;
- the page's section geometry, as a map from element id to `(offsetTop, offsetHeight)`. An id missing from the map is an element `getElementById` does not find.

## Model

| member | source | states |
|---|---|---|
| TextList.Trim | components/projects.tsx:97 | `trim()` result has no leading or trailing ECMAScript whitespace and only characters of the input (its value: `TrimAround`) |
| TextList.TrimAround | components/projects.tsx:97 | trimming a non-empty trimmed word padded on both sides with whitespace gives back the word |
| TextList.Split | components/projects.tsx:96 | `split(d)` gives at least one piece and no piece contains `d` |
| TextList.JoinSplit | components/projects.tsx:96 | joining the pieces of `split(d)` with `d` gives back the text |
| TextList.Clean | components/projects.tsx:97-98 | trimming and dropping empties keeps no more pieces than it was given; each kept piece is non-empty and trimmed, and no delimiter is introduced (contents: `CleanMembers`, order: `CleanConcat`) |
| TextList.CleanConcat | components/projects.tsx:97-98 | trimming and dropping empties works piece by piece: cleaning `a + b` is cleaning `a` followed by cleaning `b`, so kept pieces stay in order |
| TextList.CleanMembers | components/projects.tsx:97-98 | every piece whose trim is non-empty is kept (trimmed), and every kept item is the trim of some piece |
| TextList.Join | components/projects.tsx:131 | `join` of no parts is the empty text and of one part is that part |
| TextList.Normalise | components/projects.tsx:95-98 | every technology saved is non-empty, trimmed and comma-free |
| TextList.NormaliseJoin | components/projects.tsx:95-98 | for non-empty, trimmed, delimiter-free items, normalising their join with the delimiter plus any whitespace padding gives back the items |
| TextList.TechnologiesRoundTrip | components/projects.tsx:131 | normalising the `", "`-join of a normalised technology list on `","` gives back the list |
| TextList.LinesRoundTrip | components/experience.tsx:120 | normalising the `"\n"`-join of normalised lines on `"\n"` gives back the lines |
| TextList.TechnologiesExample | components/projects.tsx:95-98 | text shaped like `"React, TypeScript ,Next.js"` (names `a, b ,c`) normalises to `[a, b, c]` |
| TextList.LinesExample | components/experience.tsx:83-86 | text shaped like `"a\nb\n\n c "` normalises to its three lines: the blank line is dropped and the padded one trimmed |
| TextList.TechnologiesLiteral | components/projects.tsx:95-98 | the text `"React, TypeScript ,Next.js"` is saved as `["React", "TypeScript", "Next.js"]` |
| TextList.LinesLiteral | components/experience.tsx:83-86 | the text `"a\nb\n\n c "` is saved as the lines `["a", "b", "c"]` |
| Collection.Updated | components/projects.tsx:102-104 | same length; each record with the editing id becomes the merged record carrying that id; every other position is unchanged |
| Collection.Removed | components/projects.tsx:121 | the result holds exactly the records of the list whose id differs |
| Collection.RemovedAt | components/extras.tsx:103 | position `k` is cut out for a valid index; otherwise the list is unchanged |
| Collection.ReplacedAt | components/extras.tsx:113 | position `k` becomes the form for a valid index; otherwise the list is unchanged |
| Collection.UpdatedKeepsIds | components/projects.tsx:102-104 | an update changes no id and no order of ids |
| Collection.UpdatedIdempotent | components/projects.tsx:102-104 | saving the same edit twice equals saving it once |
| Collection.UpdatedAbsent | components/projects.tsx:102-104 | an update whose id no record carries changes nothing |
| Collection.CountZero | components/projects.tsx:102-104 | an id counted zero times is carried by no record |
| Collection.RemovedConcat | components/projects.tsx:121 | delete distributes over concatenation, so the relative order of kept records is preserved |
| Collection.RemovedLength | components/projects.tsx:121 | delete shrinks the list by the number of records with that id (by one for a unique id) |
| Collection.RemovedAbsent | components/projects.tsx:121 | deleting an id nobody carries changes nothing |
| Collection.RemovedIdempotent | components/projects.tsx:121 | deleting twice equals deleting once |
| Collection.RemoveUndoesAdd | components/projects.tsx:113 | deleting a freshly appended record's id gives back the old list |
| Collection.RemovedAfterUpdated | components/projects.tsx:100-124 | deleting after editing equals deleting |
| Collection.RemovedAtLength | components/extras.tsx:103 | a valid positional delete shortens the list by one, keeps positions before it and shifts the rest down by one |
| Storage.LocalStorage.SetItem | components/projects.tsx:89 | `setItem` stores the value under the key and leaves every other key as it was |
| Storage.LocalStorage.RemoveItem | lib/admin-context.tsx:40 | `removeItem` drops the key and leaves every other key as it was |
| Storage.Lookup | components/projects.tsx:81 | `getItem` gives the stored value exactly when the key is present |
| Storage.RestoreWith | components/projects.tsx:80-85 | nothing is restored unless the stored value is present and non-empty; a value of the list's shape is restored; any other value is the case where `JSON.parse` throws or yields a different value |
| Storage.TextOf | components/about.tsx:29-32 | a text key is restored only when present and non-empty, and then as stored |
| Upload.CheckImage | components/projects.tsx:158-167 | type alert exactly when the type lacks the `image/` prefix; size alert exactly for an image over 5242880 bytes; accepted otherwise |
| Upload.ImageUploadOutcome | components/projects.tsx:154-177 | nothing without a file; the image is loaded exactly when the file passes the check; a rejection carries the check's own reason |
| Upload.SizeBoundary | components/projects.tsx:164 | exactly 5 MiB is accepted and one byte more is not |
| Upload.TypeCheckedFirst | components/extras.tsx:129-139 | a large non-image gets the type alert |
| Admin.Mounted | lib/admin-context.tsx:21-26 | admin turns on exactly when stored `"isAdmin"` is the text `"true"`; edit mode and storage are untouched |
| Admin.LoggedIn | lib/admin-context.tsx:28-35 | success iff the password is `"@123admin"`; then admin on and `"isAdmin"` = `"true"`, edit mode kept; otherwise nothing changes |
| Admin.LoggedOut | lib/admin-context.tsx:37-41 | both flags off and `"isAdmin"` removed, from any session |
| Admin.Toggled | lib/admin-context.tsx:43-45 | only edit mode flips |
| Admin.LogoutIdempotent | lib/admin-context.tsx:37-41 | logging out twice equals once |
| Admin.ToggleInvolution | lib/admin-context.tsx:43-45 | two toggles restore the session |
| Admin.ConsistentPreserved | components/admin-login.tsx:27-30 | edit mode implies admin is kept by mount, login, logout, and by the toggle when it is offered (admin only) |
| Admin.WrongPasswordChangesNothing | lib/admin-context.tsx:28-35 | a wrong password returns false and changes neither flags nor storage |
| Admin.AdminProvider.constructor | lib/admin-context.tsx:18-19 | a fresh provider is not admin and not in edit mode |
| Admin.AdminProvider.Mount | lib/admin-context.tsx:21-26 | the state after mount is `Mounted` of the state before |
| Admin.AdminProvider.Login | lib/admin-context.tsx:28-35 | the state and the result are `LoggedIn` of the state before |
| Admin.AdminProvider.Logout | lib/admin-context.tsx:37-41 | the state is `LoggedOut` of the state before |
| Admin.AdminProvider.ToggleEditMode | lib/admin-context.tsx:43-45 | the state is `Toggled` of the state before; only callable as admin |
| Projects.FieldsOf | components/projects.tsx:95-113 | a submitted form saves normalised technologies and every other field as typed |
| Projects.FormOf | components/projects.tsx:126-138 | the edit form copies every field, and its technologies text normalises back to the saved names when those are normalised |
| Projects.EditSubmitRoundTrip | components/projects.tsx:126-138 | opening a project with normalised technologies and submitting unchanged saves the same fields |
| Projects.ProjectsSection.constructor | components/projects.tsx:66-78 | default projects, empty form, nothing edited, dialog closed |
| Projects.ProjectsSection.Mount | components/projects.tsx:80-85 | a restored list replaces the current one; otherwise nothing changes |
| Projects.ProjectsSection.Save | components/projects.tsx:87-90 | the list on screen is the given list and is stored under `"portfolio_projects"` |
| Projects.ProjectsSection.ReloadRestores | components/projects.tsx:80-90 | load after save: whenever the list is mirrored under `portfolio_projects`, the next mount restores exactly that list |
| Projects.ProjectsSection.ResetForm | components/projects.tsx:140-152 | form, editing record and preview cleared, dialog closed, list untouched |
| Projects.ProjectsSection.OpenForAdd | components/projects.tsx:195-198 | a cleared form in an open dialog |
| Projects.ProjectsSection.EditForm | components/projects.tsx:217-257 | the typed fields replace the form's; the image stays |
| Projects.ProjectsSection.HandleSubmit | components/projects.tsx:92-117 | edit: `Updated` by the editing id with the form's fields; add: the old list plus one record with the new id at the end; the list is mirrored to storage and the form reset |
| Projects.ProjectsSection.HandleDelete | components/projects.tsx:119-124 | declined: nothing changes; confirmed: `Removed` by id and stored |
| Projects.ProjectsSection.HandleEdit | components/projects.tsx:126-138 | editing that project, form filled with its fields (technologies joined), preview its image, dialog open |
| Projects.ProjectsSection.HandleImageUpload | components/projects.tsx:154-177 | a rejected or missing file leaves form and preview; an accepted one puts the data URL in both |
| Projects.ProjectsSection.HandleRemoveImage | components/projects.tsx:179-182 | image and preview emptied, nothing else changes |
| Experience.FieldsOf | components/experience.tsx:83-101 | a submitted form saves normalised responsibility lines and the other fields as typed |
| Experience.FormOf | components/experience.tsx:114-121 | the edit form copies company, role and duration, and its responsibilities text normalises back to the saved lines when those are normalised |
| Experience.EditSubmitRoundTrip | components/experience.tsx:114-123 | opening a job with normalised lines and submitting unchanged saves the same fields |
| Experience.ExperienceSection.constructor | components/experience.tsx:58-66 | default jobs, empty form, nothing edited, dialog closed |
| Experience.ExperienceSection.Mount | components/experience.tsx:68-73 | a restored list replaces the current one; otherwise nothing changes |
| Experience.ExperienceSection.Save | components/experience.tsx:75-78 | the list is stored under `"portfolio_experiences"` |
| Experience.ExperienceSection.ReloadRestores | components/experience.tsx:68-78 | load after save: whenever the list is mirrored under `portfolio_experiences`, the next mount restores exactly that list |
| Experience.ExperienceSection.ResetForm | components/experience.tsx:125-134 | four fields emptied, nothing edited, dialog closed, list untouched |
| Experience.ExperienceSection.OpenForAdd | components/experience.tsx:147-149 | a cleared form in an open dialog |
| Experience.ExperienceSection.EditForm | components/experience.tsx:169-197 | the typed fields replace the form |
| Experience.ExperienceSection.HandleSubmit | components/experience.tsx:80-105 | edit: `Updated` by the editing id; add: one record appended; mirrored to storage; form reset |
| Experience.ExperienceSection.HandleDelete | components/experience.tsx:107-112 | declined: nothing changes; confirmed: `Removed` by id and stored |
| Experience.ExperienceSection.HandleEdit | components/experience.tsx:114-123 | editing that job, lines joined with `"\n"`, dialog open |
| Education.FieldsOf | components/education.tsx:83-100 | a submitted form saves normalised highlight lines and the other fields as typed |
| Education.FormOf | components/education.tsx:112-119 | the edit form copies degree, institute and duration, and its highlights text normalises back to the saved lines when those are normalised |
| Education.EditSubmitRoundTrip | components/education.tsx:112-121 | opening a degree with normalised lines and submitting unchanged saves the same fields |
| Education.EducationSection.constructor | components/education.tsx:58-66 | default degrees, empty form, nothing edited, dialog closed |
| Education.EducationSection.Mount | components/education.tsx:68-73 | a restored list replaces the current one; otherwise nothing changes |
| Education.EducationSection.Save | components/education.tsx:75-78 | the list is stored under `"portfolio_education"` |
| Education.EducationSection.ReloadRestores | components/education.tsx:68-78 | load after save: whenever the list is mirrored under `portfolio_education`, the next mount restores exactly that list |
| Education.EducationSection.ResetForm | components/education.tsx:123-132 | four fields emptied, nothing edited, dialog closed, list untouched |
| Education.EducationSection.OpenForAdd | components/education.tsx:145-147 | a cleared form in an open dialog |
| Education.EducationSection.EditForm | components/education.tsx:167-195 | the typed fields replace the form |
| Education.EducationSection.HandleSubmit | components/education.tsx:80-103 | edit: `Updated` by the editing id; add: one record appended; mirrored to storage; form reset |
| Education.EducationSection.HandleDelete | components/education.tsx:105-110 | declined: nothing changes; confirmed: `Removed` by id and stored |
| Education.EducationSection.HandleEdit | components/education.tsx:112-121 | editing that degree, highlights joined with `"\n"`, dialog open |
| Skills.BarWidth | components/skills.tsx:236 | width 90/70/50 is `50 + 20 * rank` of the level, within 50..90 |
| Skills.BarWidthMonotone | components/skills.tsx:236 | a higher level never has a narrower bar, and distinct levels have distinct widths |
| Skills.SkillsSection.constructor | components/skills.tsx:61-67 | default skills, form `("", Intermediate)`, nothing edited, dialog closed |
| Skills.SkillsSection.Mount | components/skills.tsx:69-74 | a restored list replaces the current one; otherwise nothing changes |
| Skills.SkillsSection.Save | components/skills.tsx:76-79 | the list is stored under `"portfolio_technical_skills"` |
| Skills.SkillsSection.ReloadRestores | components/skills.tsx:69-79 | load after save: whenever the list is mirrored under `portfolio_technical_skills`, the next mount restores exactly that list |
| Skills.SkillsSection.ResetForm | components/skills.tsx:116-123 | name empty, level Intermediate, nothing edited, dialog closed |
| Skills.SkillsSection.OpenForAdd | components/skills.tsx:146-148 | a cleared form in an open dialog |
| Skills.SkillsSection.EditForm | components/skills.tsx:167-183 | the name input and the three-option level select set the form |
| Skills.SkillsSection.HandleSubmit | components/skills.tsx:81-98 | edit: name and level replaced on records with the editing id, id kept; add: one skill appended; mirrored; form reset |
| Skills.SkillsSection.HandleDelete | components/skills.tsx:100-105 | declined: nothing changes; confirmed: `Removed` by id and stored |
| Skills.SkillsSection.HandleEdit | components/skills.tsx:107-114 | editing that skill, form holds its name and level, dialog open |
| Extras.Complete | components/extras.tsx:109 | the save guard never accepts the empty form |
| Extras.Saved | components/extras.tsx:109-115 | an incomplete form (empty title, issuer or year) saves nothing; add appends the form; edit replaces exactly the edited position, length and other positions unchanged |
| Extras.SaveUnchangedEdit | components/extras.tsx:95-115 | editing a certification and saving it unchanged gives the same list |
| Extras.DeleteUndoesAppend | components/extras.tsx:102-115 | deleting the position just appended gives back the old list |
| Extras.ExtrasSection.constructor | components/extras.tsx:60-73 | default certifications, no résumé, empty form, nothing edited, dialog closed |
| Extras.ExtrasSection.Mount | components/extras.tsx:76-86 | url and name restored independently when present and non-empty; a restored list replaces the current one |
| Extras.ExtrasSection.HandleAdd | components/extras.tsx:88-93 | nothing edited, form and preview cleared, dialog open |
| Extras.ExtrasSection.HandleEdit | components/extras.tsx:95-100 | editing that position, form is that certification, preview its image, dialog open |
| Extras.ExtrasSection.EditForm | components/extras.tsx:400-438 | the typed fields replace the form's; the image stays |
| Extras.ExtrasSection.HandleDelete | components/extras.tsx:102-106 | no confirmation; `RemovedAt` the index, stored under `"certifications"`; the editing index is left as it is |
| Extras.ExtrasSection.HandleSave | components/extras.tsx:108-123 | incomplete form: nothing changes; otherwise `Saved` is stored, the dialog closes and form and preview clear; the editing index is not reset |
| Extras.ExtrasSection.ReloadRestores | components/extras.tsx:82-85 | load after save: whenever the certifications are mirrored under `certifications`, the next mount restores exactly that list |
| Extras.ExtrasSection.HandleImageUpload | components/extras.tsx:125-148 | a rejected or missing file leaves form and preview; an accepted one puts the data URL in both |
| Extras.ExtrasSection.HandleRemoveImage | components/extras.tsx:150-153 | image and preview emptied |
| Resume.DownloadName | components/about.tsx:57-66 | no download unless the url is a non-empty string; the name is `resumeName`, or `"resume.pdf"` when that is empty |
| Resume.DownloadNameNonEmpty | components/about.tsx:61 | a download never has an empty file name |
| Resume.ResumeSlot.constructor | components/about.tsx:25-26 | no url and an empty name |
| Resume.ResumeSlot.Mount | components/about.tsx:28-33 | url and name restored independently, each only from present, non-empty stored text |
| Resume.ResumeSlot.ReloadRestores | components/about.tsx:28-44 | load after upload: a reload restores the stored url, and the stored name unless it is empty |
| Resume.ResumeSlot.HandleResumeUpload | components/about.tsx:35-48 | with a file, url and name are set together and both keys written, whatever its type or size; without one nothing changes |
| Resume.ResumeSlot.HandleResumeDelete | components/about.tsx:50-55 | url null, name empty, both keys absent, whatever the state before |
| Resume.ResumeSlot.HandleResumeDownload | components/about.tsx:57-66 | the download name is `DownloadName` of the slot |
| Header.SliceOne | components/header.tsx:23 | `slice(1)` drops exactly the first character |
| Header.SectionIds | components/header.tsx:23 | one section id per nav item, in nav order, each its href without the first character |
| Header.NavSections | components/header.tsx:7-15 | the probed sections are about, skills, projects, experience, education, extras, contact |
| Header.FirstHitFrom | components/header.tsx:25-35 | the result is a present section whose box holds the position, and no earlier section is hit; no result means no section from there on is hit |
| Header.ActiveAfterScroll | components/header.tsx:22-36 | the chosen section holds `scrollY + 100` and no section before it in nav order does; no choice means no section does |
| Header.EarlierSectionWins | components/header.tsx:32-33 | with overlapping hits, the search stops at the first in nav order: it picks a section no later than the earlier hit, never the later one |
| Header.HeaderBar.constructor | components/header.tsx:18-19 | menu closed, `"about"` active |
| Header.HeaderBar.HandleScroll | components/header.tsx:21-37 | the loop sets the active section to `ActiveAfterScroll`, or leaves it when no section holds the position |
| Header.HeaderBar.ToggleMenu | components/header.tsx:86 | the menu flag flips |
| Header.HeaderBar.NavItemClicked | components/header.tsx:101 | the menu closes |

## Left out

- Rendering, styling, icons, animations, dialogs and lightboxes. Opening and closing a dialog through its own controls only sets `isDialogOpen`, so that is not modelled either.
- `JSON.stringify` and `JSON.parse` are not modelled. Storage holds typed values instead. A stored value of the wrong shape stands for text that `JSON.parse` rejects or reads as something else. The source throws there; the model reports `Malformed` and changes nothing, and claims no fallback.
- The `FileReader` and its asynchronous `onloadend` are replaced by the data URL, passed as a parameter. Every upload method completes at once. So the model does not capture form edits made between choosing a file and the reader finishing. The source's callback spreads the `formData` captured when the file was chosen, which would drop such edits.
- `Date.now().toString()` is replaced by the new id, passed in. The model does not assume ids are unique; update and delete act on every record with the id.
- `confirm` is replaced by a boolean answer. `alert` is replaced by the `Rejected` upload outcome.
- DOM access (`getElementById`, `offsetTop`, `offsetHeight`, `scrollY`, adding and removing the scroll listener) is replaced by parameters. The résumé download's anchor element and `click()` are left out; only the chosen file name is modelled.
- The `required` attributes on the form inputs are browser validation, not code, and are not modelled. The skills select offers three options, so its level is the three-valued `Level` type.
- Extras.ExtrasSection.HandleEdit requires a valid index; the buttons only pass the index of a listed card. An out-of-range index would make the source throw on `undefined.image`.
- Admin.AdminProvider.ToggleEditMode requires `isAdmin`. The source does not check this itself; only admins are shown the button.
- Any `"isAdmin"`, `"resume-url"` or `"resume-name"` value that is not plain text counts as absent. The program only ever writes text under these keys.
- The `useAdmin` missing-context error, components/contact.tsx and app/page.tsx are left out: they contain no state logic. The admin login box's own password field is also left out.
- Storage.LocalStorage.SetItem: storage capacity is unbounded in the model, so a write never fails. In a browser `setItem` throws once the per-origin quota (about 5 MB) is exceeded. An accepted 5 MiB image becomes a data URL of about 7 million characters, and a résumé of any size is stored, so this limit is reachable. After such a throw the source has already updated the state on screen, but storage keeps the old value and the code after the write is skipped. The mirror and cleared ensures (`Mirrored`, `InStore`, `FormCleared`) of the following would then not hold: `Save`, `HandleSubmit` and `HandleDelete` in Projects, Experience, Education and Skills; `HandleDelete` and `HandleSave` in Extras; `HandleResumeUpload` in Resume. The `ReloadRestores` lemmas would not hold either.
- Two tabs writing the same keys (last writer wins) is concurrency and is not modelled.
