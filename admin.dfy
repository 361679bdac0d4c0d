/**
 * The admin session (lib/admin-context.tsx): whether the visitor is logged in
 * as admin, whether edit mode is on, and the `"isAdmin"` flag in storage that
 * keeps the login across reloads.
 */
module Admin {
  import opened Wrappers
  import opened Storage

  /** Hard-coded in the source. */
  const AdminPassword: string := "@123admin"

  const AdminKey: string := "isAdmin"

  /** The session as the rest of the site sees it, together with the storage it writes. */
  datatype Session = Session(isAdmin: bool, isEditMode: bool, stored: map<string, Stored>)

  /** Edit mode is only ever on for an admin. */
  predicate Consistent(s: Session) {
    s.isEditMode ==> s.isAdmin
  }

  /** Mount: `getItem("isAdmin") === "true"` turns admin on; nothing else changes. */
  function Mounted(s: Session): (r: Session)
    ensures r.isAdmin <==> s.isAdmin || (AdminKey in s.stored && s.stored[AdminKey] == Text("true"))
    ensures r.isEditMode == s.isEditMode && r.stored == s.stored
  {
    if Lookup(s.stored, AdminKey) == Some(Text("true")) then s.(isAdmin := true) else s
  }

  /** `login(password)`: the new session and the returned success flag. */
  function LoggedIn(s: Session, password: string): (r: (Session, bool))
    ensures r.1 <==> password == AdminPassword
    ensures r.1 ==> r.0 == Session(true, s.isEditMode, s.stored[AdminKey := Text("true")])
    ensures !r.1 ==> r.0 == s
  {
    if password == AdminPassword then (Session(true, s.isEditMode, s.stored[AdminKey := Text("true")]), true)
    else (s, false)
  }

  /** `logout()`: both flags off and the stored flag gone, whatever the session was. */
  function LoggedOut(s: Session): (r: Session)
    ensures !r.isAdmin && !r.isEditMode
    ensures r.stored == s.stored - {AdminKey}
  {
    Session(false, false, s.stored - {AdminKey})
  }

  /** `toggleEditMode()`: only edit mode flips. */
  function Toggled(s: Session): (r: Session)
    ensures r.isEditMode != s.isEditMode
    ensures r.isAdmin == s.isAdmin && r.stored == s.stored
  {
    s.(isEditMode := !s.isEditMode)
  }

  /** Logging out twice is logging out once. */
  lemma LogoutIdempotent(s: Session)
    ensures LoggedOut(LoggedOut(s)) == LoggedOut(s)
  {
  }

  /** Two toggles give back the session. */
  lemma ToggleInvolution(s: Session)
    ensures Toggled(Toggled(s)) == s
  {
  }

  /** "Edit mode implies admin" survives every step, given that the toggle is only
      offered to an admin (components/admin-login.tsx renders it only then). */
  lemma ConsistentPreserved(s: Session, password: string)
    requires Consistent(s)
    ensures Consistent(Mounted(s))
    ensures Consistent(LoggedIn(s, password).0)
    ensures Consistent(LoggedOut(s))
    ensures s.isAdmin ==> Consistent(Toggled(s))
  {
  }

  /** A wrong password changes nothing, storage included. */
  lemma WrongPasswordChangesNothing(s: Session, password: string)
    requires password != AdminPassword
    ensures LoggedIn(s, password) == (s, false)
  {
  }

  /** The provider component: its two state fields and the shared storage. */
  class AdminProvider {
    const store: LocalStorage
    var isAdmin: bool
    var isEditMode: bool

    function Snapshot(): Session
      reads this, store
    {
      Session(isAdmin, isEditMode, store.items)
    }

    /** `useState(false)` twice. */
    constructor (store: LocalStorage)
      ensures this.store == store
      ensures !isAdmin && !isEditMode
      ensures Consistent(Snapshot())
    {
      this.store := store;
      isAdmin := false;
      isEditMode := false;
    }

    /** The mount effect (lib/admin-context.tsx:21-26); edit mode is never restored. */
    method Mount()
      modifies this
      ensures Snapshot() == Mounted(old(Snapshot()))
    {
      if Lookup(store.items, AdminKey) == Some(Text("true")) {
        isAdmin := true;
      }
    }

    method Login(password: string) returns (success: bool)
      modifies this, store
      ensures (Snapshot(), success) == LoggedIn(old(Snapshot()), password)
    {
      if password == AdminPassword {
        isAdmin := true;
        store.SetItem(AdminKey, Text("true"));
        return true;
      }
      return false;
    }

    method Logout()
      modifies this, store
      ensures Snapshot() == LoggedOut(old(Snapshot()))
    {
      isAdmin := false;
      isEditMode := false;
      store.RemoveItem(AdminKey);
    }

    /** The source does not check `isAdmin` here; the button exists only for an admin. */
    method ToggleEditMode()
      requires isAdmin
      modifies this
      ensures Snapshot() == Toggled(old(Snapshot()))
    {
      isEditMode := !isEditMode;
    }
  }
}
