/** The login modal: choose a role, then enter the password for it. The
    user name field is read-only and filled in by the role choice, and the one
    accepted password is fixed. This is the check as written, not an
    authentication scheme. */
module LoginModal {
  import opened Common

  const ExpectedPassword: string := "12345"
  const InvalidCredentials: string := "Invalid username or password."

  /** `username === selectedRole && password === '12345'`. A string never
      equals `null`, so nothing is accepted without a selected role. */
  predicate CredentialsAccepted(username: string, password: string, selectedRole: Option<Role>)
  {
    selectedRole.Some? && username == RoleName(selectedRole.value) && password == ExpectedPassword
  }

  /** What the modal renders. */
  datatype Screen = Hidden | RoleSelection | LoginForm(role: Role)

  class Modal {
    var isOpen: bool
    var selectedRole: Option<Role>
    var username: string
    var password: string
    var error: string
    /** The roles passed to `onLogin`, in order. */
    var logins: seq<Role>

    /** The user name is only ever set by a role choice. */
    ghost predicate Valid()
      reads this
    {
      selectedRole.Some? ==> username == RoleName(selectedRole.value)
    }

    constructor (isOpen: bool)
      ensures Valid() && this.isOpen == isOpen
      ensures selectedRole.None? && username == "" && password == "" && error == "" && logins == []
    {
      this.isOpen := isOpen;
      selectedRole, username, password, error := None, "", "", "";
      logins := [];
    }

    /** The modal renders nothing while closed; open, it shows the login
        form exactly when a role is selected. */
    function Shown(): (s: Screen)
      reads this
      ensures s.Hidden? <==> !isOpen
      ensures s.LoginForm? <==> isOpen && selectedRole.Some?
      ensures s.LoginForm? ==> s.role == selectedRole.value
    {
      if !isOpen then Hidden
      else if selectedRole.Some? then LoginForm(selectedRole.value)
      else RoleSelection
    }

    /** "Enter as Administrator" / "Enter as User". */
    method SelectRole(r: Role)
      requires Valid()
      modifies this
      ensures Valid()
      ensures selectedRole == Some(r) && username == RoleName(r) && password == "" && error == ""
      ensures isOpen == old(isOpen) && logins == old(logins)
    {
      selectedRole := Some(r);
      username := RoleName(r);
      password := "";
      error := "";
    }

    /** The password input's `onChange`. */
    method SetPassword(p: string)
      requires Valid()
      modifies this`password
      ensures Valid() && password == p
    {
      password := p;
    }

    /** "Back to role selection": only the selected role is cleared. */
    method Back()
      requires Valid()
      modifies this`selectedRole
      ensures Valid() && selectedRole.None?
    {
      selectedRole := None;
    }

    /** Submitting the form. The password input is `required`, so with an
        empty password the browser blocks the submission and nothing changes.
        Otherwise `handleLogin` runs: the error is cleared, then `onLogin` is
        called with the selected role exactly when the credentials are
        accepted. */
    method Submit() returns (accepted: bool)
      requires Valid()
      modifies this`error, this`logins
      ensures Valid()
      ensures accepted <==> CredentialsAccepted(username, password, selectedRole)
      ensures accepted <==> selectedRole.Some? && password == ExpectedPassword
      ensures password == "" ==> logins == old(logins) && error == old(error)
      ensures accepted ==> logins == old(logins) + [selectedRole.value] && error == ""
      ensures !accepted && password != "" ==> logins == old(logins) && error == InvalidCredentials
    {
      if password == "" {
        return false;
      }
      error := "";
      accepted := CredentialsAccepted(username, password, selectedRole);
      if accepted {
        logins := logins + [selectedRole.value];
      } else {
        error := InvalidCredentials;
      }
    }

    /** The parent opens the modal. */
    method Open()
      requires Valid()
      modifies this`isOpen
      ensures Valid() && isOpen
    {
      isOpen := true;
    }

    /** The parent closes the modal; the effect on `isOpen` then resets the
        role, the password and the error, but not the user name. */
    method Close()
      requires Valid()
      modifies this
      ensures Valid() && !isOpen
      ensures selectedRole.None? && password == "" && error == ""
      ensures username == old(username) && logins == old(logins)
    {
      isOpen := false;
      selectedRole := None;
      password := "";
      error := "";
    }
  }

  /** Open a fresh modal, choose `r`, type `p` and sign in: the result and the
      roles passed to `onLogin` depend on the password alone, and an empty
      password is never submitted. */
  method LoginAttempt(r: Role, p: string) returns (logins: seq<Role>, error: string, screen: Screen)
    ensures p == ExpectedPassword ==> logins == [r] && error == ""
    ensures p != ExpectedPassword && p != "" ==> logins == [] && error == InvalidCredentials
    ensures p == "" ==> logins == [] && error == ""
    ensures screen == LoginForm(r)
  {
    var m := new Modal(true);
    m.SelectRole(r);
    m.SetPassword(p);
    var ok := m.Submit();
    logins, error, screen := m.logins, m.error, m.Shown();
  }
}
