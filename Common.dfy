/** Values shared by the components of the portal: optional values and
    outcomes, the two login roles, and the image files that flow from the
    uploader to the capture dashboard. */
module Common {

  /** A value that may be absent (`null` / `undefined` in the source). */
  datatype Option<+T> = None | Some(value: T)

  /** A call that either returns a value or throws with a message. */
  datatype Result<+T> = Ok(value: T) | Err(message: string)

  /** The two roles a user can log in with (`'admin' | 'user'`). */
  datatype Role = Admin | User

  /** The user name that goes with a role; it is also the role's string value. */
  function RoleName(r: Role): (name: string)
    ensures name == "admin" <==> r == Admin
    ensures name == "user" <==> r == User
  {
    match r
    case Admin => "admin"
    case User => "user"
  }

  /** Different roles have different names, so a name identifies its role. */
  lemma RoleNameInjective(a: Role, b: Role)
    ensures RoleName(a) == RoleName(b) <==> a == b
  {
    if a != b {
      assert RoleName(a)[0] != RoleName(b)[0];
    }
  }

  /** A browser `File`: only its name and MIME type are inspected. */
  datatype ImageFile = ImageFile(name: string, mimeType: string)

  /** JavaScript truthiness of an optional string: present and not empty. */
  predicate Truthy(s: Option<string>)
  {
    s.Some? && s.value != ""
  }
}
