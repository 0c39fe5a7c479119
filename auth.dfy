/** The mock password check and the user `auth_callback` builds from it. */
module Auth {
  import opened Wrappers
  import opened ChatTypes
  import Registry
  import ToolList

  const ADMIN_IDENTIFIER: string := "admin@example.com"

  /** The hard-coded `usermap`. */
  const UserMap: map<string, string> := map["user1" := "user1 password here"]

  /** `validate_password`. */
  function ValidatePassword(username: string, password: string): (ok: bool)
    ensures ok <==> username in UserMap && UserMap[username] == password
  {
    if username in UserMap then UserMap[username] == password else false
  }

  /** `auth_callback`: a credentials user for a valid login, else `None`. */
  function AuthCallback(username: string, password: string): (r: Option<User>)
    ensures r.Some? <==> ValidatePassword(username, password)
    ensures r.Some? ==> r.value.identifier == username && r.value.provider == "credentials"
    ensures r.Some? ==> (r.value.role == Admin <==> username == ADMIN_IDENTIFIER)
  {
    if ValidatePassword(username, password) then
      Some(User(username, if username == ADMIN_IDENTIFIER then Admin else UserRole, "credentials"))
    else None
  }

  /** With the mock user map, exactly one login succeeds, and nobody gets the admin role. */
  lemma MockLogins(username: string, password: string)
    ensures AuthCallback(username, password).Some? <==> username == "user1" && password == "user1 password here"
    ensures AuthCallback(username, password).Some? ==> AuthCallback(username, password).value.role == UserRole
  {
  }

  /** The mock user is in neither operator domain, so it never sees the device-configuring tool. */
  lemma MockUserLosesConfigTool(username: string, password: string, es: seq<Registry.Entry>)
    requires AuthCallback(username, password).Some?
    ensures forall k :: 0 <= k < |ToolList.AssembleTools(es, AuthCallback(username, password))| ==>
      !ToolList.IsConfigTool(ToolList.AssembleTools(es, AuthCallback(username, password))[k])
  {
  }
}
