/** Values shared by the session handlers of app.py. */
module ChatTypes {
  import opened Wrappers

  /**
   * A tool as `on_mcp_connect` records it: the dict
   * `{"name": ..., "description": ..., "parameters": ...}`. The input schema is
   * JSON and stays opaque text here.
   */
  datatype Tool = Tool(name: string, description: Option<string>, parameters: string)

  datatype Role = Admin | UserRole

  /** A Chainlit user: its identifier (the login name) and the metadata `auth_callback` attaches. */
  datatype User = User(identifier: string, role: Role, provider: string)
}
