/** What the handlers receive from and hand back to the web layer: forms, sessions, responses. */
module Web {
  import opened Wrappers
  import opened Schema

  /** The targets of the redirects the handlers issue. */
  datatype Path =
    | Home                                // "/"
    | LoginPage                           // "/login"
    | AddClientPage                       // "/addclient"
    | AddProjectPage                      // "/addproject"
    | ClientPage(clientId: ClientId)      // "/client/<id>"
    | EditClientPage(clientId: ClientId)  // "/edit_client/<id>"
    | EditProjectPage(projectId: ProjectId) // "/edit_project/<id>"

  /** A rendered template, with the data handed to it. */
  datatype View =
    | DashboardView(projects: seq<ProjectRow>, clients: seq<ClientRow>, totalRevenue: int, currentSort: string)
    | AddClientView
    | AddProjectView(clients: seq<ClientRow>)
    | ClientDetailsView(client: ClientRow, projects: seq<ProjectRow>)
    | EditClientView(client: ClientRow)
    | EditProjectView(projectId: ProjectId, project: Project)
    | LoginView

  /** A redirect, a rendered template, or the error page of an exception the handler does not catch. */
  datatype Response = Redirect(to: Path) | Render(view: View) | ServerError

  datatype Method = Get | Post

  /** `session["user_id"]`: `None` when nobody is logged in. */
  type Session = Option<UserId>

  /** What a handler run on behalf of a logged-in user returns. */
  datatype Reply = Reply(state: State, response: Response)

  /** What a request returns: the database, the session and the response after it. */
  datatype Outcome = Outcome(state: State, session: Session, response: Response)

  /** The fields of the client form. */
  datatype ClientForm = ClientForm(
    name: Option<string>,
    company: Option<string>,
    email: Option<string>,
    phone: Option<string>,
    status: Option<string>)

  /** The fields of the project form. `clientId`, `value` and `deadline` are `None` when the
      field is absent or empty. */
  datatype ProjectForm = ProjectForm(
    clientId: Option<ClientId>,
    name: Option<string>,
    description: Option<string>,
    value: Option<int>,
    status: Option<string>,
    importance: Option<string>,
    deadline: Option<nat>)

  datatype LoginForm = LoginForm(username: Option<string>, password: Option<string>)

  /** Python truthiness of a text field: absent and empty both read as false. */
  predicate Present(field: Option<string>) {
    field.Some? && field.value != ""
  }
}
