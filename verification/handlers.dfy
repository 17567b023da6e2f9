/** The route handlers of the application, each a transition on the database. The session's
    user arrives as `uid`; the login guard in `Helpers` decides whether a handler runs at all. */
module Handlers {
  import opened Wrappers
  import opened Tables
  import opened Schema
  import opened Ordering
  import opened Dashboard
  import opened Web

  /** `index`: the revenue total, the user's projects in the requested order, and the user's clients. */
  function Index(s: State, uid: UserId, sort: Option<string>): (r: Reply)
    ensures r.state == s
    ensures r.response.Render? && r.response.view.DashboardView?
    ensures var v := r.response.view;
      && v.currentSort == sort.GetOr("deadline")
      && ProjectRowsOwned(s, uid, v.projects) && ProjectRowsComplete(s, uid, v.projects)
      && multiset(v.projects) == multiset(OwnedRows(s, uid))
      && Sorted(SortKeyOf(v.currentSort), v.projects)
      && v.totalRevenue == SumValues(v.projects)
      && ClientRowsOwned(s, uid, v.clients) && ClientRowsComplete(s, uid, v.clients)
      && ClientIdsIncreasing(v.clients)
  {
    var sortBy := sort.GetOr("deadline");
    var listed := SortRows(SortKeyOf(sortBy), OwnedRows(s, uid));
    PermutedListing(s, uid, listed);
    Reply(s, Render(DashboardView(listed, OwnedClients(s, uid), TotalRevenue(s, uid), sortBy)))
  }

  /** `add_client`: a named client is inserted for the session's user; a nameless one is refused. */
  function AddClient(s: State, uid: UserId, m: Method, f: ClientForm): (r: Reply)
    ensures m == Get ==> r == Reply(s, Render(AddClientView))
    ensures m == Post && !Present(f.name) ==> r == Reply(s, Redirect(AddClientPage))
    ensures m == Post && Present(f.name) ==>
      && r.response == Redirect(Home)
      && r.state.users == s.users && r.state.projects == s.projects
      && InsertedRow(s.clients, r.state.clients, s.nextClientId,
                     Client(uid, f.name.value, f.company, f.email, f.phone, f.status))
  {
    if m == Get then Reply(s, Render(AddClientView))
    else if !Present(f.name) then Reply(s, Redirect(AddClientPage))
    else
      var row := Client(uid, f.name.value, f.company, f.email, f.phone, f.status);
      Reply(s.(clients := s.clients[s.nextClientId := row], nextClientId := s.nextClientId + 1),
            Redirect(Home))
  }

  /** The project `add_project` inserts: an empty value reads as 0, an empty deadline as NULL. */
  function NewProject(f: ProjectForm): (p: Project)
    requires f.clientId.Some? && Present(f.name)
    ensures p.clientId == f.clientId.value && p.name == f.name.value
    ensures p.value == (if f.value.Some? then f.value.value else 0)
    ensures p.deadline == f.deadline
    ensures p.description == f.description && p.status == f.status && p.importance == f.importance
  {
    Project(f.clientId.value, f.name.value, f.description, f.value.GetOr(0), f.status, f.importance, f.deadline)
  }

  /** `add_project`: a project is inserted only for a client of the session's user. */
  function AddProject(s: State, uid: UserId, m: Method, f: ProjectForm): (r: Reply)
    ensures m == Get ==> r.state == s && r.response.Render? && r.response.view.AddProjectView?
    ensures m == Get ==> var clients := r.response.view.clients;
      ClientRowsOwned(s, uid, clients) && ClientRowsComplete(s, uid, clients) && ClientIdsIncreasing(clients)
    ensures m == Post && (f.clientId.None? || !Present(f.name)) ==> r == Reply(s, Redirect(AddProjectPage))
    ensures m == Post && f.clientId.Some? && Present(f.name) && !OwnsClient(s.clients, uid, f.clientId.value) ==>
      r == Reply(s, Redirect(Home))
    ensures m == Post && f.clientId.Some? && Present(f.name) && OwnsClient(s.clients, uid, f.clientId.value) ==>
      && r.response == Redirect(Home)
      && r.state.users == s.users && r.state.clients == s.clients
      && InsertedRow(s.projects, r.state.projects, s.nextProjectId, NewProject(f))
      && OwnsProject(r.state, uid, s.nextProjectId)
  {
    if m == Get then Reply(s, Render(AddProjectView(OwnedClients(s, uid))))
    else if f.clientId.None? || !Present(f.name) then Reply(s, Redirect(AddProjectPage))
    else if !OwnsClient(s.clients, uid, f.clientId.value) then Reply(s, Redirect(Home))
    else
      Reply(s.(projects := s.projects[s.nextProjectId := NewProject(f)], nextProjectId := s.nextProjectId + 1),
            Redirect(Home))
  }

  /** `client_details`: a client of the session's user with its projects, deadline ascending (NULL
      first); anyone else's client, like a missing one, sends the user back to the dashboard. */
  function ClientDetails(s: State, uid: UserId, cid: ClientId): (r: Reply)
    ensures r.state == s
    ensures !OwnsClient(s.clients, uid, cid) ==> r.response == Redirect(Home)
    ensures OwnsClient(s.clients, uid, cid) ==>
      && r.response.Render? && r.response.view.ClientDetailsView?
      && r.response.view.client == ClientRow(cid, s.clients[cid])
      && ListsClientProjects(s, cid, r.response.view.projects)
      && Sorted(ByDeadlineNullsFirst, r.response.view.projects)
  {
    if !OwnsClient(s.clients, uid, cid) then Reply(s, Redirect(Home))
    else
      var rows := ClientRows(s, cid);
      var listed := SortRows(ByDeadlineNullsFirst, rows);
      PermutedClientListing(s, cid, rows, listed);
      Reply(s, Render(ClientDetailsView(ClientRow(cid, s.clients[cid]), listed)))
  }

  /** `delete_project`: `DELETE FROM projects WHERE id = pid AND client_id IN (the user's clients)`. */
  function DeleteProject(s: State, uid: UserId, pid: ProjectId): (r: Reply)
    ensures r.response == Redirect(Home)
    ensures r.state.users == s.users && r.state.clients == s.clients
    ensures OwnsProject(s, uid, pid) ==> r.state.projects == s.projects - {pid}
    ensures !OwnsProject(s, uid, pid) ==> r.state == s
  {
    var kept := map p | p in s.projects && !(p == pid && OwnsClient(s.clients, uid, s.projects[p].clientId)) :: s.projects[p];
    Reply(s.(projects := kept), Redirect(Home))
  }

  /** `delete_client`: `DELETE FROM clients WHERE id = cid AND user_id = uid`. The client's
      projects stay in their table. */
  function DeleteClient(s: State, uid: UserId, cid: ClientId): (r: Reply)
    ensures r.response == Redirect(Home)
    ensures r.state.users == s.users && r.state.projects == s.projects
    ensures OwnsClient(s.clients, uid, cid) ==> r.state.clients == s.clients - {cid}
    ensures !OwnsClient(s.clients, uid, cid) ==> r.state == s
  {
    var kept := map c | c in s.clients && !(c == cid && s.clients[c].userId == uid) :: s.clients[c];
    Reply(s.(clients := kept), Redirect(Home))
  }

  /** The client after `UPDATE clients SET name, company, email, phone, status`: the owner stays. */
  function EditedClient(c: Client, f: ClientForm): (e: Client)
    requires Present(f.name)
    ensures e.userId == c.userId
    ensures e.name == f.name.value && e.company == f.company && e.email == f.email
    ensures e.phone == f.phone && e.status == f.status
  {
    c.(name := f.name.value, company := f.company, email := f.email, phone := f.phone, status := f.status)
  }

  /** `edit_client`: only a client of the session's user can be shown or changed. */
  function EditClient(s: State, uid: UserId, cid: ClientId, m: Method, f: ClientForm): (r: Reply)
    ensures !OwnsClient(s.clients, uid, cid) ==> r == Reply(s, Redirect(Home))
    ensures OwnsClient(s.clients, uid, cid) && m == Get ==>
      r == Reply(s, Render(EditClientView(ClientRow(cid, s.clients[cid]))))
    ensures OwnsClient(s.clients, uid, cid) && m == Post && !Present(f.name) ==>
      r == Reply(s, Redirect(EditClientPage(cid)))
    ensures OwnsClient(s.clients, uid, cid) && m == Post && Present(f.name) ==>
      && r.response == Redirect(ClientPage(cid))
      && r.state.users == s.users && r.state.projects == s.projects
      && r.state.clients == s.clients[cid := EditedClient(s.clients[cid], f)]
      && r.state.clients[cid].userId == uid
  {
    if !OwnsClient(s.clients, uid, cid) then Reply(s, Redirect(Home))
    else if m == Get then Reply(s, Render(EditClientView(ClientRow(cid, s.clients[cid]))))
    else if !Present(f.name) then Reply(s, Redirect(EditClientPage(cid)))
    else
      var updated := map c | c in s.clients :: if c == cid then EditedClient(s.clients[c], f) else s.clients[c];
      Reply(s.(clients := updated), Redirect(ClientPage(cid)))
  }

  /** The project after `UPDATE projects SET name, description, value, status, importance,
      deadline`: its client stays, an empty value reads as 0 and an empty deadline as NULL. */
  function EditedProject(p: Project, f: ProjectForm): (e: Project)
    requires Present(f.name)
    ensures e.clientId == p.clientId
    ensures e.name == f.name.value && e.description == f.description
    ensures e.value == (if f.value.Some? then f.value.value else 0)
    ensures e.status == f.status && e.importance == f.importance && e.deadline == f.deadline
  {
    p.(name := f.name.value, description := f.description, value := f.value.GetOr(0),
       status := f.status, importance := f.importance, deadline := f.deadline)
  }

  /** `edit_project`: only a project whose client belongs to the session's user can be shown or changed. */
  function EditProject(s: State, uid: UserId, pid: ProjectId, m: Method, f: ProjectForm): (r: Reply)
    ensures !OwnsProject(s, uid, pid) ==> r == Reply(s, Redirect(Home))
    ensures OwnsProject(s, uid, pid) && m == Get ==>
      r == Reply(s, Render(EditProjectView(pid, s.projects[pid])))
    ensures OwnsProject(s, uid, pid) && m == Post && !Present(f.name) ==>
      r == Reply(s, Redirect(EditProjectPage(pid)))
    ensures OwnsProject(s, uid, pid) && m == Post && Present(f.name) ==>
      && r.response == Redirect(ClientPage(s.projects[pid].clientId))
      && r.state.users == s.users && r.state.clients == s.clients
      && r.state.projects == s.projects[pid := EditedProject(s.projects[pid], f)]
      && OwnsProject(r.state, uid, pid)
  {
    if !OwnsProject(s, uid, pid) then Reply(s, Redirect(Home))
    else if m == Get then Reply(s, Render(EditProjectView(pid, s.projects[pid])))
    else if !Present(f.name) then Reply(s, Redirect(EditProjectPage(pid)))
    else
      var updated := map p | p in s.projects :: if p == pid then EditedProject(s.projects[p], f) else s.projects[p];
      Reply(s.(projects := updated), Redirect(ClientPage(s.projects[pid].clientId)))
  }

  /** `SELECT * FROM users WHERE username = ?`; a missing username matches no row. */
  function UsersNamed(s: State, username: Option<string>): (ids: seq<UserId>)
    ensures Increasing(ids)
    ensures forall u :: u in ids <==> u in s.users && username == Some(s.users[u].username)
  {
    Select(s.users, (u: nat, row: User) => username == Some(row.username), 0, s.nextUserId)
  }

  /** `uid` is the one user whose name is `username`. */
  ghost predicate SoleUserNamed(s: State, username: Option<string>, uid: UserId) {
    && uid in s.users
    && username == Some(s.users[uid].username)
    && (forall u :: u in s.users && username == Some(s.users[u].username) ==> u == uid)
  }

  /** `uid` is the one user with the submitted name, and the submitted password checks against its hash. */
  ghost predicate LoginAccepts(s: State, f: LoginForm, checkHash: (string, string) -> bool, uid: UserId) {
    && SoleUserNamed(s, f.username, uid)
    && f.password.Some?
    && checkHash(s.users[uid].hash, f.password.value)
  }

  /** `login`: the session is cleared, then set to the user whose name and password match.
      `checkHash` stands for the password-hash check of the hashing library, which raises when
      the password is missing: the request then ends in a server error. */
  function Login(s: State, m: Method, f: LoginForm, checkHash: (string, string) -> bool): (o: Outcome)
    ensures o.state == s
    ensures o.session.None? ==> o.response == Render(LoginView) || o.response == ServerError
    ensures o.session.Some? ==> o.response == Redirect(Home) && m == Post && LoginAccepts(s, f, checkHash, o.session.value)
    ensures o.response == ServerError ==>
      m == Post && f.password.None? && exists u :: SoleUserNamed(s, f.username, u)
  {
    if m == Get then Outcome(s, None, Render(LoginView))
    else
      var rows := UsersNamed(s, f.username);
      if |rows| != 1 then Outcome(s, None, Render(LoginView))
      else
        assert rows[0] in rows;
        assert SoleUserNamed(s, f.username, rows[0]) by {
          forall u | u in s.users && f.username == Some(s.users[u].username)
            ensures u == rows[0]
          {
            assert u in rows;
          }
        }
        assert m == Post;
        if f.password.None? then Outcome(s, None, ServerError)
        else if !checkHash(s.users[rows[0]].hash, f.password.value) then Outcome(s, None, Render(LoginView))
        else
          assert LoginAccepts(s, f, checkHash, rows[0]);
          Outcome(s, Some(rows[0]), Redirect(Home))
  }

  /** `logout`: the session is cleared and the database left alone. */
  function Logout(s: State): (o: Outcome)
    ensures o.state == s && o.session.None?
    ensures o.response == Redirect(Home)
  {
    Outcome(s, None, Redirect(Home))
  }
}
