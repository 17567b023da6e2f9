/** The route table: which handler answers which request, behind which guard; and the
    ownership isolation the whole application keeps. */
module Routes {
  import opened Wrappers
  import opened Tables
  import opened Schema
  import opened Dashboard
  import opened Web
  import opened Helpers
  import Handlers

  /** One request per route and HTTP method of the application. */
  datatype Request =
    | Index(sort: Option<string>)
    | AddClient(verb: Method, clientForm: ClientForm)
    | AddProject(verb: Method, projectForm: ProjectForm)
    | ClientDetails(clientId: ClientId)
    | DeleteProject(projectId: ProjectId)
    | DeleteClient(clientId: ClientId)
    | EditClient(clientId: ClientId, verb: Method, clientForm: ClientForm)
    | EditProject(projectId: ProjectId, verb: Method, projectForm: ProjectForm)
    | Login(verb: Method, loginForm: LoginForm)
    | Logout

  /** The routes decorated with `login_required`. */
  predicate Protected(req: Request) {
    !req.Login? && !req.Logout?
  }

  /** Answers `req` against database `s` with session `session`. */
  function Serve(s: State, session: Session, req: Request, checkHash: (string, string) -> bool): (o: Outcome)
    ensures Protected(req) ==> o.session == session
    ensures !Protected(req) ==> o.state == s
  {
    match req
    case Index(sort) =>
      LoginRequired((st: State, u: UserId) => Handlers.Index(st, u, sort), s, session)
    case AddClient(m, f) =>
      LoginRequired((st: State, u: UserId) => Handlers.AddClient(st, u, m, f), s, session)
    case AddProject(m, f) =>
      LoginRequired((st: State, u: UserId) => Handlers.AddProject(st, u, m, f), s, session)
    case ClientDetails(cid) =>
      LoginRequired((st: State, u: UserId) => Handlers.ClientDetails(st, u, cid), s, session)
    case DeleteProject(pid) =>
      LoginRequired((st: State, u: UserId) => Handlers.DeleteProject(st, u, pid), s, session)
    case DeleteClient(cid) =>
      LoginRequired((st: State, u: UserId) => Handlers.DeleteClient(st, u, cid), s, session)
    case EditClient(cid, m, f) =>
      LoginRequired((st: State, u: UserId) => Handlers.EditClient(st, u, cid, m, f), s, session)
    case EditProject(pid, m, f) =>
      LoginRequired((st: State, u: UserId) => Handlers.EditProject(st, u, pid, m, f), s, session)
    case Login(m, f) => Handlers.Login(s, m, f, checkHash)
    case Logout => Handlers.Logout(s)
  }

  /** Without a session, every guarded route answers with the login page and runs nothing. */
  lemma AnonymousIsTurnedAway(s: State, req: Request, checkHash: (string, string) -> bool)
    requires Protected(req)
    ensures Serve(s, None, req, checkHash) == Outcome(s, None, Redirect(LoginPage))
  {
  }

  /** Without a session, no request changes the database. */
  lemma AnonymousChangesNothing(s: State, req: Request, checkHash: (string, string) -> bool)
    ensures Serve(s, None, req, checkHash).state == s
  {
  }

  /** After logging out, every guarded route turns the visitor away. */
  lemma LogoutLocksOut(s: State, session: Session, req: Request, checkHash: (string, string) -> bool)
    requires Protected(req)
    ensures var out := Serve(s, session, Logout, checkHash);
      Serve(out.state, out.session, req, checkHash) == Outcome(s, None, Redirect(LoginPage))
  {
  }

  /** Going from `s` to `s2`, user `b` touched nothing but their own rows: other users' clients and
      every project `b` does not own are as before, new rows are `b`'s, and no row changed owner. */
  ghost predicate ConfinedTo(s: State, s2: State, b: UserId) {
    && s2.users == s.users
    && (forall c :: c in s.clients && s.clients[c].userId != b ==> c in s2.clients && s2.clients[c] == s.clients[c])
    && (forall p :: p in s.projects && !OwnsProject(s, b, p) ==> p in s2.projects && s2.projects[p] == s.projects[p])
    && (forall c :: c in s2.clients && c !in s.clients ==> s2.clients[c].userId == b)
    && (forall p :: p in s2.projects && p !in s.projects ==> OwnsProject(s2, b, p))
    && (forall c :: c in s.clients && c in s2.clients ==> s2.clients[c].userId == s.clients[c].userId)
    && (forall p :: p in s.projects && p in s2.projects ==> s2.projects[p].clientId == s.projects[p].clientId)
  }

  /** The response shows only data `uid` owns in `s`. */
  ghost predicate DisclosesOnly(s: State, uid: UserId, response: Response) {
    response.Render? ==>
      match response.view
      case DashboardView(projects, clients, _, _) =>
        ProjectRowsOwned(s, uid, projects) && ClientRowsOwned(s, uid, clients)
      case AddClientView => true
      case AddProjectView(clients) => ClientRowsOwned(s, uid, clients)
      case ClientDetailsView(client, projects) =>
        && OwnsClient(s.clients, uid, client.id) && s.clients[client.id] == client.client
        && ListsClientProjects(s, client.id, projects)
      case EditClientView(client) =>
        OwnsClient(s.clients, uid, client.id) && s.clients[client.id] == client.client
      case EditProjectView(pid, project) =>
        OwnsProject(s, uid, pid) && s.projects[pid] == project
      case LoginView => true
  }

  /** A confined step of `b` leaves the share of every other user `a` exactly as it was. */
  lemma {:induction false} ConfinedKeepsOthers(s: State, s2: State, a: UserId, b: UserId)
    requires a != b && ConfinedTo(s, s2, b)
    ensures ClientsOf(s2, a) == ClientsOf(s, a)
    ensures ProjectsOf(s2, a) == ProjectsOf(s, a)
  {
    forall c
      ensures c in s2.clients && s2.clients[c].userId == a <==> c in s.clients && s.clients[c].userId == a
    {
      if c in s.clients && s.clients[c].userId == a {
        assert c in s2.clients;
      }
    }
    forall p
      ensures OwnsProject(s2, a, p) <==> OwnsProject(s, a, p)
    {
      if OwnsProject(s, a, p) {
        assert !OwnsProject(s, b, p);
        assert p in s2.projects && s2.projects[p] == s.projects[p];
        assert s.projects[p].clientId in s.clients;
      }
      if OwnsProject(s2, a, p) {
        assert p in s.projects;
        var c := s2.projects[p].clientId;
        assert c == s.projects[p].clientId;
        assert c in s.clients;
      }
    }
    assert ClientsOf(s2, a).Keys == ClientsOf(s, a).Keys;
    assert ProjectsOf(s2, a).Keys == ProjectsOf(s, a).Keys;
    forall p | p in ProjectsOf(s, a)
      ensures ProjectsOf(s2, a)[p] == ProjectsOf(s, a)[p]
    {
      assert !OwnsProject(s, b, p);
    }
  }

  /** Two databases that give user `a` the same share give `a` the same joined project listing. */
  lemma SameOwnedRows(s: State, s2: State, a: UserId)
    requires ClientsOf(s2, a) == ClientsOf(s, a)
    requires ProjectsOf(s2, a) == ProjectsOf(s, a)
    ensures OwnedRows(s2, a) == OwnedRows(s, a)
  {
    forall pid
      ensures OwnsProject(s2, a, pid) <==> OwnsProject(s, a, pid)
    {
      assert OwnsProject(s2, a, pid) <==> pid in ProjectsOf(s2, a);
      assert OwnsProject(s, a, pid) <==> pid in ProjectsOf(s, a);
    }
    var ids, ids2 := OwnedProjectIds(s, a), OwnedProjectIds(s2, a);
    IncreasingUnique(ids, ids2);
    var rows, rows2 := OwnedRows(s, a), OwnedRows(s2, a);
    forall i | 0 <= i < |rows|
      ensures rows2[i] == rows[i]
    {
      var pid := ids[i];
      assert pid in ProjectsOf(s, a);
      var c := s.projects[pid].clientId;
      assert s2.projects[pid] == s.projects[pid];
      assert c in ClientsOf(s, a);
      assert s2.clients[c] == s.clients[c];
    }
  }

  /** Two databases that give user `a` the same clients give `a` the same client listing. */
  lemma SameOwnedClients(s: State, s2: State, a: UserId)
    requires ClientsOf(s2, a) == ClientsOf(s, a)
    ensures OwnedClients(s2, a) == OwnedClients(s, a)
  {
    forall cid
      ensures OwnsClient(s2.clients, a, cid) <==> OwnsClient(s.clients, a, cid)
    {
      assert OwnsClient(s2.clients, a, cid) <==> cid in ClientsOf(s2, a);
      assert OwnsClient(s.clients, a, cid) <==> cid in ClientsOf(s, a);
    }
    var cids, cids2 := OwnedClientIds(s, a), OwnedClientIds(s2, a);
    IncreasingUnique(cids, cids2);
    var clients, clients2 := OwnedClients(s, a), OwnedClients(s2, a);
    forall i | 0 <= i < |clients|
      ensures clients2[i] == clients[i]
    {
      assert cids[i] in ClientsOf(s, a);
    }
  }

  /** The dashboard a user sees depends only on that user's share of the database. */
  lemma {:induction false} DashboardDependsOnShare(s: State, s2: State, a: UserId, sort: Option<string>)
    requires ClientsOf(s2, a) == ClientsOf(s, a)
    requires ProjectsOf(s2, a) == ProjectsOf(s, a)
    ensures Handlers.Index(s2, a, sort).response == Handlers.Index(s, a, sort).response
  {
    SameOwnedRows(s, s2, a);
    SameOwnedClients(s, s2, a);
  }

  /** Ownership isolation: whatever request user `b` makes, it discloses only `b`'s data, touches
      only `b`'s rows, and leaves every other user's clients, projects and dashboard as they were. */
  lemma {:induction false} Isolation(s: State, a: UserId, b: UserId, req: Request, checkHash: (string, string) -> bool, sort: Option<string>)
    requires a != b
    ensures var o := Serve(s, Some(b), req, checkHash);
      && ConfinedTo(s, o.state, b)
      && DisclosesOnly(s, b, o.response)
      && ClientsOf(o.state, a) == ClientsOf(s, a)
      && ProjectsOf(o.state, a) == ProjectsOf(s, a)
      && Handlers.Index(o.state, a, sort).response == Handlers.Index(s, a, sort).response
  {
    var o := Serve(s, Some(b), req, checkHash);
    StepIsConfined(s, b, req, checkHash);
    ConfinedKeepsOthers(s, o.state, a, b);
    DashboardDependsOnShare(s, o.state, a, sort);
  }

  /** Every request of a logged-in user `b` is confined to `b`'s rows and shows only `b`'s data. */
  lemma {:induction false} StepIsConfined(s: State, b: UserId, req: Request, checkHash: (string, string) -> bool)
    ensures ConfinedTo(s, Serve(s, Some(b), req, checkHash).state, b)
    ensures DisclosesOnly(s, b, Serve(s, Some(b), req, checkHash).response)
  {
    match req {
      case Index(sort) => IndexConfined(s, b, sort);
      case AddClient(m, f) => AddClientConfined(s, b, m, f);
      case AddProject(m, f) => AddProjectConfined(s, b, m, f);
      case ClientDetails(cid) => ClientDetailsConfined(s, b, cid);
      case DeleteProject(pid) => DeleteProjectConfined(s, b, pid);
      case DeleteClient(cid) => DeleteClientConfined(s, b, cid);
      case EditClient(cid, m, f) => EditClientConfined(s, b, cid, m, f);
      case EditProject(pid, m, f) => EditProjectConfined(s, b, pid, m, f);
      case Login(m, f) =>
      case Logout =>
    }
  }

  lemma IndexConfined(s: State, b: UserId, sort: Option<string>)
    ensures var r := Handlers.Index(s, b, sort); ConfinedTo(s, r.state, b) && DisclosesOnly(s, b, r.response)
  {
  }

  lemma AddClientConfined(s: State, b: UserId, m: Method, f: ClientForm)
    ensures var r := Handlers.AddClient(s, b, m, f); ConfinedTo(s, r.state, b) && DisclosesOnly(s, b, r.response)
  {
  }

  lemma AddProjectConfined(s: State, b: UserId, m: Method, f: ProjectForm)
    ensures var r := Handlers.AddProject(s, b, m, f); ConfinedTo(s, r.state, b) && DisclosesOnly(s, b, r.response)
  {
    var r := Handlers.AddProject(s, b, m, f);
    if m == Post && f.clientId.Some? && Present(f.name) && OwnsClient(s.clients, b, f.clientId.value) {
      forall p | p in r.state.projects && p !in s.projects
        ensures OwnsProject(r.state, b, p)
      {
        assert p == s.nextProjectId;
      }
    }
  }

  lemma ClientDetailsConfined(s: State, b: UserId, cid: ClientId)
    ensures var r := Handlers.ClientDetails(s, b, cid); ConfinedTo(s, r.state, b) && DisclosesOnly(s, b, r.response)
  {
  }

  lemma DeleteProjectConfined(s: State, b: UserId, pid: ProjectId)
    ensures var r := Handlers.DeleteProject(s, b, pid); ConfinedTo(s, r.state, b) && DisclosesOnly(s, b, r.response)
  {
  }

  lemma DeleteClientConfined(s: State, b: UserId, cid: ClientId)
    ensures var r := Handlers.DeleteClient(s, b, cid); ConfinedTo(s, r.state, b) && DisclosesOnly(s, b, r.response)
  {
  }

  lemma EditClientConfined(s: State, b: UserId, cid: ClientId, m: Method, f: ClientForm)
    ensures var r := Handlers.EditClient(s, b, cid, m, f); ConfinedTo(s, r.state, b) && DisclosesOnly(s, b, r.response)
  {
  }

  lemma EditProjectConfined(s: State, b: UserId, pid: ProjectId, m: Method, f: ProjectForm)
    ensures var r := Handlers.EditProject(s, b, pid, m, f); ConfinedTo(s, r.state, b) && DisclosesOnly(s, b, r.response)
  {
  }
}
