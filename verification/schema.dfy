/** The three tables of the application's database, and who owns which row. */
module Schema {
  import opened Wrappers
  import opened Tables

  type UserId = nat
  type ClientId = nat
  type ProjectId = nat

  /** A row of `users`: the login name and the stored password hash. */
  datatype User = User(username: string, hash: string)

  /** A row of `clients`. `userId` is the owning user; the nullable text columns are options. */
  datatype Client = Client(
    userId: UserId,
    name: string,
    company: Option<string>,
    email: Option<string>,
    phone: Option<string>,
    status: Option<string>)

  /** A row of `projects`. `value` is an amount in pence; `deadline` is a day number. */
  datatype Project = Project(
    clientId: ClientId,
    name: string,
    description: Option<string>,
    value: int,
    status: Option<string>,
    importance: Option<string>,
    deadline: Option<nat>)

  /** The database: one map per table, plus the id each table gives its next inserted row. */
  datatype Db = Db(
    users: map<UserId, User>,
    clients: map<ClientId, Client>,
    projects: map<ProjectId, Project>,
    nextUserId: nat,
    nextClientId: nat,
    nextProjectId: nat)

  predicate Valid(db: Db) {
    && IdsBelow(db.users, db.nextUserId)
    && IdsBelow(db.clients, db.nextClientId)
    && IdsBelow(db.projects, db.nextProjectId)
  }

  /** A database whose id counters lie above every id in use. */
  type State = db: Db | Valid(db) witness Db(map[], map[], map[], 0, 0, 0)

  /** `SELECT id FROM clients WHERE id = cid AND user_id = uid` is not empty. */
  predicate OwnsClient(clients: map<ClientId, Client>, uid: UserId, cid: ClientId) {
    cid in clients && clients[cid].userId == uid
  }

  /** The project exists and its client belongs to `uid`: ownership through the join on clients. */
  predicate OwnsProject(db: Db, uid: UserId, pid: ProjectId) {
    pid in db.projects && OwnsClient(db.clients, uid, db.projects[pid].clientId)
  }

  /** The part of the database that belongs to `uid`: their clients, and the projects of those clients. */
  function ClientsOf(db: Db, uid: UserId): map<ClientId, Client> {
    map c | c in db.clients && db.clients[c].userId == uid :: db.clients[c]
  }

  function ProjectsOf(db: Db, uid: UserId): map<ProjectId, Project> {
    map p | p in db.projects && OwnsProject(db, uid, p) :: db.projects[p]
  }

  /** A listed project: the project row with its id, joined with its client's name. */
  datatype ProjectRow = ProjectRow(id: ProjectId, project: Project, clientName: string)

  /** A listed client: the client row with its id. */
  datatype ClientRow = ClientRow(id: ClientId, client: Client)

  /** The row shows project `row.id` of `uid` exactly as stored, with its client's name. */
  ghost predicate ShowsOwnedProject(db: Db, uid: UserId, row: ProjectRow) {
    && OwnsProject(db, uid, row.id)
    && db.projects[row.id] == row.project
    && row.clientName == db.clients[row.project.clientId].name
  }

  /** Every listed project is one of `uid`'s, as stored. */
  ghost predicate ProjectRowsOwned(db: Db, uid: UserId, rows: seq<ProjectRow>) {
    forall i :: 0 <= i < |rows| ==> ShowsOwnedProject(db, uid, rows[i])
  }

  /** Every project of `uid` is listed. */
  ghost predicate ProjectRowsComplete(db: Db, uid: UserId, rows: seq<ProjectRow>) {
    forall pid :: OwnsProject(db, uid, pid) ==> exists i :: 0 <= i < |rows| && rows[i].id == pid
  }

  /** Every listed client is one of `uid`'s, as stored. */
  ghost predicate ClientRowsOwned(db: Db, uid: UserId, rows: seq<ClientRow>) {
    forall i :: 0 <= i < |rows| ==> OwnsClient(db.clients, uid, rows[i].id) && db.clients[rows[i].id] == rows[i].client
  }

  /** Every client of `uid` is listed. */
  ghost predicate ClientRowsComplete(db: Db, uid: UserId, rows: seq<ClientRow>) {
    forall cid :: OwnsClient(db.clients, uid, cid) ==> exists i :: 0 <= i < |rows| && rows[i].id == cid
  }

  /** Listings in ascending id order, each row at most once. */
  ghost predicate ProjectIdsIncreasing(rows: seq<ProjectRow>) {
    forall i, j :: 0 <= i < j < |rows| ==> rows[i].id < rows[j].id
  }

  ghost predicate ClientIdsIncreasing(rows: seq<ClientRow>) {
    forall i, j :: 0 <= i < j < |rows| ==> rows[i].id < rows[j].id
  }
}
