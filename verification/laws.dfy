/** Laws relating the handlers to each other and to the dashboard total. */
module Laws {
  import opened Wrappers
  import opened Tables
  import opened Schema
  import opened Dashboard
  import opened Web
  import opened Handlers

  /** The accepted form of `add_project`: a name, and a client of the session's user. */
  predicate AcceptsProject(s: State, uid: UserId, f: ProjectForm) {
    f.clientId.Some? && Present(f.name) && OwnsClient(s.clients, uid, f.clientId.value)
  }

  /** Inserting a project of `uid` under the next free id appends that id to `uid`'s listing. */
  lemma {:induction false} OwnedIdsAfterInsert(s: State, s2: State, uid: UserId, p: Project)
    requires s2.clients == s.clients
    requires s2.projects == s.projects[s.nextProjectId := p]
    requires OwnsClient(s.clients, uid, p.clientId)
    ensures OwnedProjectIds(s2, uid) == OwnedProjectIds(s, uid) + [s.nextProjectId]
  {
    var n := s.nextProjectId;
    var ids, ids2 := OwnedProjectIds(s, uid), OwnedProjectIds(s2, uid);
    assert Increasing(ids + [n]) by {
      forall i | 0 <= i < |ids|
        ensures ids[i] < n
      {
        assert ids[i] in ids;
        assert ids[i] in s.projects;
      }
    }
    forall pid
      ensures pid in ids2 <==> pid in ids + [n]
    {
      assert OwnsProject(s2, uid, pid) <==> pid == n || OwnsProject(s, uid, pid);
    }
    IncreasingUnique(ids2, ids + [n]);
  }

  /** Removing one of `uid`'s projects removes its id from `uid`'s listing. */
  lemma {:induction false} OwnedIdsAfterRemove(s: State, s2: State, uid: UserId, pid: ProjectId, k: nat)
    requires s2.clients == s.clients
    requires s2.projects == s.projects - {pid}
    requires k < |OwnedProjectIds(s, uid)| && OwnedProjectIds(s, uid)[k] == pid
    ensures OwnedProjectIds(s2, uid) == OwnedProjectIds(s, uid)[..k] + OwnedProjectIds(s, uid)[k + 1..]
  {
    var ids, ids2 := OwnedProjectIds(s, uid), OwnedProjectIds(s2, uid);
    IncreasingWithout(ids, k);
    forall q
      ensures q in ids2 <==> q in ids[..k] + ids[k + 1..]
    {
      assert q in ids2 <==> q in ids && q != pid;
    }
    IncreasingUnique(ids2, ids[..k] + ids[k + 1..]);
  }

  /** Joining the same ids against the same rows gives the same listing. */
  lemma JoinUnchanged(s: State, s2: State, ids: seq<ProjectId>)
    requires s2.clients == s.clients
    requires forall i :: 0 <= i < |ids| ==> ids[i] in s.projects && s.projects[ids[i]].clientId in s.clients
    requires forall i :: 0 <= i < |ids| ==> ids[i] in s2.projects && s2.projects[ids[i]] == s.projects[ids[i]]
    ensures JoinRows(s2, ids) == JoinRows(s, ids)
  {
  }

  /** Inserting a project of `uid` under the next free id raises `uid`'s revenue by its value. */
  lemma {:induction false} RevenueAfterInsert(s: State, s2: State, uid: UserId, p: Project)
    requires s2.clients == s.clients
    requires s2.projects == s.projects[s.nextProjectId := p]
    requires OwnsClient(s.clients, uid, p.clientId)
    ensures TotalRevenue(s2, uid) == TotalRevenue(s, uid) + p.value
  {
    OwnedRowsAfterInsert(s, s2, uid, p);
    var row := ProjectRow(s.nextProjectId, p, s.clients[p.clientId].name);
    SumConcat(OwnedRows(s, uid), [row]);
    assert SumValues([row]) == p.value;
  }

  /** Inserting a project of `uid` under the next free id appends its row to `uid`'s join. */
  lemma OwnedRowsAfterInsert(s: State, s2: State, uid: UserId, p: Project)
    requires s2.clients == s.clients
    requires s2.projects == s.projects[s.nextProjectId := p]
    requires OwnsClient(s.clients, uid, p.clientId)
    ensures OwnedRows(s2, uid) == OwnedRows(s, uid) + [ProjectRow(s.nextProjectId, p, s.clients[p.clientId].name)]
  {
    var n := s.nextProjectId;
    var ids := OwnedProjectIds(s, uid);
    OwnedIdsAfterInsert(s, s2, uid, p);
    OwnedIdsBelowNext(s, uid);
    JoinUnchanged(s, s2, ids);
    JoinSnoc(s2, ids, n);
  }

  /** The ids of `uid`'s projects are all below the next free id. */
  lemma OwnedIdsBelowNext(s: State, uid: UserId)
    ensures forall i :: 0 <= i < |OwnedProjectIds(s, uid)| ==>
      OwnedProjectIds(s, uid)[i] in s.projects && OwnedProjectIds(s, uid)[i] < s.nextProjectId
  {
    var ids := OwnedProjectIds(s, uid);
    forall i | 0 <= i < |ids|
      ensures ids[i] in s.projects && ids[i] < s.nextProjectId
    {
      assert ids[i] in ids;
    }
  }

  /** Joining one more id appends one more row. */
  lemma JoinSnoc(s: State, ids: seq<ProjectId>, n: ProjectId)
    requires forall i :: 0 <= i < |ids| ==> ids[i] in s.projects && s.projects[ids[i]].clientId in s.clients
    requires n in s.projects && s.projects[n].clientId in s.clients
    ensures JoinRows(s, ids + [n]) == JoinRows(s, ids) + [ProjectRow(n, s.projects[n], s.clients[s.projects[n].clientId].name)]
  {
  }

  /** Removing one of `uid`'s projects lowers `uid`'s revenue by its value. */
  lemma {:induction false} RevenueAfterRemove(s: State, s2: State, uid: UserId, pid: ProjectId)
    requires s2.clients == s.clients
    requires s2.projects == s.projects - {pid}
    requires OwnsProject(s, uid, pid)
    ensures TotalRevenue(s2, uid) == TotalRevenue(s, uid) - s.projects[pid].value
  {
    var ids := OwnedProjectIds(s, uid);
    assert pid in ids;
    var k :| 0 <= k < |ids| && ids[k] == pid;
    OwnedRowsAfterRemove(s, s2, uid, pid, k);
    SumWithout(OwnedRows(s, uid), k);
  }

  /** Removing the `k`-th of `uid`'s projects removes the `k`-th row of `uid`'s join. */
  lemma OwnedRowsAfterRemove(s: State, s2: State, uid: UserId, pid: ProjectId, k: nat)
    requires s2.clients == s.clients
    requires s2.projects == s.projects - {pid}
    requires k < |OwnedProjectIds(s, uid)| && OwnedProjectIds(s, uid)[k] == pid
    ensures k < |OwnedRows(s, uid)|
    ensures OwnedRows(s2, uid) == OwnedRows(s, uid)[..k] + OwnedRows(s, uid)[k + 1..]
  {
    var ids := OwnedProjectIds(s, uid);
    OwnedIdsAfterRemove(s, s2, uid, pid, k);
    var rest := ids[..k] + ids[k + 1..];
    IncreasingWithout(ids, k);
    assert forall i :: 0 <= i < |rest| ==> rest[i] in ids && rest[i] != pid by {
      forall i | 0 <= i < |rest|
        ensures rest[i] in ids && rest[i] != pid
      {
        assert rest[i] in rest;
      }
    }
    JoinUnchanged(s, s2, rest);
    JoinWithout(s, ids, k);
  }

  /** Adding a project raises its owner's revenue by exactly the project's value. */
  lemma RevenueAfterAddProject(s: State, uid: UserId, f: ProjectForm)
    requires AcceptsProject(s, uid, f)
    ensures TotalRevenue(AddProject(s, uid, Post, f).state, uid) == TotalRevenue(s, uid) + f.value.GetOr(0)
  {
    RevenueAfterInsert(s, AddProject(s, uid, Post, f).state, uid, NewProject(f));
  }

  /** Deleting one of the user's projects lowers their revenue by exactly its value. */
  lemma RevenueAfterDeleteProject(s: State, uid: UserId, pid: ProjectId)
    requires OwnsProject(s, uid, pid)
    ensures TotalRevenue(DeleteProject(s, uid, pid).state, uid) == TotalRevenue(s, uid) - s.projects[pid].value
  {
    RevenueAfterRemove(s, DeleteProject(s, uid, pid).state, uid, pid);
  }

  /** Leaving out the `k`-th id leaves out the `k`-th joined row. */
  lemma JoinWithout(s: State, ids: seq<ProjectId>, k: nat)
    requires k < |ids|
    requires forall i :: 0 <= i < |ids| ==> ids[i] in s.projects && s.projects[ids[i]].clientId in s.clients
    ensures JoinRows(s, ids[..k] + ids[k + 1..]) == JoinRows(s, ids)[..k] + JoinRows(s, ids)[k + 1..]
  {
  }

  /** Deleting a client just added takes the client table back to where it was. */
  lemma AddThenDeleteClient(s: State, uid: UserId, f: ClientForm)
    requires Present(f.name)
    ensures var s1 := AddClient(s, uid, Post, f).state;
      var s2 := DeleteClient(s1, uid, s.nextClientId).state;
      s2.clients == s.clients && s2.projects == s.projects && s2.users == s.users
  {
    var s1 := AddClient(s, uid, Post, f).state;
    assert s1.clients - {s.nextClientId} == s.clients;
  }

  /** Deleting a project just added takes the project table back to where it was. */
  lemma AddThenDeleteProject(s: State, uid: UserId, f: ProjectForm)
    requires AcceptsProject(s, uid, f)
    ensures var s1 := AddProject(s, uid, Post, f).state;
      var s2 := DeleteProject(s1, uid, s.nextProjectId).state;
      s2.clients == s.clients && s2.projects == s.projects && s2.users == s.users
  {
    var s1 := AddProject(s, uid, Post, f).state;
    assert s1.projects - {s.nextProjectId} == s.projects;
  }

  /** Submitting the same client form twice has the effect of submitting it once. */
  lemma EditClientIdempotent(s: State, uid: UserId, cid: ClientId, f: ClientForm)
    ensures var r1 := EditClient(s, uid, cid, Post, f);
      EditClient(r1.state, uid, cid, Post, f) == r1
  {
  }

  /** Submitting the same project form twice has the effect of submitting it once. */
  lemma EditProjectIdempotent(s: State, uid: UserId, pid: ProjectId, f: ProjectForm)
    ensures var r1 := EditProject(s, uid, pid, Post, f);
      EditProject(r1.state, uid, pid, Post, f) == r1
  {
  }

  /** On the details page, a client of another user gets the same answer as a client id that does not exist. */
  lemma ForeignClientLooksMissing(s: State, uid: UserId, cid: ClientId, missing: ClientId)
    requires cid in s.clients && s.clients[cid].userId != uid
    requires missing !in s.clients
    ensures ClientDetails(s, uid, cid) == ClientDetails(s, uid, missing)
  {
  }

  /** On the edit page, a client of another user gets the same answer as a client id that does not exist. */
  lemma ForeignClientEditLooksMissing(s: State, uid: UserId, cid: ClientId, missing: ClientId, m: Method, f: ClientForm)
    requires cid in s.clients && s.clients[cid].userId != uid
    requires missing !in s.clients
    ensures EditClient(s, uid, cid, m, f) == EditClient(s, uid, missing, m, f)
  {
  }

  /** On the edit page, a project of another user's client gets the same answer as a project id that does not exist. */
  lemma ForeignProjectEditLooksMissing(s: State, uid: UserId, pid: ProjectId, missing: ProjectId, m: Method, f: ProjectForm)
    requires pid in s.projects && !OwnsClient(s.clients, uid, s.projects[pid].clientId)
    requires missing !in s.projects
    ensures EditProject(s, uid, pid, m, f) == EditProject(s, uid, missing, m, f)
  {
  }

  /** Deleting a project of another user's client has the effect of deleting a project id that does not exist. */
  lemma ForeignProjectDeleteLooksMissing(s: State, uid: UserId, pid: ProjectId, missing: ProjectId)
    requires pid in s.projects && !OwnsClient(s.clients, uid, s.projects[pid].clientId)
    requires missing !in s.projects
    ensures DeleteProject(s, uid, pid) == DeleteProject(s, uid, missing)
  {
  }

  /** Login succeeds for the one user whose name matches and whose password checks. */
  lemma {:induction false} LoginAcceptsUniqueMatch(s: State, f: LoginForm, checkHash: (string, string) -> bool, uid: UserId)
    requires LoginAccepts(s, f, checkHash, uid)
    ensures Login(s, Post, f, checkHash).session == Some(uid)
    ensures Login(s, Post, f, checkHash).response == Redirect(Home)
  {
    SoleMatch(s, f.username, uid);
  }

  /** With one user of that name and no password, the hash check raises: a server error. */
  lemma {:induction false} LoginWithoutPassword(s: State, f: LoginForm, checkHash: (string, string) -> bool, uid: UserId)
    requires SoleUserNamed(s, f.username, uid) && f.password.None?
    ensures Login(s, Post, f, checkHash) == Outcome(s, None, ServerError)
  {
    SoleMatch(s, f.username, uid);
  }

  /** The lookup of a name that exactly one user has returns that user alone. */
  lemma SoleMatch(s: State, username: Option<string>, uid: UserId)
    requires SoleUserNamed(s, username, uid)
    ensures UsersNamed(s, username) == [uid]
  {
    var rows := UsersNamed(s, username);
    forall u
      ensures u in rows <==> u in [uid]
    {
    }
    IncreasingUnique(rows, [uid]);
  }
}
