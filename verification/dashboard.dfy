/** The owner-scoped queries behind the dashboard: listings and the revenue total. */
module Dashboard {
  import opened Wrappers
  import opened Tables
  import opened Schema

  /** `SELECT id FROM projects JOIN clients ON projects.client_id = clients.id WHERE clients.user_id = uid`. */
  function OwnedProjectIds(s: State, uid: UserId): (ids: seq<ProjectId>)
    ensures Increasing(ids)
    ensures forall pid :: pid in ids <==> OwnsProject(s, uid, pid)
  {
    Select(s.projects, (pid: nat, p: Project) => OwnsClient(s.clients, uid, p.clientId), 0, s.nextProjectId)
  }

  /** `SELECT id FROM projects WHERE client_id = cid`. */
  function ClientProjectIds(s: State, cid: ClientId): (ids: seq<ProjectId>)
    ensures Increasing(ids)
    ensures forall pid :: pid in ids <==> pid in s.projects && s.projects[pid].clientId == cid
  {
    Select(s.projects, (pid: nat, p: Project) => p.clientId == cid, 0, s.nextProjectId)
  }

  /** `SELECT id FROM clients WHERE user_id = uid`. */
  function OwnedClientIds(s: State, uid: UserId): (ids: seq<ClientId>)
    ensures Increasing(ids)
    ensures forall cid :: cid in ids <==> OwnsClient(s.clients, uid, cid)
  {
    Select(s.clients, (cid: nat, c: Client) => c.userId == uid, 0, s.nextClientId)
  }

  /** `projects.*, clients.name AS client_name` for each id. */
  function JoinRows(s: State, ids: seq<ProjectId>): (rows: seq<ProjectRow>)
    requires forall i :: 0 <= i < |ids| ==> ids[i] in s.projects && s.projects[ids[i]].clientId in s.clients
    ensures |rows| == |ids|
    ensures forall i :: 0 <= i < |ids| ==> rows[i].id == ids[i] && rows[i].project == s.projects[ids[i]]
    ensures forall i :: 0 <= i < |ids| ==> rows[i].clientName == s.clients[s.projects[ids[i]].clientId].name
  {
    seq(|ids|, i requires 0 <= i < |ids| =>
      ProjectRow(ids[i], s.projects[ids[i]], s.clients[s.projects[ids[i]].clientId].name))
  }

  /** The user's projects joined with their clients' names, in id order. */
  function OwnedRows(s: State, uid: UserId): (rows: seq<ProjectRow>)
    ensures ProjectRowsOwned(s, uid, rows) && ProjectRowsComplete(s, uid, rows)
    ensures ProjectIdsIncreasing(rows)
  {
    var ids := OwnedProjectIds(s, uid);
    var rows := JoinRows(s, ids);
    assert forall pid :: OwnsProject(s, uid, pid) ==> exists i :: 0 <= i < |rows| && rows[i].id == pid by {
      forall pid | OwnsProject(s, uid, pid)
        ensures exists i :: 0 <= i < |rows| && rows[i].id == pid
      {
        assert pid in ids;
        var i :| 0 <= i < |ids| && ids[i] == pid;
        assert rows[i].id == pid;
      }
    }
    rows
  }

  /** `clients.*` for each id. */
  function ClientRowsAt(s: State, ids: seq<ClientId>): (rows: seq<ClientRow>)
    requires forall i :: 0 <= i < |ids| ==> ids[i] in s.clients
    ensures |rows| == |ids|
    ensures forall i :: 0 <= i < |ids| ==> rows[i].id == ids[i] && rows[i].client == s.clients[ids[i]]
  {
    seq(|ids|, i requires 0 <= i < |ids| => ClientRow(ids[i], s.clients[ids[i]]))
  }

  /** The user's clients, `SELECT * FROM clients WHERE user_id = uid`, in id order. */
  function OwnedClients(s: State, uid: UserId): (rows: seq<ClientRow>)
    ensures ClientRowsOwned(s, uid, rows) && ClientRowsComplete(s, uid, rows)
    ensures ClientIdsIncreasing(rows)
  {
    var ids := OwnedClientIds(s, uid);
    var rows := ClientRowsAt(s, ids);
    assert forall cid :: OwnsClient(s.clients, uid, cid) ==> exists i :: 0 <= i < |rows| && rows[i].id == cid by {
      forall cid | OwnsClient(s.clients, uid, cid)
        ensures exists i :: 0 <= i < |rows| && rows[i].id == cid
      {
        assert cid in ids;
        var i :| 0 <= i < |ids| && ids[i] == cid;
        assert rows[i].id == cid;
      }
    }
    rows
  }

  /** `rows` lists exactly the projects of client `cid`, as stored, with the client's name. */
  ghost predicate ListsClientProjects(s: State, cid: ClientId, rows: seq<ProjectRow>) {
    && cid in s.clients
    && (forall i :: 0 <= i < |rows| ==>
          && rows[i].id in s.projects && s.projects[rows[i].id] == rows[i].project
          && rows[i].project.clientId == cid && rows[i].clientName == s.clients[cid].name)
    && (forall pid :: pid in s.projects && s.projects[pid].clientId == cid ==>
          exists i :: 0 <= i < |rows| && rows[i].id == pid)
    && (forall i, j :: 0 <= i < j < |rows| ==> rows[i].id != rows[j].id)
  }

  /** The projects of client `cid`, joined with its name, in id order. */
  function ClientRows(s: State, cid: ClientId): (rows: seq<ProjectRow>)
    requires cid in s.clients
    ensures ListsClientProjects(s, cid, rows)
  {
    var ids := ClientProjectIds(s, cid);
    var rows := JoinRows(s, ids);
    assert forall pid :: pid in s.projects && s.projects[pid].clientId == cid ==>
      exists i :: 0 <= i < |rows| && rows[i].id == pid by {
      forall pid | pid in s.projects && s.projects[pid].clientId == cid
        ensures exists i :: 0 <= i < |rows| && rows[i].id == pid
      {
        assert pid in ids;
        var i :| 0 <= i < |ids| && ids[i] == pid;
        assert rows[i].id == pid;
      }
    }
    assert forall i, j :: 0 <= i < j < |rows| ==> rows[i].id != rows[j].id by {
      forall i, j | 0 <= i < j < |rows|
        ensures rows[i].id != rows[j].id
      {
        assert ids[i] < ids[j];
      }
    }
    rows
  }

  /** A listing whose ids are all different holds each row at most once. */
  lemma {:induction false} DistinctCount(rows: seq<ProjectRow>, x: ProjectRow)
    requires forall i, j :: 0 <= i < j < |rows| ==> rows[i].id != rows[j].id
    ensures multiset(rows)[x] <= 1
  {
    if rows != [] {
      assert rows == [rows[0]] + rows[1..];
      DistinctCount(rows[1..], x);
      if rows[0] == x {
        assert x !in rows[1..];
      }
    }
  }

  /** Reordering a client's listing keeps it exactly that client's projects, each once. */
  lemma {:induction false} PermutedClientListing(s: State, cid: ClientId, rows: seq<ProjectRow>, listed: seq<ProjectRow>)
    requires ListsClientProjects(s, cid, rows)
    requires multiset(listed) == multiset(rows)
    ensures ListsClientProjects(s, cid, listed)
  {
    forall i | 0 <= i < |listed|
      ensures listed[i] in rows
    {
      assert listed[i] in multiset(rows);
    }
    forall pid | pid in s.projects && s.projects[pid].clientId == cid
      ensures exists i :: 0 <= i < |listed| && listed[i].id == pid
    {
      var j :| 0 <= j < |rows| && rows[j].id == pid;
      assert rows[j] in multiset(listed);
      var i :| 0 <= i < |listed| && listed[i] == rows[j];
    }
    forall i, j | 0 <= i < j < |listed|
      ensures listed[i].id != listed[j].id
    {
      if listed[i].id == listed[j].id {
        assert listed[i] == listed[j];
        RepeatCount(listed, i, j);
        DistinctCount(rows, listed[i]);
        assert false;
      }
    }
  }

  /** The sum of the listed values. */
  function SumValues(rows: seq<ProjectRow>): int {
    if rows == [] then 0 else rows[0].project.value + SumValues(rows[1..])
  }

  lemma {:induction false} SumConcat(a: seq<ProjectRow>, b: seq<ProjectRow>)
    ensures SumValues(a + b) == SumValues(a) + SumValues(b)
  {
    if a != [] {
      assert (a + b)[0] == a[0];
      assert (a + b)[1..] == a[1..] + b;
      SumConcat(a[1..], b);
    } else {
      assert a + b == b;
    }
  }

  /** Leaving out the `k`-th row takes its value off the sum. */
  lemma SumWithout(rows: seq<ProjectRow>, k: nat)
    requires k < |rows|
    ensures SumValues(rows[..k] + rows[k + 1..]) == SumValues(rows) - rows[k].project.value
  {
    var pre, x, post := rows[..k], rows[k], rows[k + 1..];
    assert rows == pre + ([x] + post);
    SumConcat(pre, [x] + post);
    SumCons(x, post);
    SumConcat(pre, post);
  }

  lemma SumCons(x: ProjectRow, rows: seq<ProjectRow>)
    ensures SumValues([x] + rows) == x.project.value + SumValues(rows)
  {
    assert ([x] + rows)[1..] == rows;
  }

  /** Leaving out the `k`-th row takes it out of the multiset of rows. */
  lemma MultisetWithout(rows: seq<ProjectRow>, k: nat)
    requires k < |rows|
    ensures multiset(rows[..k] + rows[k + 1..]) == multiset(rows) - multiset{rows[k]}
  {
    assert rows == rows[..k] + [rows[k]] + rows[k + 1..];
  }

  /** Leaving out the first row takes it out of the multiset of rows. */
  lemma MultisetTail(rows: seq<ProjectRow>)
    requires rows != []
    ensures multiset(rows[1..]) == multiset(rows) - multiset{rows[0]}
  {
    assert rows == [rows[0]] + rows[1..];
  }

  /** A row of the multiset of `rows` is at some position of `rows`. */
  lemma Position(x: ProjectRow, rows: seq<ProjectRow>) returns (k: nat)
    requires x in multiset(rows)
    ensures k < |rows| && rows[k] == x
  {
    assert x in rows;
    k :| 0 <= k < |rows| && rows[k] == x;
  }

  /** The first row of `a` sits somewhere in its permutation `b`; the rest of `a` is a
      permutation of `b` without it. */
  lemma PermutationSplit(a: seq<ProjectRow>, b: seq<ProjectRow>) returns (k: nat)
    requires multiset(a) == multiset(b) && a != []
    ensures k < |b| && b[k] == a[0]
    ensures multiset(a[1..]) == multiset(b[..k] + b[k + 1..])
  {
    assert a[0] in multiset(a);
    k := Position(a[0], b);
    MultisetWithout(b, k);
    MultisetTail(a);
  }

  /** The total does not depend on the listing order. */
  lemma {:induction false} SumPermutation(a: seq<ProjectRow>, b: seq<ProjectRow>)
    requires multiset(a) == multiset(b)
    ensures SumValues(a) == SumValues(b)
  {
    if a != [] {
      var k := PermutationSplit(a, b);
      SumWithout(b, k);
      SumPermutation(a[1..], b[..k] + b[k + 1..]);
    } else {
      assert |multiset(b)| == 0;
    }
  }

  /** `SELECT SUM(value)` over the joined rows: NULL when there are no rows. */
  function SumColumn(rows: seq<ProjectRow>): (total: Option<int>)
    ensures total.None? <==> rows == []
  {
    if rows == [] then None else Some(SumValues(rows))
  }

  /** The dashboard's revenue: the SUM over the user's projects, with NULL read as 0. */
  function TotalRevenue(s: State, uid: UserId): (total: int)
    ensures total == SumValues(OwnedRows(s, uid))
    ensures (forall pid :: !OwnsProject(s, uid, pid)) ==> total == 0
  {
    var total := SumColumn(OwnedRows(s, uid));
    if total.None? then 0 else total.value
  }

  /** A listing with the same rows as the owned listing is sound and complete, and sums to the revenue. */
  lemma {:induction false} PermutedListing(s: State, uid: UserId, rows: seq<ProjectRow>)
    requires multiset(rows) == multiset(OwnedRows(s, uid))
    ensures ProjectRowsOwned(s, uid, rows) && ProjectRowsComplete(s, uid, rows)
    ensures SumValues(rows) == TotalRevenue(s, uid)
  {
    var owned := OwnedRows(s, uid);
    forall i | 0 <= i < |rows|
      ensures ShowsOwnedProject(s, uid, rows[i])
    {
      assert rows[i] in multiset(owned);
      var j :| 0 <= j < |owned| && owned[j] == rows[i];
    }
    forall pid | OwnsProject(s, uid, pid)
      ensures exists i :: 0 <= i < |rows| && rows[i].id == pid
    {
      var j :| 0 <= j < |owned| && owned[j].id == pid;
      assert owned[j] in multiset(rows);
      var i :| 0 <= i < |rows| && rows[i] == owned[j];
    }
    SumPermutation(rows, owned);
  }
}
