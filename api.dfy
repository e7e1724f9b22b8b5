/** The client's data layer: every operation calls the backend, and after a
    failed call switches the module into mock mode for good and runs itself
    once more against an in-memory store seeded from the mock projects.
    The backend's answer to each call is the parameter `remote`; the clock is
    the parameter `now`. */
module Api {
  import opened Common
  import opened Text
  import opened Seqs
  import opened Mocks

  /** What the backend does with one request: it fails (a network error or a
      non-OK status, with the error's message) or answers with a JSON body. */
  datatype Remote = Down(reason: string) | Up(body: string)

  /** Where a result comes from: the backend's body, the mock store, or a
      thrown error. */
  datatype Served<T> = FromBackend(body: string) | FromMock(value: T) | Threw(message: string)

  // ---------------------------------------------------------------------
  // Mock listing: filter, then sort by recency
  // ---------------------------------------------------------------------

  predicate SortedByRecency(s: seq<MockProject>) {
    forall i, j :: 0 <= i < j < |s| ==> s[i].updatedAt >= s[j].updatedAt
  }

  /** Puts `p` in front of the first project that is not more recent, so a
      project keeps its place ahead of later ones with the same timestamp. */
  function InsertByRecency(p: MockProject, s: seq<MockProject>): (r: seq<MockProject>)
    requires SortedByRecency(s)
    ensures multiset(r) == multiset(s) + multiset{p}
    ensures SortedByRecency(r)
  {
    if s == [] || p.updatedAt >= s[0].updatedAt then [p] + s
    else
      var rest := InsertByRecency(p, s[1..]);
      InsertedBelowHead(p, s, rest);
      assert s == [s[0]] + s[1..];
      [s[0]] + rest
  }

  lemma InsertedBelowHead(p: MockProject, s: seq<MockProject>, rest: seq<MockProject>)
    requires s != [] && SortedByRecency(s) && p.updatedAt < s[0].updatedAt
    requires multiset(rest) == multiset(s[1..]) + multiset{p}
    requires SortedByRecency(rest)
    ensures SortedByRecency([s[0]] + rest)
  {
    forall j | 0 <= j < |rest| ensures s[0].updatedAt >= rest[j].updatedAt {
      assert rest[j] in multiset(rest);
      if rest[j] != p {
        assert rest[j] in multiset(s[1..]);
        var k :| 0 <= k < |s[1..]| && s[1..][k] == rest[j];
        assert s[k + 1] == rest[j];
      }
    }
    var r := [s[0]] + rest;
    forall i, j | 0 <= i < j < |r| ensures r[i].updatedAt >= r[j].updatedAt {
      assert r[j] == rest[j - 1];
      if i > 0 {
        assert r[i] == rest[i - 1];
      }
    }
  }

  /** `projects.sort((a, b) => b.updatedAt - a.updatedAt)`: the same projects,
      most recently updated first. */
  function SortByRecency(s: seq<MockProject>): (r: seq<MockProject>)
    ensures multiset(r) == multiset(s)
    ensures SortedByRecency(r)
  {
    if s == [] then []
    else
      assert s == [s[0]] + s[1..];
      InsertByRecency(s[0], SortByRecency(s[1..]))
  }

  function UpdatedAtIs(t: int): MockProject -> bool {
    (p: MockProject) => p.updatedAt == t
  }

  /** Insertion puts `p` after every project strictly more recent, so among
      the projects with its timestamp it comes first. */
  lemma {:induction false} InsertKeepsTies(p: MockProject, s: seq<MockProject>, t: int)
    requires SortedByRecency(s)
    ensures Filter(InsertByRecency(p, s), UpdatedAtIs(t))
            == (if p.updatedAt == t then [p] else []) + Filter(s, UpdatedAtIs(t))
  {
    if s == [] || p.updatedAt >= s[0].updatedAt {
      assert InsertByRecency(p, s) == [p] + s;
      FilterCons(p, s, UpdatedAtIs(t));
    } else {
      var rest := InsertByRecency(p, s[1..]);
      InsertKeepsTies(p, s[1..], t);
      TiesBelowHead(p, s, rest, t);
      assert InsertByRecency(p, s) == [s[0]] + rest;
    }
  }

  /** The step of InsertKeepsTies when `p` goes below the head: the head is
      strictly more recent than `p`, so at most one of them has timestamp `t`. */
  lemma TiesBelowHead(p: MockProject, s: seq<MockProject>, rest: seq<MockProject>, t: int)
    requires s != [] && p.updatedAt < s[0].updatedAt
    requires Filter(rest, UpdatedAtIs(t)) == (if p.updatedAt == t then [p] else []) + Filter(s[1..], UpdatedAtIs(t))
    ensures Filter([s[0]] + rest, UpdatedAtIs(t)) == (if p.updatedAt == t then [p] else []) + Filter(s, UpdatedAtIs(t))
  {
    var at := UpdatedAtIs(t);
    FilterCons(s[0], rest, at);
    var tail := Filter(s[1..], at);
    if p.updatedAt == t {
      assert !at(s[0]);
      assert Filter(s, at) == [] + tail == tail;
      assert Filter([s[0]] + rest, at) == [] + Filter(rest, at);
    } else {
      assert Filter(rest, at) == [] + tail == tail;
      assert Filter(s, at) == (if at(s[0]) then [s[0]] else []) + tail;
    }
  }

  /** The sort is stable, as `Array.prototype.sort` is: the projects sharing
      a timestamp keep their order in the input. */
  lemma {:induction false} SortIsStable(s: seq<MockProject>, t: int)
    ensures Filter(SortByRecency(s), UpdatedAtIs(t)) == Filter(s, UpdatedAtIs(t))
  {
    if s != [] {
      SortIsStable(s[1..], t);
      InsertKeepsTies(s[0], SortByRecency(s[1..]), t);
    }
  }

  predicate OpenForGovernment(p: MockProject) {
    p.status == Applied || p.status == Draft
  }

  const GovernmentOpen := "government-open"

  /** The mock branch of `fetchProjects`: a copy of the store, restricted to
      Applied or Draft projects for the `government-open` filter, most
      recently updated first. */
  function MockList(store: seq<MockProject>, filter: Option<string>): (r: seq<MockProject>)
    ensures SortedByRecency(r)
    ensures filter != Some(GovernmentOpen) ==> multiset(r) == multiset(store)
    ensures filter == Some(GovernmentOpen) ==> multiset(r) == multiset(Filter(store, OpenForGovernment))
    ensures forall p :: p in r <==> p in store && (filter == Some(GovernmentOpen) ==> OpenForGovernment(p))
  {
    var projects := if filter == Some(GovernmentOpen) then Filter(store, OpenForGovernment) else store;
    var r := SortByRecency(projects);
    assert forall p :: p in r <==> p in multiset(r);
    r
  }

  // ---------------------------------------------------------------------
  // Mock creation
  // ---------------------------------------------------------------------

  datatype MilestoneDraft = MilestoneDraft(description: string, amount: int)

  datatype ProjectData = ProjectData(
    name: string,
    description: string,
    producerId: string,
    milestones: seq<MilestoneDraft>)

  function MockId(n: nat): string {
    "mock-" + NatToString(n)
  }

  lemma MockIdInjective(a: nat, b: nat)
    requires MockId(a) == MockId(b)
    ensures a == b
  {
    assert NatToString(a) == MockId(a)[5..] == MockId(b)[5..] == NatToString(b);
    NatToStringInjective(a, b);
  }

  const UnknownProducer := "Unknown Producer"

  /** `mockUsers.find(u => u.id === producerId)?.name || 'Unknown Producer'`. */
  function ProducerNameFor(producerId: string): (r: string)
    ensures (forall u :: u in MockUsers ==> u.id != producerId) ==> r == UnknownProducer
    ensures r != UnknownProducer ==> exists u :: u in MockUsers && u.id == producerId && u.name == r
    ensures forall u :: u in MockUsers && u.id == producerId ==>
              r == (if u.name == "" then UnknownProducer else u.name)
  {
    var i := FirstIndex(MockUsers, (u: MockUser) => u.id == producerId);
    MatchIsUnique(producerId, i);
    if i == -1 || MockUsers[i].name == "" then UnknownProducer
    else
      assert MockUsers[i] in MockUsers;
      MockUsers[i].name
  }

  /** The mock users have distinct ids, so the user `find` reaches is the
      only one with that id. */
  lemma MatchIsUnique(producerId: string, i: int)
    requires i == FirstIndex(MockUsers, (u: MockUser) => u.id == producerId)
    ensures forall u :: u in MockUsers && u.id == producerId ==> 0 <= i && u == MockUsers[i]
  {
    MockUserIdsDistinct();
    forall u | u in MockUsers && u.id == producerId
      ensures 0 <= i && u == MockUsers[i]
    {
      var j :| 0 <= j < |MockUsers| && MockUsers[j] == u;
      assert i != -1;
    }
  }

  /** The project the mock branch of `createProject` prepends: a Draft with
      no grant and no contract, whose milestones are the drafted ones indexed
      by position, unverified, without proofs or comments. */
  function NewMockProject(data: ProjectData, next: nat, now: int): (r: MockProject)
    ensures r.id == MockId(next) && r.status == Draft && r.grantTotal.None? && r.contractAddress.None?
    ensures r.name == data.name && r.description == data.description && r.producerId == data.producerId
    ensures r.producerName == ProducerNameFor(data.producerId)
    ensures |r.milestones| == |data.milestones|
    ensures forall k :: 0 <= k < |r.milestones| ==>
              r.milestones[k] == MockMilestone(k, data.milestones[k].description, data.milestones[k].amount, false, [], None)
    ensures r.createdAt == r.updatedAt == now
  {
    MockProject(MockId(next), data.name, data.description, data.producerId, ProducerNameFor(data.producerId),
      Draft, None,
      seq(|data.milestones|, k requires 0 <= k < |data.milestones| =>
        MockMilestone(k, data.milestones[k].description, data.milestones[k].amount, false, [], None)),
      None, now, now)
  }

  /** The store's ids are pairwise distinct and the counter has not yet
      issued any of them. */
  ghost predicate IdsFresh(store: seq<MockProject>, next: nat) {
    && (forall i, j :: 0 <= i < j < |store| ==> store[i].id != store[j].id)
    && (forall i, k :: 0 <= i < |store| && next <= k ==> store[i].id != MockId(k))
  }

  /** The seed store with the counter at its initial value, one past the
      number of seed projects. */
  lemma SeedIdsFresh()
    ensures IdsFresh(MockProjects, |MockProjects| + 1)
  {
    SeedIdsDistinct();
    forall i, k | 0 <= i < |MockProjects| && |MockProjects| + 1 <= k
      ensures MockProjects[i].id != MockId(k)
    {
      assert MockProjects[i].id[0] == 'p' && MockId(k)[0] == 'm';
    }
  }

  /** Prepending a project with the counter's next id and advancing the
      counter keeps the ids distinct. */
  lemma PrependKeepsIdsFresh(store: seq<MockProject>, next: nat, p: MockProject)
    requires IdsFresh(store, next) && p.id == MockId(next)
    ensures IdsFresh([p] + store, next + 1)
  {
    var s := [p] + store;
    forall i, j | 0 <= i < j < |s| ensures s[i].id != s[j].id {
      assert s[j] == store[j - 1];
      if i > 0 {
        assert s[i] == store[i - 1];
      }
    }
    forall i, k | 0 <= i < |s| && next + 1 <= k ensures s[i].id != MockId(k) {
      if i == 0 {
        if MockId(next) == MockId(k) {
          MockIdInjective(next, k);
        }
      } else {
        assert s[i] == store[i - 1];
      }
    }
  }

  // ---------------------------------------------------------------------
  // Mock update, proof upload and verification
  // ---------------------------------------------------------------------

  /** The fields `updateProject` accepts. */
  datatype Patch = Patch(status: Option<GrantStatus>, grantTotal: Option<int>, milestones: Option<seq<MockMilestone>>)

  /** `{ ...p, ...patch, updatedAt: now }`. */
  function MergeMock(p: MockProject, patch: Patch, now: int): (r: MockProject)
    ensures r.status == patch.status.GetOr(p.status)
    ensures patch.grantTotal.Some? ==> r.grantTotal == patch.grantTotal
    ensures patch.grantTotal.None? ==> r.grantTotal == p.grantTotal
    ensures r.milestones == patch.milestones.GetOr(p.milestones)
    ensures r.updatedAt == now
    ensures r.(status := p.status, grantTotal := p.grantTotal, milestones := p.milestones, updatedAt := p.updatedAt) == p
  {
    p.(status := patch.status.GetOr(p.status),
       grantTotal := if patch.grantTotal.Some? then patch.grantTotal else p.grantTotal,
       milestones := patch.milestones.GetOr(p.milestones),
       updatedAt := now)
  }

  predicate FirstWithMockId(store: seq<MockProject>, id: string, i: int) {
    0 <= i < |store| && store[i].id == id && forall j :: 0 <= j < i ==> store[j].id != id
  }

  function MockIdIs(id: string): MockProject -> bool {
    (p: MockProject) => p.id == id
  }

  datatype MockChange = MockChange(store: seq<MockProject>, project: MockProject)

  const ProjectNotFound := "Project not found"

  /** The mock branch of `updateProject`: throws for an unknown id; otherwise
      only the first project with the id is merged. */
  function MockUpdate(store: seq<MockProject>, id: string, patch: Patch, now: int): (r: Result<MockChange, string>)
    ensures r.Err? <==> forall p :: p in store ==> p.id != id
    ensures r.Err? ==> r.error == ProjectNotFound
    ensures r.Ok? ==> exists i :: (FirstWithMockId(store, id, i)
              && r.value.store == store[i := MergeMock(store[i], patch, now)]
              && r.value.project == r.value.store[i])
  {
    var i := FirstIndex(store, MockIdIs(id));
    if i == -1 then Err(ProjectNotFound)
    else
      assert FirstWithMockId(store, id, i) && store[i] in store;
      var merged := MergeMock(store[i], patch, now);
      Ok(MockChange(store[i := merged], merged))
  }

  /** An update never changes an id, so it keeps the ids fresh. */
  lemma UpdateKeepsIdsFresh(store: seq<MockProject>, next: nat, id: string, patch: Patch, now: int)
    requires IdsFresh(store, next) && MockUpdate(store, id, patch, now).Ok?
    ensures IdsFresh(MockUpdate(store, id, patch, now).value.store, next)
  {
    var i :| FirstWithMockId(store, id, i)
             && MockUpdate(store, id, patch, now).value.store == store[i := MergeMock(store[i], patch, now)];
  }

  function UploadUrl(fileName: string): string {
    "mock://uploaded/" + fileName
  }

  /** The store after a proof upload in mock mode: the URL is appended to the
      proofs of the milestone at `index` of the first project with the id,
      and that project's timestamp refreshed; without such a project or
      milestone the store is unchanged. */
  function MockUpload(store: seq<MockProject>, id: string, index: int, fileName: string, now: int): (r: seq<MockProject>)
    ensures |r| == |store|
    ensures (forall p :: p in store ==> p.id != id) ==> r == store
    ensures forall i :: FirstWithMockId(store, id, i) ==>
              var ms := store[i].milestones;
              if 0 <= index < |ms| then
                r == store[i := store[i].(milestones := ms[index := ms[index].(proofUrls := ms[index].proofUrls + [UploadUrl(fileName)])],
                                          updatedAt := now)]
              else r == store
  {
    var i := FirstIndex(store, MockIdIs(id));
    if i == -1 then
      assert forall k :: 0 <= k < |store| ==> store[k] in store;
      store
    else
      assert FirstWithMockId(store, id, i);
      var ms := store[i].milestones;
      if 0 <= index < |ms| then
        var m := ms[index];
        store[i := store[i].(milestones := ms[index := m.(proofUrls := m.proofUrls + [UploadUrl(fileName)])], updatedAt := now)]
      else store
  }

  /** A mock verification: the project as stored afterwards and the
      milestone at the index, if there is one. */
  datatype Verification = Verification(store: seq<MockProject>, project: MockProject, milestone: Option<MockMilestone>)

  /** The mock branch of `verifyMilestone`: throws for an unknown project; an
      existing milestone is marked verified exactly when the action is
      `approve` and gets the comments; a missing index changes nothing. */
  function MockVerify(store: seq<MockProject>, id: string, index: int, action: string, comments: string, now: int)
    : (r: Result<Verification, string>)
    ensures r.Err? <==> forall p :: p in store ==> p.id != id
    ensures r.Err? ==> r.error == ProjectNotFound
    ensures r.Ok? ==> exists i :: (FirstWithMockId(store, id, i)
              && var ms := store[i].milestones;
                 if 0 <= index < |ms| then
                   && r.value.milestone == Some(ms[index].(verified := action == "approve", auditorComments := Some(comments)))
                   && r.value.store == store[i := store[i].(milestones := ms[index := r.value.milestone.value], updatedAt := now)]
                   && r.value.project == r.value.store[i]
                 else
                   r.value.milestone.None? && r.value.store == store && r.value.project == store[i])
  {
    var i := FirstIndex(store, MockIdIs(id));
    if i == -1 then Err(ProjectNotFound)
    else
      assert FirstWithMockId(store, id, i) && store[i] in store;
      var ms := store[i].milestones;
      if 0 <= index < |ms| then
        var m := ms[index].(verified := action == "approve", auditorComments := Some(comments));
        var p := store[i].(milestones := ms[index := m], updatedAt := now);
        Ok(Verification(store[i := p], p, Some(m)))
      else Ok(Verification(store, store[i], None))
  }

  /** The receipt the mock branch of `verifyTransactionOnChain` returns. */
  datatype Receipt = Receipt(status: string, transactionHash: string, blockNumber: nat, gasUsed: string)

  // ---------------------------------------------------------------------
  // The module state: the two flags, the store and the id counter
  // ---------------------------------------------------------------------

  class ApiClient {
    var useMock: bool
    var mockMode: bool
    var store: seq<MockProject>
    var nextProjectId: nat

    ghost predicate Valid()
      reads this
    {
      IdsFresh(store, nextProjectId)
    }

    constructor ()
      ensures !useMock && !mockMode
      ensures store == MockProjects && nextProjectId == 7
      ensures Valid()
    {
      useMock := false;
      mockMode := false;
      store := MockProjects;
      nextProjectId := |MockProjects| + 1;
      SeedIdsFresh();
    }

    /** Mock mode is on when the backend is offline or mocking was chosen. */
    method InitializeApiMode(online: bool) returns (r: bool)
      modifies this`mockMode
      ensures mockMode == (!online || useMock) && r == mockMode
    {
      mockMode := !online || useMock;
      r := mockMode;
    }

    method IsMockMode() returns (r: bool)
      ensures r == mockMode
    {
      r := mockMode;
    }

    /** Flips the choice and makes the mode follow it, so two toggles in a
        row restore both flags to the choice before them. */
    method ToggleMockMode()
      modifies this`useMock, this`mockMode
      ensures useMock == !old(useMock) && mockMode == useMock
    {
      useMock := !useMock;
      mockMode := useMock;
    }

    method FetchProjects(filter: Option<string>, remote: Remote) returns (r: Served<seq<MockProject>>)
      modifies this`mockMode
      ensures mockMode == (old(mockMode) || remote.Down?)
      ensures mockMode ==> r == FromMock(MockList(store, filter))
      ensures !mockMode ==> r == FromBackend(remote.body)
      decreases if mockMode then 0 else 1
    {
      if mockMode {
        return FromMock(MockList(store, filter));
      }
      match remote
      case Up(body) =>
        return FromBackend(body);
      case Down(_) =>
        mockMode := true;
        r := FetchProjects(filter, remote);
    }

    method CreateProject(data: ProjectData, remote: Remote, now: int) returns (r: Served<MockProject>)
      requires Valid()
      modifies this`mockMode, this`store, this`nextProjectId
      ensures Valid()
      ensures mockMode == (old(mockMode) || remote.Down?)
      ensures mockMode ==>
                && r == FromMock(NewMockProject(data, old(nextProjectId), now))
                && store == [r.value] + old(store)
                && nextProjectId == old(nextProjectId) + 1
      ensures !mockMode ==>
                r == FromBackend(remote.body) && store == old(store) && nextProjectId == old(nextProjectId)
      decreases if mockMode then 0 else 1
    {
      if mockMode {
        var p := NewMockProject(data, nextProjectId, now);
        PrependKeepsIdsFresh(store, nextProjectId, p);
        nextProjectId := nextProjectId + 1;
        store := [p] + store;
        return FromMock(p);
      }
      match remote
      case Up(body) =>
        return FromBackend(body);
      case Down(_) =>
        mockMode := true;
        r := CreateProject(data, remote, now);
    }

    method UpdateProject(id: string, patch: Patch, remote: Remote, now: int) returns (r: Served<MockProject>)
      requires Valid()
      modifies this`mockMode, this`store
      ensures Valid()
      ensures mockMode == (old(mockMode) || remote.Down?)
      ensures mockMode ==>
                var u := MockUpdate(old(store), id, patch, now);
                && (u.Ok? ==> r == FromMock(u.value.project) && store == u.value.store)
                && (u.Err? ==> r == Threw(u.error) && store == old(store))
      ensures !mockMode ==> r == FromBackend(remote.body) && store == old(store)
      decreases if mockMode then 0 else 1
    {
      if mockMode {
        var u := MockUpdate(store, id, patch, now);
        if u.Err? {
          return Threw(u.error);
        }
        UpdateKeepsIdsFresh(store, nextProjectId, id, patch, now);
        store := u.value.store;
        return FromMock(u.value.project);
      }
      match remote
      case Up(body) =>
        return FromBackend(body);
      case Down(_) =>
        mockMode := true;
        r := UpdateProject(id, patch, remote, now);
    }

    /** In mock mode the file's URL is returned whether or not the project
        and milestone exist. */
    method UploadMilestoneProof(id: string, index: int, fileName: string, remote: Remote, now: int)
      returns (r: Served<string>)
      requires Valid()
      modifies this`mockMode, this`store
      ensures Valid()
      ensures mockMode == (old(mockMode) || remote.Down?)
      ensures mockMode ==> r == FromMock(UploadUrl(fileName)) && store == MockUpload(old(store), id, index, fileName, now)
      ensures !mockMode ==> r == FromBackend(remote.body) && store == old(store)
      decreases if mockMode then 0 else 1
    {
      if mockMode {
        var after := MockUpload(store, id, index, fileName, now);
        assert forall i :: 0 <= i < |after| ==> after[i].id == store[i].id by {
          var i := FirstIndex(store, MockIdIs(id));
          if i != -1 {
            assert FirstWithMockId(store, id, i);
          }
        }
        store := after;
        return FromMock(UploadUrl(fileName));
      }
      match remote
      case Up(body) =>
        return FromBackend(body);
      case Down(_) =>
        mockMode := true;
        r := UploadMilestoneProof(id, index, fileName, remote, now);
    }

    method VerifyMilestone(id: string, index: int, action: string, comments: string, remote: Remote, now: int)
      returns (r: Served<(MockProject, Option<MockMilestone>)>)
      requires Valid()
      modifies this`mockMode, this`store
      ensures Valid()
      ensures mockMode == (old(mockMode) || remote.Down?)
      ensures mockMode ==>
                var v := MockVerify(old(store), id, index, action, comments, now);
                && (v.Ok? ==> r == FromMock((v.value.project, v.value.milestone)) && store == v.value.store)
                && (v.Err? ==> r == Threw(v.error) && store == old(store))
      ensures !mockMode ==> r == FromBackend(remote.body) && store == old(store)
      decreases if mockMode then 0 else 1
    {
      if mockMode {
        var v := MockVerify(store, id, index, action, comments, now);
        if v.Err? {
          return Threw(v.error);
        }
        assert forall i :: 0 <= i < |v.value.store| ==> v.value.store[i].id == store[i].id;
        store := v.value.store;
        return FromMock((v.value.project, v.value.milestone));
      }
      match remote
      case Up(body) =>
        return FromBackend(body);
      case Down(_) =>
        mockMode := true;
        r := VerifyMilestone(id, index, action, comments, remote, now);
    }

    /** Unlike the other operations, a failed on-chain check is rethrown and
        does not switch to mock mode. The block number of the mock receipt is
        the random draw `draw`, below one million. */
    method VerifyTransactionOnChain(txHash: string, remote: Remote, draw: nat) returns (r: Served<Receipt>)
      requires draw < 1000000
      ensures mockMode ==> r == FromMock(Receipt("confirmed", txHash, draw, "21000"))
      ensures !mockMode && remote.Up? ==> r == FromBackend(remote.body)
      ensures !mockMode && remote.Down? ==> r == Threw(remote.reason)
    {
      if mockMode {
        return FromMock(Receipt("confirmed", txHash, draw, "21000"));
      }
      match remote
      case Up(body) =>
        return FromBackend(body);
      case Down(reason) =>
        return Threw(reason);
    }
  }
}
