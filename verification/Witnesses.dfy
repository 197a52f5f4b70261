/** One concrete state or run for every property that does not hold without its condition. */
module Witnesses {
  import opened Amounts
  import opened Models
  import opened Placement
  import opened Store
  import opened App
  import opened AppInv
  import opened AppSteps
  import C = Conservation
  import L = Ledger
  import P = Phases
  import Projects
  import Review
  import ReviewRuns
  import Tags
  import Text
  import Users
  import Y = Yaml
  import YamlKeys
  import YamlProofs

  // ----- a ledger with one node and two reservations

  const BIG := Amount(1000, GI, 10 * GI)
  const SMALL := Amount(100, GI, 10 * GI)
  const NODE := Node(1, "n1", "amd64", "worker", "mains", "p2p", true, Healthy, Amount(8000, 8 * GI, 80 * GI), ZERO, 0, "self", "", [])
  const PROJECT := Project(ZERO, true)
  const FIRST := Allocation(2, 9, 1, BIG, "amd64", Reserved)
  const SECOND := Allocation(3, 9, 1, BIG, "amd64", Reserved)
  const OWNER := Actor(5, false, Some(RANK_OWNER))
  const DEVELOPER := Actor(6, false, Some(RANK_DEVELOPER))
  const ADMIN := Actor(4, true, None)

  function WithNode(): State { State(map[1 := NODE], map["n1" := 1], map[], map[], [], map[9 := PROJECT]) }

  function OneReserved(): State { WithNode().(nodes := map[1 := NODE.(used := BIG)], allocs := map[2 := FIRST]) }

  function TwoReserved(): State { WithNode().(nodes := map[1 := NODE.(used := BIG.Plus(BIG))], allocs := map[2 := FIRST, 3 := SECOND]) }

  /** They come about by the store's own steps from the empty store with one project. */
  lemma StoreGetsThere()
    ensures WithNode() == EMPTY.(projects := map[9 := PROJECT]).Upsert(NODE)
    ensures WithNode().ReserveOnNode(1, FIRST) == (OneReserved(), Done)
    ensures OneReserved().ReserveOnNode(1, SECOND) == (TwoReserved(), Done)
  {
    assert WithNode().Take(1, FIRST).nodes == OneReserved().nodes && WithNode().Take(1, FIRST).allocs == OneReserved().allocs;
    assert OneReserved().Take(1, SECOND).nodes == TwoReserved().nodes && OneReserved().Take(1, SECOND).allocs == TwoReserved().allocs;
  }

  lemma NodeIsThere()
    ensures Inv(WithNode())
  {
    var s := EMPTY.(projects := map[9 := PROJECT]);
    EmptyInv();
    ConservedIgnores(EMPTY, s);
    LedgerMoveKeepsInv(EMPTY, s);
    UpsertKeepsInv(s, NODE);
    StoreGetsThere();
  }

  lemma ReservingKeepsInv(s: State, node: Id, a: Allocation, t: State)
    requires Inv(s) && s.ReserveOnNode(node, a) == (t, Done) && a.size.NonNegative() && a.id != NIL && a.id !in s.allocs
    requires s.workspaces == map[]
    ensures Inv(t)
  {
    TakeKeepsInv(s, node, a);
    hide Inv;
  }

  lemma BothAreReserved()
    ensures Inv(OneReserved()) && Inv(TwoReserved())
  {
    hide Inv, State.ReserveOnNode;
    NodeIsThere();
    StoreGetsThere();
    ReservingKeepsInv(WithNode(), 1, FIRST, OneReserved());
    ReservingKeepsInv(OneReserved(), 1, SECOND, TwoReserved());
  }

  lemma BothAreConserved()
    ensures C.Conserved(OneReserved()) && C.Conserved(TwoReserved())
  {
    BothAreReserved();
    InvConserves(OneReserved());
    InvConserves(TwoReserved());
    hide Inv;
  }

  /** Shrinking the first reservation by more than it has leaves the node counting less than its allocations hold. */
  lemma OverShrinkWitness()
    ensures var d := Amount(-1500, 0, 0);
            && C.Conserved(TwoReserved()) && TwoReserved().Expand(2, d).1 == Done && !C.Conserved(TwoReserved().Expand(2, d).0)
  {
    hide C.Conserved;
    BothAreConserved();
    C.ExpandConservesExactly(TwoReserved(), 2, Amount(-1500, 0, 0));
  }

  /** A node read before it was deleted, and written back afterwards, brings back what it counted. */
  lemma ResurrectedSnapshotWitness()
    ensures var snapshot := OneReserved().nodes[1];
            var (s, r) := OneReserved().Release(2).0.DeleteNode(1);
            C.Conserved(OneReserved()) && r == Done && C.Conserved(s) && !C.Conserved(s.Upsert(snapshot))
  {
    hide C.Conserved;
    BothAreConserved();
    var s := OneReserved();
    C.ReleaseConserves(s, 2);
    C.DeleteNodeConserves(s.Release(2).0, 1);
    ReleaseAndDelete();
    hide State.Release, State.DeleteNode;
    C.ResurrectedSnapshotBreaksBalance(s.Release(2).0.DeleteNode(1).0, s.nodes[1]);
  }

  lemma ReleaseAndDelete()
    ensures var (s, r) := OneReserved().Release(2).0.DeleteNode(1);
            r == Done && s.nodes == map[] && s.byName == map[]
  {
    assert OneReserved().Release(2).0 == WithNode().(allocs := map[2 := FIRST.(state := Released)]);
  }

  /** Deleting the project drops both reservations, and the node goes on counting them. */
  lemma DropProjectWitness()
    ensures C.Conserved(TwoReserved()) && !C.Conserved(Projects.DropProject(TwoReserved(), 9).0)
  {
    BothAreConserved();
    var s := TwoReserved();
    assert s.allocs[2].Live() && s.allocs[2].project == 9 && s.allocs[2].size != ZERO;
    Projects.DropConservesExactly(s, 9);
    hide C.Conserved;
  }

  /** A probe for the empty architecture finds nothing, one for any architecture finds the node. */
  lemma EmptyArchWitness()
    ensures Fits(WithNode().nodes, Query("", BIG, false)) == 0 < Fits(WithNode().nodes, Query(ARCH_ANY, BIG, false))
  {
    var nodes := WithNode().nodes;
    assert Candidate(nodes[1], Query(ARCH_ANY, BIG, false));
    L.EmptyArchProbe(nodes, Query("", BIG, false));
    FitsCountsCandidates(nodes, Query(ARCH_ANY, BIG, false));
    hide Fits;
  }

  // ----- workspaces

  function Ws(st: Status, alloc: Id): Workspace {
    Workspace(9, "w", "custom", "amd64", false, 5, if alloc == NIL then NIL else 1, alloc, st, BIG, ZERO, false, NoKind, 0, 0, 0, 0)
  }

  /** Workspace 7 runs on the first reservation; the second belongs to somebody else. */
  function Running7(): State { TwoReserved().PutWorkspace(7, Ws(Running, 2)) }

  function Shrinking7(): World {
    World(Running7().PutWorkspace(7, Ws(Running, 2).(pending := SMALL, resizePending := true, resizeKind := Downgrade)), map[])
  }

  lemma BigIsValid()
    ensures ValidSpec(BIG) && ValidSpec(SMALL) && ClassifyResize(BIG, SMALL) == (Downgrade, Done)
  {}

  lemma Shrinking7IsInv()
    ensures Inv(Running7()) && Inv(Shrinking7().db)
  {
    hide Inv, ValidSpec, ClassifyResize;
    BothAreReserved();
    BigIsValid();
    NewOwnerKeepsInv(TwoReserved(), 7, Ws(Running, 2));
    PutKeepsInv(Running7(), 7, Shrinking7().db.workspaces[7]);
    assert Running7().PutWorkspace(7, Shrinking7().db.workspaces[7]) == Shrinking7().db;
  }

  /** The first shrink, and what is left for the second. */
  lemma ShrunkOnce()
    ensures var s := Shrinking7().db;
            var (t, r) := s.Expand(2, Amount(-900, 0, 0));
            && r == Done && t.Live(2) && t.allocs[2].size == SMALL && t.nodes == map[1 := NODE.(used := BIG.Plus(SMALL))]
            && t.allocs[2].node == 1
            && var (u, q) := t.Expand(2, Amount(-900, 0, 0)); q == Done && u.allocs[2].size != BIG
  {}

  lemma ShrunkTwice()
    requires C.Conserved(Shrinking7().db)
    ensures !C.Conserved(Shrinking7().db.Expand(2, Amount(-900, 0, 0)).0.Expand(2, Amount(-900, 0, 0)).0)
  {
    ShrunkOnce();
    hide C.Conserved, State.Expand;
    var s, d := Shrinking7().db, Amount(-900, 0, 0);
    C.ExpandConserves(s, 2, d);
    C.ExpandConservesExactly(s.Expand(2, d).0, 2, d);
  }

  lemma DowngradeFails()
    ensures var s, d := Shrinking7().db, Amount(-900, 0, 0);
            ApproveResize(Shrinking7(), 7, OWNER, false, 0) == (Shrinking7().(db := s.Expand(2, d).0.Expand(2, d).0), Fail(ErrRuntime))
  {
    ShrunkOnce();
    hide State.Expand, CheckBudget;
    var w := Shrinking7().db.workspaces[7];
    assert w.Spec().size == BIG && w.pending.Minus(BIG) == Amount(-900, 0, 0) && EffectiveKind(w) == Downgrade;
  }

  /** The runtime has no instance: the downgrade fails after shrinking the allocation twice, past zero. */
  lemma FailedDowngradeWitness()
    ensures var (y, r) := ApproveResize(Shrinking7(), 7, OWNER, false, 0);
            Inv(Shrinking7().db) && r == Fail(ErrRuntime) && y != Shrinking7() && !C.Conserved(y.db)
  {
    Shrinking7IsInv();
    InvConserves(Shrinking7().db);
    hide Inv, C.Conserved, ApproveResize, State.Expand;
    DowngradeFails();
    ShrunkTwice();
  }

  /** The owner deletes the project: the workspace is only asked to go, and its usage is never given back. */
  lemma OwnerDeletionWitness()
    ensures var (y, r) := DestroyWorkspace(World(Running7(), map[]), 7, OWNER, 0);
            Inv(Running7()) && r == Done && !C.Conserved(Projects.DropProject(y.db, 9).0)
  {
    Shrinking7IsInv();
    hide Inv, C.Conserved;
    Projects.OwnerDeletionLosesUsage(World(Running7(), map[]), 9, 7, OWNER, 0);
  }

  // ----- destroy reviews

  const EXEC := Entry(7, None, "ssh.exec", None)

  /** Workspace 7 before it is asked to go; without an allocation it has no instance either. */
  function Asked7(st: Status, alloc: Id): World {
    World(TwoReserved().PutWorkspace(7, Ws(st, alloc)), if alloc == NIL then map[] else map[7 := true])
  }

  /** After the request, i commands in the workspace have been logged. */
  ghost function Busy(x: World, i: nat): World { if i == 0 then x else Do(Busy(x, i - 1), OpLog(EXEC), 0) }

  lemma {:induction false} BusyLogs(x: World, i: nat)
    ensures Busy(x, i) == x.(db := x.db.(audit := Busy(x, i).db.audit))
    ensures Review.Newer(Busy(x, i).db.audit, 7) == Review.Newer(x.db.audit, 7) + i
  {
    if i > 0 {
      BusyLogs(x, i - 1);
      Review.OriginOfAppended(Busy(x, i - 1).db.audit, EXEC, 7);
      hide Review.Newer;
    }
  }

  lemma AskedEnters(st: Status, alloc: Id)
    requires st in {FabricDegraded, Requested}
    ensures var y := Do(Asked7(st, alloc), OpRequestDestroy(7, DEVELOPER), 0);
            && ReviewRuns.UnderReview(y, 7) && y.db.workspaces[7].alloc == alloc && y.db.allocs == TwoReserved().allocs
            && y.db.audit == [Entry(7, None, DESTROY_REQUEST, Some(st))] && y.db.workspaces[7].status == DestroyRequested
  {
    hide ExecuteDestroy;
  }

  const ASK := OpRequestDestroy(7, DEVELOPER)

  /** The request, and n commands. */
  ghost function BusyRun(x: World, n: nat): seq<World> { [x] + seq(n + 1, i requires 0 <= i <= n => Busy(Do(x, ASK, 0), i)) }

  function BusyCalls(n: nat): seq<Call> { [Call(ASK, 0)] + seq(n, i requires 0 <= i < n => Call(OpLog(EXEC), 0)) }

  lemma BusyIsRun(x: World, n: nat)
    ensures Run(BusyRun(x, n), BusyCalls(n))
  {
    hide Do;
    var run, calls := BusyRun(x, n), BusyCalls(n);
    forall i | 0 <= i < n + 1 ensures StepAt(run, calls, i) {
      if i > 0 {
        assert run[i] == Busy(Do(x, ASK, 0), i - 1) && calls[i] == Call(OpLog(EXEC), 0);
      }
    }
  }

  /** Eighty commands later a degraded workspace's review is rejected into running. */
  lemma LongReviewWitness()
    ensures var run, calls := BusyRun(Asked7(FabricDegraded, 2), 80), BusyCalls(80);
            && Run(run, calls) && (forall i :: 0 < i <= 81 ==> ReviewRuns.UnderReview(run[i], 7))
            && RestoredStatus(run[81].db, 7) == Running
  {
    var x := Asked7(FabricDegraded, 2);
    var y := Do(x, ASK, 0);
    AskedEnters(FabricDegraded, 2);
    BusyIsRun(x, 80);
    hide Do, Run;
    forall i: nat | i <= 80 ensures ReviewRuns.UnderReview(Busy(y, i), 7) {
      BusyLogs(y, i);
    }
    BusyLogs(y, 80);
    hide Busy, RestoredStatus, Review.HasRequest, Review.Newer;
    Review.RestoredFromLog(Busy(y, 80).db, 7);
  }

  /** A workspace nobody had approved comes back running, without an allocation, when its review is rejected. */
  lemma UnrestorableWitness()
    ensures var x := Asked7(Requested, NIL);
            var y := Do(x, OpRequestDestroy(7, DEVELOPER), 0);
            var z := Do(y, OpRejectDestroyProject(7, OWNER), 0);
            && ReviewRuns.UnderReview(y, 7) && z.db.workspaces[7].status == Running && !z.db.Live(z.db.workspaces[7].alloc)
  {
    var x := Asked7(Requested, NIL);
    var y := Do(x, OpRequestDestroy(7, DEVELOPER), 0);
    AskedEnters(Requested, NIL);
    ComesBackRunning(y);
    OneStepRun(x, Call(OpRequestDestroy(7, DEVELOPER), 0));
    hide Do, RestoredStatus;
    ReviewRuns.UnrestorableComesBackRunning([x, y], [Call(OpRequestDestroy(7, DEVELOPER), 0)], 0, 1, 7);
  }

  lemma OneStepRun(x: World, c: Call)
    requires Legal(x, c.op)
    ensures Run([x, Do(x, c.op, c.now)], [c])
  {
    hide Do, Legal;
    assert StepAt([x, Do(x, c.op, c.now)], [c], 0);
  }

  lemma ComesBackRunning(y: World)
    requires 7 in y.db.workspaces && y.db.workspaces[7].status == DestroyRequested
    ensures var z := Do(y, OpRejectDestroyProject(7, OWNER), 0);
            && 7 in z.db.workspaces && z.db.workspaces[7].status == RestoredStatus(y.db, 7)
            && z.db.workspaces[7].alloc == y.db.workspaces[7].alloc && z.db.allocs == y.db.allocs
  {
    hide RestoredStatus;
  }

  // ----- tags

  /** What a node's first heartbeat sends is stored as it comes: here one tag that is not in canonical form. */
  const RAW := ["GPU"]

  lemma RawTagWitness()
    ensures WithNode().Upsert(NODE.(id := 10, name := "n2", tags := RAW)).nodes[10].tags == RAW
    ensures !(RAW <= Tags.HeartbeatTags(RAW, []))
    ensures Tags.HeartbeatTags([" "], []) == [] != Tags.AfterHeartbeat([" "], [])
  {
    Tags.StoredTagsStayPrefix(RAW, []);
    RawIsNotCanonical();
    BlankFolds();
    Tags.DoubleMergeIsSingle([" "], []);
    hide Tags.AfterHeartbeat, Tags.HeartbeatTags, Tags.Canonical;
  }

  lemma RawIsNotCanonical()
    ensures !Tags.Canonical(RAW)
  {
    var low := Text.Lower("GPU");
    assert low[0] == 'g' && low[2] == 'u';
    Text.TrimmedIsFixed(low);
    assert Text.Canon(RAW[0])[0] != RAW[0][0];
  }

  lemma BlankFolds()
    ensures Tags.HeartbeatTags([" "], []) == []
  {
    assert Text.Lower(" ") == " ";
    assert Text.Canon(" ") == "";
    assert [" "] + [] == [" "] && [" "][1..] == [];
    assert Tags.Accept([], " ") == [];
  }

  // ----- users

  function TwoUsers(): Users.Table {
    Users.Table(map[], map[], map[]).Create(1, Users.User("a", "a@x")).0.Create(2, Users.User("b", "b@x")).0
  }

  /** User 1 asks for user 2's name and a new address: the address has moved when the name is refused. */
  lemma HalfDoneWitness()
    ensures var (t, r) := TwoUsers().Update(1, Users.User("b", "c@x"));
            Users.Indexed(TwoUsers()) && r == Fail(ErrConflict) && !Users.Indexed(t)
  {
    var none := Users.Table(map[], map[], map[]);
    LowFixed();
    Users.CreateKeepsIndex(none, 1, Users.User("a", "a@x"));
    Users.CreateKeepsIndex(none.Create(1, Users.User("a", "a@x")).0, 2, Users.User("b", "b@x"));
    hide Users.Low, Users.Indexed;
    assert Users.HalfDone(TwoUsers(), 1, Users.User("b", "c@x"));
    Users.HalfDoneBreaks(TwoUsers(), 1, Users.User("b", "c@x"));
  }

  lemma LowFixed()
    ensures Users.Low("a") == "a" && Users.Low("b") == "b" && Users.Low("a@x") == "a@x" && Users.Low("b@x") == "b@x" && Users.Low("c@x") == "c@x"
  {}

  // ----- approvals and manifests

  lemma NoPhaseWitness()
    ensures P.CanProjectApprove(P.NoPhase, P.WorkspaceDestroy) && !P.Edge(P.WorkspaceDestroy, P.NoPhase, P.PendingPlatform)
  {}

  /** A pod whose metadata names two namespaces. */
  function TwoNamespaces(): Y.Tree {
    Y.Tree(Y.Mapping, "!!map", "", [
      Y.Str("kind"), Y.Str("ConfigMap"), Y.Str("metadata"),
      Y.Tree(Y.Mapping, "!!map", "", [Y.Str("name"), Y.Str("a"), Y.Str("namespace"), Y.Str("b"), Y.Str("namespace"), Y.Str("c")])])
  }

  /** The second one stays. */
  lemma TwoNamespacesWitness()
    ensures Y.Paired(TwoNamespaces()) && Y.Sanitize(TwoNamespaces(), "b").Sanitized?
    ensures !YamlKeys.EverywhereIn(Y.Sanitize(TwoNamespaces(), "b").tree, "b")
  {
    var m := TwoNamespaces();
    TwoNamespacesRead();
    assert YamlKeys.Under(m, "metadata", 3) && YamlKeys.Under(m.kids[3], "namespace", 5) && !YamlKeys.First(m, 3, 5);
    Text.TrimmedIsFixed("b");
    Text.TrimmedIsFixed("c");
    assert !YamlKeys.Says(m.kids[3].kids[5], "b");
    YamlKeys.EveryNamespaceIsForced(m, "b");
    hide Y.Sanitize;
  }

  lemma TwoNamespacesRead()
    ensures var m := TwoNamespaces();
            && Y.Paired(m) && Y.Sanitize(m, "b").Sanitized? && Y.Lookup(m, "metadata", Some(Y.Mapping)) == Some(3)
            && Y.Lookup(m.kids[3], "namespace", None) == Some(3)
  {
    var m := TwoNamespaces();
    var meta := m.kids[3];
    assert Y.Find(m.kids, "kind", None, 0) == Some(1);
    assert Y.Find(m.kids, "metadata", Some(Y.Mapping), 2) == Some(3);
    assert Y.Find(meta.kids, "name", None, 0) == Some(1);
    assert Y.Find(meta.kids, "namespace", None, 2) == Some(3);
    Text.TrimmedIsFixed("ConfigMap");
    Text.TrimmedIsFixed("a");
    assert Text.Lower("ConfigMap") !in Y.CLUSTER_KINDS by {
      KindIsPlain();
    }
  }

  lemma KindIsPlain()
    ensures Text.Lower("ConfigMap") == "configmap" && "configmap" !in Y.CLUSTER_KINDS
  {}
}
