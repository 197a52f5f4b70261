/**
 What every operation keeps: the ledger is balanced, an allocation has one owner, and the owner's size is exactly
 what its live allocation holds. This is what keeps the ledger's clamps out of reach during resizes.
 */
module AppInv {
  import opened Amounts
  import opened Models
  import opened Placement
  import opened Store
  import opened App
  import R = Review
  import C = Conservation

  // ----- what the store's steps leave alone

  function WithState(allocs: map<Id, Allocation>, a: Id, st: AllocState): map<Id, Allocation> {
    if a in allocs then allocs[a := allocs[a].(state := st)] else allocs
  }

  lemma ReleaseEffect(s: State, a: Id)
    ensures var t := s.Release(a).0; t == s.(nodes := t.nodes, allocs := WithState(s.allocs, a, Released))
  {}

  lemma ActivateEffect(s: State, a: Id)
    ensures var t := s.Activate(a).0; t == s.(allocs := if s.Live(a) then WithState(s.allocs, a, Active) else s.allocs)
  {}

  lemma ExpandEffect(s: State, a: Id, d: Amount)
    requires s.Expand(a, d).1 == Done
    ensures var t := s.Expand(a, d).0;
            s.Live(a) && t == s.(nodes := t.nodes, allocs := s.allocs[a := s.allocs[a].(size := s.allocs[a].size.Plus(d).Floored())])
  {}

  lemma TakeEffect(s: State, node: Id, a: Allocation)
    requires node in s.nodes
    ensures var t := s.Take(node, a);
            t == s.(nodes := t.nodes, allocs := s.allocs[a.id := a.(node := node, state := Reserved)]) && t.nodes.Keys == s.nodes.Keys
  {}

  lemma DeleteNodeEffect(s: State, node: Id)
    ensures var t := s.DeleteNode(node).0;
            && t == s.(nodes := t.nodes, byName := t.byName, allocs := t.allocs)
            && (forall a :: a in t.allocs ==> a in s.allocs && t.allocs[a] == s.allocs[a])
            && (forall a :: s.Live(a) ==> a in t.allocs)
  {}

  ghost predicate OneOwner(workspaces: map<Id, Workspace>) {
    forall i, j :: i in workspaces && j in workspaces && i != j && workspaces[i].alloc != NIL
                   ==> workspaces[i].alloc != workspaces[j].alloc
  }

  ghost predicate AllOk(db: State) { forall id :: id in db.workspaces ==> WsOk(db, id, db.workspaces[id]) }

  ghost predicate WsOk(db: State, id: Id, w: Workspace) {
    && ValidSpec(w.size)
    && (w.status.Unbudgeted() ==> !db.Live(w.alloc))
    && (w.status == Requested ==> w.alloc == NIL && !w.resizePending)
    && (db.Live(w.alloc) ==> db.allocs[w.alloc].size == w.size && db.allocs[w.alloc].project == w.project)
    && (w.resizePending ==> ValidSpec(w.pending) && ClassifyResize(w.size, w.pending) == (w.resizeKind, Done))
    && (w.status.ReviewInFlight() && R.Origin(db.audit, id) == Some(Failed) ==> !db.Live(w.alloc))
  }

  ghost predicate Inv(db: State) {
    && C.Conserved(db)
    && NIL !in db.allocs
    && OneOwner(db.workspaces)
    && AllOk(db)
  }

  lemma EmptyInv()
    ensures Inv(EMPTY)
  {}

  /** The live allocations of t are live in s and have kept project and size. */
  ghost predicate LiveShrinks(s: State, t: State) {
    forall a :: t.Live(a) ==> s.Live(a) && t.allocs[a].size == s.allocs[a].size && t.allocs[a].project == s.allocs[a].project
  }

  lemma WsOkCarries(s: State, t: State, id: Id, w: Workspace)
    requires WsOk(s, id, w) && LiveShrinks(s, t) && R.Origin(t.audit, id) == R.Origin(s.audit, id)
    ensures WsOk(t, id, w)
  {}

  lemma WsOkSameAlloc(s: State, t: State, id: Id, w: Workspace)
    requires WsOk(s, id, w) && t.audit == s.audit && (w.alloc in s.allocs <==> w.alloc in t.allocs)
    requires w.alloc in s.allocs ==> t.allocs[w.alloc] == s.allocs[w.alloc]
    ensures WsOk(t, id, w)
  {}

  lemma ReleaseShrinks(s: State, a: Id)
    ensures !s.Release(a).0.Live(a) && LiveShrinks(s, s.Release(a).0)
  {
    ReleaseEffect(s, a);
    hide State.Release;
  }

  lemma ActivateShrinks(s: State, a: Id)
    ensures LiveShrinks(s, s.Activate(a).0)
  {
    ActivateEffect(s, a);
    hide State.Activate;
  }

  /** The ledger part of the state moves on, the workspaces stay. */
  lemma LedgerMoveKeepsInv(s: State, t: State)
    requires Inv(s) && C.Conserved(t) && NIL !in t.allocs && t.workspaces == s.workspaces && LiveShrinks(s, t)
    requires forall id :: R.Origin(t.audit, id) == R.Origin(s.audit, id)
    ensures Inv(t)
  {
    hide C.Conserved, LiveShrinks;
    forall id | id in t.workspaces ensures WsOk(t, id, t.workspaces[id]) {
      WsOkCarries(s, t, id, s.workspaces[id]);
    }
  }

  /** Conservation reads neither workspaces nor the log. */
  lemma ConservedIgnores(s: State, t: State)
    requires C.Conserved(s) && t.nodes == s.nodes && t.byName == s.byName && t.allocs == s.allocs
    ensures C.Conserved(t)
  {
    hide C.Load;
  }

  lemma PutKeepsInv(s: State, id: Id, w: Workspace)
    requires Inv(s) && id in s.workspaces && w.alloc == s.workspaces[id].alloc && WsOk(s, id, w)
    ensures Inv(s.PutWorkspace(id, w))
  {
    var t := s.PutWorkspace(id, w);
    ConservedIgnores(s, t);
    hide C.Conserved;
    forall j | j in t.workspaces ensures WsOk(t, j, t.workspaces[j]) {
      WsOkCarries(s, t, j, t.workspaces[j]);
    }
  }

  lemma AuditKeepsInv(s: State, e: Entry)
    requires Inv(s) && e.action != DESTROY_REQUEST
    ensures Inv(s.AddAudit(e))
  {
    ConservedIgnores(s, s.AddAudit(e));
    forall id ensures R.Origin(s.AddAudit(e).audit, id) == R.Origin(s.audit, id) {
      R.OriginOfAppended(s.audit, e, id);
    }
    hide C.Conserved;
    LedgerMoveKeepsInv(s, s.AddAudit(e));
  }

  lemma ReleaseKeepsInv(s: State, a: Id)
    requires Inv(s)
    ensures Inv(s.Release(a).0) && !s.Release(a).0.Live(a) && LiveShrinks(s, s.Release(a).0)
  {
    C.ReleaseConserves(s, a);
    ReleaseEffect(s, a);
    ReleaseShrinks(s, a);
    hide C.Conserved, State.Release, LiveShrinks, OneOwner, WsOk;
    LedgerMoveKeepsInv(s, s.Release(a).0);
  }

  lemma ActivateKeepsInv(s: State, a: Id)
    requires Inv(s)
    ensures Inv(s.Activate(a).0) && LiveShrinks(s, s.Activate(a).0)
  {
    C.ActivateConserves(s, a);
    ActivateEffect(s, a);
    ActivateShrinks(s, a);
    hide C.Conserved, State.Activate, LiveShrinks, OneOwner, WsOk;
    LedgerMoveKeepsInv(s, s.Activate(a).0);
  }

  lemma UpsertKeepsInv(s: State, n: Node)
    requires Inv(s) && C.Legal(s, C.Upsert(n))
    ensures Inv(s.Upsert(n))
  {
    C.StepConserves(s, C.Upsert(n));
    hide C.Conserved;
    LedgerMoveKeepsInv(s, s.Upsert(n));
  }

  lemma DeleteNodeKeepsInv(s: State, node: Id)
    requires Inv(s)
    ensures Inv(s.DeleteNode(node).0)
  {
    C.DeleteNodeConserves(s, node);
    DeleteNodeEffect(s, node);
    hide C.Conserved, State.DeleteNode;
    LedgerMoveKeepsInv(s, s.DeleteNode(node).0);
  }

  lemma TakeKeepsAllOk(s: State, node: Id, a: Allocation)
    requires AllOk(s) && node in s.nodes && forall id :: id in s.workspaces ==> s.workspaces[id].alloc != a.id
    ensures AllOk(s.Take(node, a))
  {
    var t := s.Take(node, a);
    TakeEffect(s, node, a);
    hide State.Take, WsOk;
    forall id | id in t.workspaces ensures WsOk(t, id, t.workspaces[id]) {
      WsOkSameAlloc(s, t, id, s.workspaces[id]);
    }
  }

  /** A reservation nobody owns yet. */
  lemma TakeKeepsInv(s: State, node: Id, a: Allocation)
    requires Inv(s) && node in s.nodes && a.size.NonNegative() && a.id != NIL && a.id !in s.allocs
    requires forall id :: id in s.workspaces ==> s.workspaces[id].alloc != a.id
    ensures Inv(s.Take(node, a))
  {
    C.ReserveConserves(s, node, a);
    TakeKeepsAllOk(s, node, a);
    TakeEffect(s, node, a);
    hide C.Conserved, State.Take, AllOk, OneOwner;
  }

  lemma NewOwnerKeepsInv(s: State, id: Id, w: Workspace)
    requires Inv(s) && WsOk(s, id, w)
    requires w.alloc != NIL ==> forall j :: j in s.workspaces ==> s.workspaces[j].alloc != w.alloc
    ensures Inv(s.PutWorkspace(id, w))
  {
    var t := s.PutWorkspace(id, w);
    ConservedIgnores(s, t);
    hide C.Conserved;
    forall j | j in t.workspaces ensures WsOk(t, j, t.workspaces[j]) {
      WsOkCarries(s, t, j, t.workspaces[j]);
    }
  }

  lemma ExpandKeepsOthersOk(s: State, id: Id, d: Amount, w: Workspace)
    requires AllOk(s) && OneOwner(s.workspaces) && id in s.workspaces && w.alloc == s.workspaces[id].alloc && w.alloc != NIL
    requires s.Expand(w.alloc, d).1 == Done && WsOk(s.Expand(w.alloc, d).0, id, w)
    ensures AllOk(s.Expand(w.alloc, d).0.PutWorkspace(id, w))
  {
    ExpandEffect(s, w.alloc, d);
    var e := s.Expand(w.alloc, d).0;
    var t := e.PutWorkspace(id, w);
    hide State.Expand, WsOk;
    forall j | j in t.workspaces ensures WsOk(t, j, t.workspaces[j]) {
      if j != id {
        WsOkSameAlloc(s, t, j, s.workspaces[j]);
      } else {
        WsOkSameAlloc(e, t, id, w);
      }
    }
  }

  lemma ResizedIsOk(s: State, id: Id, d: Amount, was: Workspace, w: Workspace)
    requires WsOk(s, id, was) && s.Live(was.alloc) && s.Expand(was.alloc, d).1 == Done
    requires w.alloc == was.alloc && w.project == was.project && w.size == was.size.Plus(d)
    requires ValidSpec(w.size) && w.status == was.status && !w.resizePending
    ensures WsOk(s.Expand(w.alloc, d).0, id, w)
  {
    ExpandEffect(s, w.alloc, d);
    hide State.Expand;
  }

  lemma ResizeConserves(s: State, id: Id, d: Amount, was: Workspace)
    requires C.Conserved(s) && WsOk(s, id, was) && s.Live(was.alloc) && ValidSpec(was.size.Plus(d))
    ensures C.Conserved(s.Expand(was.alloc, d).0)
  {
    C.ExpandConserves(s, was.alloc, d);
    hide C.Conserved;
  }

  lemma PutKeepsOwners(workspaces: map<Id, Workspace>, id: Id, w: Workspace)
    requires OneOwner(workspaces) && id in workspaces && w.alloc == workspaces[id].alloc
    ensures OneOwner(workspaces[id := w])
  {}

  /** Only the size of one live allocation changes, by as much as the size of its owner. */
  lemma ResizeKeepsInv(s: State, id: Id, d: Amount, w: Workspace)
    requires Inv(s) && id in s.workspaces && s.Live(s.workspaces[id].alloc) && s.Expand(s.workspaces[id].alloc, d).1 == Done
    requires w.alloc == s.workspaces[id].alloc && w.project == s.workspaces[id].project && w.size == s.workspaces[id].size.Plus(d)
    requires ValidSpec(w.size) && w.status == s.workspaces[id].status && !w.resizePending
    ensures Inv(s.Expand(w.alloc, d).0.PutWorkspace(id, w))
  {
    var was := s.workspaces[id];
    assert WsOk(s, id, was);
    hide C.Conserved, State.Expand, WsOk, AllOk, OneOwner, ValidSpec;
    ExpandEffect(s, w.alloc, d);
    ResizedIsOk(s, id, d, was, w);
    ExpandKeepsOthersOk(s, id, d, w);
    ResizeConserves(s, id, d, was);
    ConservedIgnores(s.Expand(w.alloc, d).0, s.Expand(w.alloc, d).0.PutWorkspace(id, w));
    PutKeepsOwners(s.workspaces, id, w);
  }
}
