/**
 The in-memory store. State is what its tables hold and what each operation does to them;
 MemStore is the mutable object, every method of which is one atomic step.
 */
module Store {
  import opened Amounts
  import opened Models
  import opened Placement
  import Tags

  datatype State = State(
    nodes: map<Id, Node>, byName: map<string, Id>, allocs: map<Id, Allocation>,
    workspaces: map<Id, Workspace>, audit: seq<Entry>, projects: map<Id, Project>)
  {
    predicate Live(id: Id) { id in allocs && allocs[id].Live() }

    function SetUsed(node: Id, used: Amount): State
      requires node in nodes
    {
      this.(nodes := nodes[node := nodes[node].(used := used)])
    }

    function SetAlloc(id: Id, a: Allocation): State { this.(allocs := allocs[id := a]) }

    /** Takes a's size on a node and records a as reserved there. */
    function Take(node: Id, a: Allocation): State
      requires node in nodes
    {
      SetUsed(node, nodes[node].used.Plus(a.size)).SetAlloc(a.id, a.(node := node, state := Reserved))
    }

    function ReserveOnNode(node: Id, a: Allocation): (State, Outcome) {
      if node !in nodes then (this, Fail(ErrNotFound))
      else if !nodes[node].ready || !a.size.Within(nodes[node].Free()) then (this, Fail(ErrNoCapacity))
      else (Take(node, a), Done)
    }

    function Activate(id: Id): (State, Outcome) {
      if id !in allocs then (this, Fail(ErrNotFound))
      else if allocs[id].state == Released then (this, Fail(ErrAlreadyReleased))
      else (SetAlloc(id, allocs[id].(state := Active)), Done)
    }

    function Release(id: Id): (State, Outcome) {
      if id !in allocs then (this, Fail(ErrNotFound))
      else if allocs[id].state == Released then (this, Done)
      else
        var a := allocs[id];
        var refunded := if a.node in nodes then SetUsed(a.node, nodes[a.node].used.Minus(a.size).Floored()) else this;
        (refunded.SetAlloc(id, a.(state := Released)), Done)
    }

    function Expand(id: Id, d: Amount): (State, Outcome) {
      if id !in allocs then (this, Fail(ErrNotFound))
      else if allocs[id].state == Released then (this, Fail(ErrAlreadyReleased))
      else if allocs[id].node !in nodes then (this, Fail(ErrNotFound))
      else
        var a := allocs[id];
        var free := nodes[a.node].Free();
        if (d.cpu > 0 && free.cpu < d.cpu) || (d.mem > 0 && free.mem < d.mem) || (d.disk > 0 && free.disk < d.disk)
        then (this, Fail(ErrNoCapacity))
        else (SetUsed(a.node, nodes[a.node].used.Plus(d).Floored()).SetAlloc(id, a.(size := a.size.Plus(d).Floored())), Done)
    }

    /** What the store keeps when n is upserted. */
    function Merged(n: Node): Node {
      if n.name in byName && byName[n.name] in nodes then
        var known := nodes[byName[n.name]];
        n.(id := byName[n.name], used := known.used, machineType := known.machineType, remark := known.remark,
           tags := Tags.UpsertTags(known.tags, n.tags))
      else if n.machineType == "" then n.(machineType := "self")
      else n
    }

    function Upsert(n: Node): State {
      var kept := Merged(n);
      this.(nodes := nodes[kept.id := kept], byName := byName[n.name := kept.id])
    }

    predicate Occupied(node: Id) { exists id :: id in allocs && allocs[id].node == node && allocs[id].Live() }

    function DeleteNode(node: Id): (State, Outcome) {
      if node !in nodes then (this, Fail(ErrNotFound))
      else if Occupied(node) then (this, Fail(ErrConflict))
      else
        (this.(allocs := allocs - (set id | id in allocs && allocs[id].node == node && allocs[id].state == Released),
               nodes := nodes - {node}, byName := byName - {nodes[node].name}), Done)
    }

    predicate NameTaken(w: Workspace) {
      exists id :: id in workspaces && workspaces[id].project == w.project
                   && workspaces[id].name == w.name && workspaces[id].status != Destroyed
    }

    function PutWorkspace(id: Id, w: Workspace): State { this.(workspaces := workspaces[id := w]) }

    function CreateWorkspace(id: Id, w: Workspace): (State, Outcome) {
      if NameTaken(w) then (this, Fail(ErrConflict)) else (PutWorkspace(id, w), Done)
    }

    function UpdateWorkspace(id: Id, w: Workspace): (State, Outcome) {
      if id !in workspaces then (this, Fail(ErrNotFound)) else (PutWorkspace(id, w), Done)
    }

    function UpdateWorkspaceIfStatus(id: Id, w: Workspace, from: Status): (State, Outcome) {
      if id !in workspaces then (this, Fail(ErrNotFound))
      else if workspaces[id].status != from then (this, Fail(ErrConflict))
      else (PutWorkspace(id, w), Done)
    }

    function AddAudit(e: Entry): State { this.(audit := audit + [e]) }
  }

  /** Entries about a resource among the first n of the log, newest first, at most limit of them. */
  function NewestAbout(audit: seq<Entry>, n: nat, resource: Id, limit: nat): seq<Entry>
    requires n <= |audit|
  {
    if n == 0 || limit == 0 then []
    else if audit[n - 1].About(resource)
    then [audit[n - 1]] + NewestAbout(audit, n - 1, resource, limit - 1)
    else NewestAbout(audit, n - 1, resource, limit)
  }

  /** At least one entry is listed, and never more than 500. */
  function AuditLimit(wanted: int): nat { if wanted <= 0 then 100 else if wanted > 500 then 500 else wanted }

  /** A reservation without an architecture takes any. */
  function NormalArch(arch: string): string { if arch == "" then ARCH_ANY else arch }

  const EMPTY := State(map[], map[], map[], map[], [], map[])

  class MemStore {
    var nodes: map<Id, Node>
    var nodeByName: map<string, Id>
    var allocs: map<Id, Allocation>
    var workspaces: map<Id, Workspace>
    var audit: seq<Entry>
    var projects: map<Id, Project>

    function View(): State
      reads this
    {
      State(nodes, nodeByName, allocs, workspaces, audit, projects)
    }

    constructor ()
      ensures View() == EMPTY
    {
      nodes, nodeByName, allocs, workspaces, audit, projects := map[], map[], map[], map[], [], map[];
    }

    method UpsertNode(n: Node)
      requires n.name in nodeByName ==> nodeByName[n.name] in nodes
      modifies this
      ensures View() == old(View()).Upsert(n)
    {
      var cp := n;
      if n.name in nodeByName {
        var existing := nodeByName[n.name];
        var was := nodes[existing];
        cp := cp.(id := existing, used := was.used, machineType := was.machineType, remark := was.remark);
        if |n.tags| == 0 {
          cp := cp.(tags := was.tags);
        } else {
          var merged := Tags.NormalizeNodeTags(was.tags + n.tags);
          cp := cp.(tags := merged);
        }
      } else if n.machineType == "" {
        cp := cp.(machineType := "self");
      }
      nodes := nodes[cp.id := cp];
      nodeByName := nodeByName[n.name := cp.id];
    }

    method DeleteNode(id: Id) returns (r: Outcome)
      modifies this
      ensures (View(), r) == old(View()).DeleteNode(id)
    {
      if id !in nodes {
        return Fail(ErrNotFound);
      }
      var todo := allocs.Keys;
      while todo != {}
        invariant todo <= allocs.Keys && View() == old(View())
        invariant forall k :: k in allocs && k !in todo ==> !(allocs[k].node == id && allocs[k].Live())
      {
        var k :| k in todo;
        if allocs[k].node == id && allocs[k].state != Released {
          return Fail(ErrConflict);
        }
        todo := todo - {k};
      }
      assert !View().Occupied(id);
      ghost var before := allocs;
      todo := allocs.Keys;
      while todo != {}
        invariant todo <= before.Keys
        invariant allocs == before - (set k | k in before && k !in todo && before[k].node == id && before[k].state == Released)
        invariant View() == old(View()).(allocs := allocs)
      {
        var k :| k in todo;
        todo := todo - {k};
        if k in allocs && allocs[k].node == id && allocs[k].state == Released {
          allocs := allocs - {k};
        }
      }
      assert allocs == before - (set k | k in before && before[k].node == id && before[k].state == Released);
      nodeByName := nodeByName - {nodes[id].name};
      nodes := nodes - {id};
      return Done;
    }

    method ReserveOnNode(nodeId: Id, a: Allocation) returns (r: Outcome)
      modifies this
      ensures (View(), r) == old(View()).ReserveOnNode(nodeId, a)
    {
      if nodeId !in nodes {
        return Fail(ErrNotFound);
      }
      var n := nodes[nodeId];
      if !n.ready {
        return Fail(ErrNoCapacity);
      }
      var free := n.allocatable.Minus(n.used);
      if free.cpu < a.size.cpu || free.mem < a.size.mem || free.disk < a.size.disk {
        return Fail(ErrNoCapacity);
      }
      nodes := nodes[nodeId := n.(used := n.used.Plus(a.size))];
      allocs := allocs[a.id := a.(node := nodeId, state := Reserved)];
      return Done;
    }

    /** One pass over the nodes in any order; a later node replaces the best only with a higher score. */
    method ReserveBestNode(arch: string, a: Allocation) returns (r: Outcome, kept: Allocation)
      modifies this
      ensures var q := Query(NormalArch(arch), a.size, false);
              if SomeFits(old(nodes), q) then
                r == Done && Best(old(nodes), q, kept.node)
                && kept == a.(node := kept.node, arch := if a.arch == "" then old(nodes)[kept.node].arch else a.arch, state := Reserved)
                && View() == old(View()).Take(kept.node, kept)
              else r == Fail(ErrNoCapacity) && View() == old(View())
      ensures r == Done ==> Preferred(old(nodes), Query(NormalArch(arch), a.size, false), kept.node)
    {
      ghost var q := Query(NormalArch(arch), a.size, false);
      var best: Option<Id> := None;
      var bestScore := 0;
      var todo := nodes.Keys;
      while todo != {}
        invariant todo <= nodes.Keys && View() == old(View())
        invariant best.None? ==> forall id :: id in nodes && id !in todo ==> !Candidate(nodes[id], q)
        invariant best.Some? ==> best.value in nodes && Candidate(nodes[best.value], q) && bestScore == Score(nodes[best.value])
        invariant best.Some? ==> forall id :: id in nodes && id !in todo && Candidate(nodes[id], q) ==> Score(nodes[id]) <= bestScore
      {
        var id :| id in todo;
        todo := todo - {id};
        var n := nodes[id];
        if !n.ready || n.role == ROLE_CONTROL_PLANE {
          continue;
        }
        if arch != "" && arch != ARCH_ANY && n.arch != arch {
          continue;
        }
        var free := n.allocatable.Minus(n.used);
        if free.cpu < a.size.cpu || free.mem < a.size.mem || free.disk < a.size.disk {
          continue;
        }
        var score := free.mem;
        if n.power == "mains" {
          score := score + MAINS_BONUS;
        }
        if n.fabricPath == "p2p" {
          score := score + P2P_BONUS;
        }
        if best.None? || score > bestScore {
          best, bestScore := Some(id), score;
        }
      }
      if best.None? {
        return Fail(ErrNoCapacity), a;
      }
      BestIsPreferred(nodes, q, best.value);
      hide Preferred;
      var n := nodes[best.value];
      nodes := nodes[best.value := n.(used := n.used.Plus(a.size))];
      kept := a.(node := best.value, state := Reserved);
      if a.arch == "" {
        kept := kept.(arch := n.arch);
      }
      allocs := allocs[kept.id := kept];
      return Done, kept;
    }

    /** The nodes in any order. */
    method ListNodes() returns (out: seq<Node>)
      requires forall id :: id in nodes ==> nodes[id].id == id
      ensures forall n :: n in out <==> n.id in nodes && nodes[n.id] == n
      ensures forall i, j :: 0 <= i < j < |out| ==> out[i] != out[j]
    {
      out := [];
      var todo := nodes.Keys;
      while todo != {}
        invariant todo <= nodes.Keys
        invariant forall n :: n in out <==> n.id in nodes && n.id !in todo && nodes[n.id] == n
        invariant forall i, j :: 0 <= i < j < |out| ==> out[i] != out[j]
      {
        var id :| id in todo;
        todo := todo - {id};
        out := out + [nodes[id]];
      }
    }

    method ActivateAllocation(id: Id) returns (r: Outcome)
      modifies this
      ensures (View(), r) == old(View()).Activate(id)
    {
      if id !in allocs {
        return Fail(ErrNotFound);
      }
      if allocs[id].state == Released {
        return Fail(ErrAlreadyReleased);
      }
      allocs := allocs[id := allocs[id].(state := Active)];
      return Done;
    }

    method ReleaseAllocation(id: Id) returns (r: Outcome)
      modifies this
      ensures (View(), r) == old(View()).Release(id)
    {
      if id !in allocs {
        return Fail(ErrNotFound);
      }
      var a := allocs[id];
      if a.state == Released {
        return Done;
      }
      if a.node in nodes {
        var used := nodes[a.node].used.Minus(a.size);
        if used.cpu < 0 {
          used := used.(cpu := 0);
        }
        if used.mem < 0 {
          used := used.(mem := 0);
        }
        if used.disk < 0 {
          used := used.(disk := 0);
        }
        nodes := nodes[a.node := nodes[a.node].(used := used)];
      }
      allocs := allocs[id := a.(state := Released)];
      return Done;
    }

    method ExpandAllocation(id: Id, d: Amount) returns (r: Outcome)
      modifies this
      ensures (View(), r) == old(View()).Expand(id, d)
    {
      if id !in allocs {
        return Fail(ErrNotFound);
      }
      var a := allocs[id];
      if a.state == Released {
        return Fail(ErrAlreadyReleased);
      }
      if a.node !in nodes {
        return Fail(ErrNotFound);
      }
      var n := nodes[a.node];
      if d.cpu > 0 && n.allocatable.cpu - n.used.cpu < d.cpu {
        return Fail(ErrNoCapacity);
      }
      if d.mem > 0 && n.allocatable.mem - n.used.mem < d.mem {
        return Fail(ErrNoCapacity);
      }
      if d.disk > 0 && n.allocatable.disk - n.used.disk < d.disk {
        return Fail(ErrNoCapacity);
      }
      nodes := nodes[a.node := n.(used := n.used.Plus(d).Floored())];
      allocs := allocs[id := a.(size := a.size.Plus(d).Floored())];
      return Done;
    }

    method CreateWorkspace(id: Id, w: Workspace) returns (r: Outcome)
      modifies this
      ensures (View(), r) == old(View()).CreateWorkspace(id, w)
    {
      var todo := workspaces.Keys;
      while todo != {}
        invariant todo <= workspaces.Keys && View() == old(View())
        invariant forall k :: k in workspaces && k !in todo ==>
          !(workspaces[k].project == w.project && workspaces[k].name == w.name && workspaces[k].status != Destroyed)
      {
        var k :| k in todo;
        var e := workspaces[k];
        if e.project == w.project && e.name == w.name && e.status != Destroyed {
          return Fail(ErrConflict);
        }
        todo := todo - {k};
      }
      workspaces := workspaces[id := w];
      return Done;
    }

    method UpdateWorkspace(id: Id, w: Workspace) returns (r: Outcome)
      modifies this
      ensures (View(), r) == old(View()).UpdateWorkspace(id, w)
    {
      if id !in workspaces {
        return Fail(ErrNotFound);
      }
      workspaces := workspaces[id := w];
      return Done;
    }

    method UpdateWorkspaceIfStatus(id: Id, w: Workspace, from: Status) returns (r: Outcome)
      modifies this
      ensures (View(), r) == old(View()).UpdateWorkspaceIfStatus(id, w, from)
    {
      if id !in workspaces {
        return Fail(ErrNotFound);
      }
      if workspaces[id].status != from {
        return Fail(ErrConflict);
      }
      workspaces := workspaces[id := w];
      return Done;
    }

    method AddAudit(e: Entry)
      modifies this
      ensures View() == old(View()).AddAudit(e)
    {
      audit := audit + [e];
    }

    method ListAuditByResource(resource: Id, wanted: int) returns (out: seq<Entry>)
      ensures out == NewestAbout(audit, |audit|, resource, AuditLimit(wanted))
    {
      var limit: nat := if wanted <= 0 then 100 else wanted;
      if limit > 500 {
        limit := 500;
      }
      out := [];
      var i := |audit|;
      while i > 0 && |out| < limit
        invariant 0 <= i <= |audit| && |out| <= limit
        invariant out + NewestAbout(audit, i, resource, limit - |out|) == NewestAbout(audit, |audit|, resource, limit)
      {
        i := i - 1;
        var l := audit[i];
        if l.resource != resource {
          if l.about != Some(resource) {
            continue;
          }
        }
        assert out + ([l] + NewestAbout(audit, i, resource, limit - |out| - 1)) == out + [l] + NewestAbout(audit, i, resource, limit - |out| - 1);
        out := out + [l];
      }
    }
  }
}
