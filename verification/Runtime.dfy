/** The in-memory container runtime: instances, the ports they listen on, and the keys they accept. */
module Runtime {
  import opened Models

  /** What the fingerprint of a host key is a digest of. */
  datatype HostKey = HostKey(ws: Id, node: Id)

  datatype Instance = Instance(node: Id, sshPort: int, hostKey: HostKey, running: bool)

  const FIRST_PORT := 22000

  /** What the rest of the program can tell: which workspaces have an instance, and whether it runs. */
  function Guests(inst: map<Id, Instance>): map<Id, bool> { map id | id in inst :: inst[id].running }

  lemma GuestKeys(inst: map<Id, Instance>)
    ensures forall id :: id in Guests(inst) <==> id in inst
  {}

  lemma GuestsUpdate(inst: map<Id, Instance>, id: Id, i: Instance)
    ensures Guests(inst[id := i]) == Guests(inst)[id := i.running] && Guests(inst - {id}) == Guests(inst) - {id}
  {}

  class MemoryRuntime {
    var nextPort: int
    var inst: map<Id, Instance>
    var keys: map<Id, seq<string>>

    /**
     Keys are kept for exactly the instances there are, no port is given out twice, and a host key depends on nothing but
     the workspace and its node.
     */
    ghost predicate Valid()
      reads this
    {
      && keys.Keys == inst.Keys
      && (forall id :: id in inst ==> inst[id].hostKey == HostKey(id, inst[id].node))
      && nextPort >= FIRST_PORT
      && (forall id :: id in inst ==> FIRST_PORT < inst[id].sshPort <= nextPort)
      && (forall i, j :: i in inst && j in inst && i != j ==> inst[i].sshPort != inst[j].sshPort)
    }

    constructor ()
      ensures Valid() && inst == map[] && keys == map[]
    {
      nextPort, inst, keys := FIRST_PORT, map[], map[];
    }

    /** fault stands for a launch that fails, early or late; it leaves no instance behind. */
    method Launch(id: Id, node: Id, pubs: seq<string>, fault: bool) returns (r: Outcome)
      requires Valid()
      modifies this
      ensures Valid()
      ensures r == if fault then Fail(ErrRuntime) else Done
      ensures r != Done ==> inst == old(inst) && keys == old(keys)
      ensures r == Done ==>
        && nextPort == old(nextPort) + 1
        && inst == old(inst)[id := Instance(node, nextPort, HostKey(id, node), true)]
        && keys == old(keys)[id := pubs]
        && Guests(inst) == Guests(old(inst))[id := true]
    {
      if fault {
        return Fail(ErrRuntime);
      }
      nextPort := nextPort + 1;
      GuestsUpdate(inst, id, Instance(node, nextPort, HostKey(id, node), true));
      inst := inst[id := Instance(node, nextPort, HostKey(id, node), true)];
      keys := keys[id := pubs];
      return Done;
    }

    method Stop(id: Id) returns (r: Outcome)
      requires Valid()
      modifies this
      ensures Valid() && keys == old(keys) && nextPort == old(nextPort)
      ensures r == if id in old(inst) then Done else Fail(ErrRuntime)
      ensures inst == if id in old(inst) then old(inst)[id := old(inst)[id].(running := false)] else old(inst)
      ensures Guests(inst) == if id in old(inst) then Guests(old(inst))[id := false] else Guests(old(inst))
    {
      if id !in inst {
        return Fail(ErrRuntime);
      }
      GuestsUpdate(inst, id, inst[id].(running := false));
      inst := inst[id := inst[id].(running := false)];
      return Done;
    }

    method Start(id: Id) returns (r: Outcome)
      requires Valid()
      modifies this
      ensures Valid() && keys == old(keys) && nextPort == old(nextPort)
      ensures r == if id in old(inst) then Done else Fail(ErrRuntime)
      ensures inst == if id in old(inst) then old(inst)[id := old(inst)[id].(running := true)] else old(inst)
      ensures Guests(inst) == if id in old(inst) then Guests(old(inst))[id := true] else Guests(old(inst))
    {
      if id !in inst {
        return Fail(ErrRuntime);
      }
      GuestsUpdate(inst, id, inst[id].(running := true));
      inst := inst[id := inst[id].(running := true)];
      return Done;
    }

    method Destroy(id: Id)
      requires Valid()
      modifies this
      ensures Valid() && nextPort == old(nextPort)
      ensures inst == old(inst) - {id} && keys == old(keys) - {id}
      ensures Guests(inst) == Guests(old(inst)) - {id}
    {
      GuestsUpdate(inst, id, Instance(NIL, 0, HostKey(id, NIL), false));
      inst := inst - {id};
      keys := keys - {id};
    }

    method Resize(id: Id, fault: bool) returns (r: Outcome)
      ensures r == if fault || id !in inst then Fail(ErrRuntime) else Done
    {
      if fault || id !in inst {
        return Fail(ErrRuntime);
      }
      return Done;
    }

    method SyncKeys(id: Id, pubs: seq<string>) returns (r: Outcome)
      requires Valid()
      modifies this
      ensures Valid() && inst == old(inst) && nextPort == old(nextPort)
      ensures r == if id in inst then Done else Fail(ErrRuntime)
      ensures keys == if id in inst then old(keys)[id := pubs] else old(keys)
    {
      if id !in inst {
        return Fail(ErrRuntime);
      }
      keys := keys[id := pubs];
      return Done;
    }
  }
}
