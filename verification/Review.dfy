/** Destroy reviews: where a review started, and what rejecting it restores. */
module Review {
  import opened Models
  import opened Store
  import opened App

  predicate Asks(e: Entry, id: Id) { e.About(id) && e.action == DESTROY_REQUEST }

  predicate HasRequest(audit: seq<Entry>, id: Id) { exists i :: 0 <= i < |audit| && Asks(audit[i], id) }

  /** What the newest destroy request about a workspace recorded, however old it is. */
  function Origin(audit: seq<Entry>, id: Id): Option<Status> {
    if audit == [] then None
    else if Asks(audit[|audit| - 1], id) then audit[|audit| - 1].fromStatus
    else Origin(audit[..|audit| - 1], id)
  }

  /** How many entries about the workspace are newer than its newest destroy request. */
  function Newer(audit: seq<Entry>, id: Id): nat {
    if audit == [] || Asks(audit[|audit| - 1], id) then 0
    else Newer(audit[..|audit| - 1], id) + if audit[|audit| - 1].About(id) then 1 else 0
  }

  lemma OriginOfAppended(audit: seq<Entry>, e: Entry, id: Id)
    ensures Origin(audit + [e], id) == if Asks(e, id) then e.fromStatus else Origin(audit, id)
    ensures Newer(audit + [e], id) == if Asks(e, id) then 0 else Newer(audit, id) + if e.About(id) then 1 else 0
    ensures HasRequest(audit + [e], id) <==> Asks(e, id) || HasRequest(audit, id)
  {
    assert (audit + [e])[..|audit|] == audit;
    if HasRequest(audit, id) {
      var i :| 0 <= i < |audit| && Asks(audit[i], id);
      assert Asks((audit + [e])[i], id);
    }
    assert Asks((audit + [e])[|audit|], id) == Asks(e, id);
  }

  /** All entries about the resource, the newest first. */
  function AllAbout(audit: seq<Entry>, id: Id): seq<Entry> {
    if audit == [] then []
    else
      var last := audit[|audit| - 1];
      (if last.resource == id || last.about == Some(id) then [last] else []) + AllAbout(audit[..|audit| - 1], id)
  }

  /** The list is the beginning of all entries about the resource. */
  lemma {:induction false} NewestExactly(audit: seq<Entry>, n: nat, id: Id, limit: nat)
    requires n <= |audit|
    ensures var all := AllAbout(audit[..n], id);
            NewestAbout(audit, n, id, limit) == if limit <= |all| then all[..limit] else all
  {
    if n > 0 && limit > 0 {
      assert audit[..n][..n - 1] == audit[..n - 1];
      NewestExactly(audit, n - 1, id, if audit[n - 1].About(id) then limit - 1 else limit);
    }
  }

  /** A hundred without a wish, and never more than five hundred. */
  lemma WantedExactly(wanted: int)
    ensures AuditLimit(wanted) == if wanted < 1 then 100 else if wanted < 500 then wanted else 500
  {}

  /** Searching the newest entries finds the newest request exactly when it is among them. */
  lemma {:induction false} LimitedSearch(audit: seq<Entry>, n: nat, id: Id, limit: nat)
    requires n <= |audit|
    ensures OriginIn(NewestAbout(audit, n, id, limit))
            == if HasRequest(audit[..n], id) && Newer(audit[..n], id) < limit then Origin(audit[..n], id) else None
  {
    if n > 0 {
      assert audit[..n] == audit[..n - 1] + [audit[n - 1]];
      OriginOfAppended(audit[..n - 1], audit[n - 1], id);
      if limit > 0 {
        if audit[n - 1].About(id) {
          LimitedSearch(audit, n - 1, id, limit - 1);
          var rest := NewestAbout(audit, n - 1, id, limit - 1);
          assert ([audit[n - 1]] + rest)[1..] == rest;
        } else {
          LimitedSearch(audit, n - 1, id, limit);
        }
      }
    }
  }

  /** What a rejection restores. */
  lemma RestoredFromLog(db: State, id: Id)
    ensures RestoredStatus(db, id)
            == if HasRequest(db.audit, id) && Newer(db.audit, id) < REVIEW_HISTORY
               then RestoreStatus(Origin(db.audit, id)) else Running
  {
    LimitedSearch(db.audit, |db.audit|, id, REVIEW_HISTORY);
    assert db.audit[..|db.audit|] == db.audit;
  }
}
