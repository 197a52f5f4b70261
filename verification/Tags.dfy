/** Node tags: normalisation, and the merge that every heartbeat performs. */
module Tags {
  import opened Text

  const MAX_TAGS := 16
  const MAX_TAG_LEN := 32

  /** One round of the normalising loop. */
  function Accept(out: seq<string>, raw: string): seq<string> {
    var t := Canon(raw);
    if |out| >= MAX_TAGS || t == "" || |t| > MAX_TAG_LEN || t in out then out else out + [t]
  }

  function Fold(out: seq<string>, tags: seq<string>): seq<string>
    decreases |tags|
  {
    if tags == [] then out else Fold(Accept(out, tags[0]), tags[1..])
  }

  function Normalized(tags: seq<string>): seq<string> { Fold([], tags) }

  ghost predicate Canonical(tags: seq<string>) {
    && |tags| <= 16
    && (forall i :: 0 <= i < |tags| ==> Canon(tags[i]) == tags[i] && tags[i] != "" && |tags[i]| <= 32)
    && forall i, j :: 0 <= i < j < |tags| ==> tags[i] != tags[j]
  }

  method NormalizeNodeTags(tags: seq<string>) returns (out: seq<string>)
    ensures out == Normalized(tags)
  {
    var seen: set<string> := {};
    out := [];
    var i := 0;
    while i < |tags|
      invariant 0 <= i <= |tags|
      invariant |out| < MAX_TAGS
      invariant seen == set t | t in out
      invariant Fold(out, tags[i..]) == Normalized(tags)
    {
      var t := Canon(tags[i]);
      assert tags[i..][1..] == tags[i + 1..];
      i := i + 1;
      if t == "" || |t| > MAX_TAG_LEN {
        continue;
      }
      if t in seen {
        continue;
      }
      seen := seen + {t};
      out := out + [t];
      if |out| >= MAX_TAGS {
        FullFold(out, tags[i..]);
        break;
      }
    }
  }

  lemma {:induction false} FullFold(out: seq<string>, tags: seq<string>)
    requires |out| >= MAX_TAGS
    ensures Fold(out, tags) == out
  {
    if tags != [] {
      FullFold(out, tags[1..]);
    }
  }

  lemma {:induction false} FoldConcat(out: seq<string>, a: seq<string>, b: seq<string>)
    ensures Fold(out, a + b) == Fold(Fold(out, a), b)
    decreases |a|
  {
    if a == [] {
      assert a + b == b;
    } else {
      assert (a + b)[1..] == a[1..] + b;
      FoldConcat(Accept(out, a[0]), a[1..], b);
    }
  }

  lemma AcceptExtends(out: seq<string>, raw: string)
    requires Canonical(out)
    ensures Canonical(Accept(out, raw)) && out <= Accept(out, raw)
  {
    CanonIsIdempotent(raw);
  }

  /** Folding extends a canonical list to a canonical list. */
  lemma {:induction false} FoldExtends(out: seq<string>, tags: seq<string>)
    requires Canonical(out)
    ensures Canonical(Fold(out, tags)) && out <= Fold(out, tags)
    decreases |tags|
  {
    if tags != [] {
      AcceptExtends(out, tags[0]);
      FoldExtends(Accept(out, tags[0]), tags[1..]);
    }
  }

  lemma AcceptNext(all: seq<string>, k: nat)
    requires Canonical(all) && k < |all|
    ensures Accept(all[..k], all[k]) == all[..k + 1]
  {
    assert all[k] !in all[..k];
    assert all[..k] + [all[k]] == all[..k + 1];
  }

  /** Folding the rest of a canonical list onto its own prefix rebuilds the list. */
  lemma {:induction false} FoldRebuilds(all: seq<string>, k: nat)
    requires Canonical(all) && k <= |all|
    ensures Fold(all[..k], all[k..]) == all
    decreases |all| - k
  {
    hide Canonical, Accept;
    if k == |all| {
      assert all[..k] == all;
    } else {
      assert all[k..][0] == all[k] && all[k..][1..] == all[k + 1..];
      AcceptNext(all, k);
      FoldRebuilds(all, k + 1);
    }
  }

  /** Tags that a list already holds are not added again. */
  lemma {:induction false} FoldIgnoresKnown(out: seq<string>, tags: seq<string>)
    requires Canonical(out)
    requires forall t :: t in tags ==> Accept(out, t) == out
    ensures Fold(out, tags) == out
    decreases |tags|
  {
    if tags != [] {
      FoldIgnoresKnown(out, tags[1..]);
    }
  }

  lemma {:induction false} FoldSaturates(out: seq<string>, tags: seq<string>, t: string)
    requires Canonical(out) && t in tags
    ensures Accept(Fold(out, tags), t) == Fold(out, tags)
    decreases |tags|
  {
    var next := Accept(out, tags[0]);
    AcceptExtends(out, tags[0]);
    if t == tags[0] {
      FoldExtends(next, tags[1..]);
      var all := Fold(out, tags);
      if Canon(t) in next {
        var i :| 0 <= i < |next| && next[i] == Canon(t);
        assert all[i] == Canon(t);
      }
    } else {
      FoldSaturates(next, tags[1..], t);
    }
  }

  /** A canonical list folded onto one of its own prefixes gives the list back. */
  lemma FoldOntoPrefix(start: seq<string>, all: seq<string>)
    requires Canonical(all) && start <= all
    ensures Fold(start, all) == all
  {
    var k := |start|;
    assert all[..k] == start && all[..k] + all[k..] == all;
    FoldConcat(start, start, all[k..]);
    forall t | t in start ensures Accept(start, t) == start {
      var i :| 0 <= i < k && all[i] == t;
    }
    FoldIgnoresKnown(start, start);
    FoldRebuilds(all, k);
  }

  lemma NormalizedIsCanonical(tags: seq<string>)
    ensures Canonical(Normalized(tags))
    ensures Canonical(tags) <==> Normalized(tags) == tags
  {
    FoldExtends([], tags);
    if Canonical(tags) {
      FoldRebuilds(tags, 0);
      assert tags[..0] == [] && tags[0..] == tags;
    }
  }

  /** What folding adds comes from the tags, and a usable tag is only left out when the list is full. */
  lemma {:induction false} FoldHolds(out: seq<string>, tags: seq<string>)
    requires Canonical(out)
    ensures forall n :: n in Fold(out, tags) ==> n in out || exists i :: 0 <= i < |tags| && Trim(Lower(tags[i])) == n
    ensures forall i :: 0 <= i < |tags| && 0 < |Trim(Lower(tags[i]))| <= 32 ==> Trim(Lower(tags[i])) in Fold(out, tags) || |Fold(out, tags)| == 16
    decreases |tags|
  {
    if tags != [] {
      var next := Accept(out, tags[0]);
      AcceptExtends(out, tags[0]);
      FoldHolds(next, tags[1..]);
      FoldExtends(next, tags[1..]);
      forall n | n in Fold(out, tags) && n !in out ensures exists i :: 0 <= i < |tags| && Trim(Lower(tags[i])) == n {
        if n in next {
          assert Trim(Lower(tags[0])) == n;
        } else {
          var i :| 0 <= i < |tags[1..]| && Trim(Lower(tags[1..][i])) == n;
          assert Trim(Lower(tags[i + 1])) == n;
        }
      }
      forall i | 0 <= i < |tags| && 0 < |Trim(Lower(tags[i]))| <= 32
        ensures Trim(Lower(tags[i])) in Fold(out, tags) || |Fold(out, tags)| == 16
      {
        if i > 0 {
          assert tags[1..][i - 1] == tags[i];
        } else if Trim(Lower(tags[0])) in next {
          var k :| 0 <= k < |next| && next[k] == Trim(Lower(tags[0]));
          assert Fold(out, tags)[k] == next[k];
        }
      }
    }
  }

  /** The normalised list holds the trimmed and lower-cased forms of the usable tags, and nothing else. */
  lemma NormalizedHolds(tags: seq<string>)
    ensures forall n :: n in Normalized(tags) ==> exists i :: 0 <= i < |tags| && Trim(Lower(tags[i])) == n
    ensures forall i :: 0 <= i < |tags| && 0 < |Trim(Lower(tags[i]))| <= 32
              ==> Trim(Lower(tags[i])) in Normalized(tags) || |Normalized(tags)| == 16
  {
    FoldHolds([], tags);
  }

  /** What the control plane keeps for a known node: the heartbeat merges, then the store merges again. */
  function HeartbeatTags(stored: seq<string>, sent: seq<string>): seq<string> { Normalized(stored + sent) }

  function UpsertTags(stored: seq<string>, sent: seq<string>): seq<string> {
    if |sent| == 0 then stored else Normalized(stored + sent)
  }

  function AfterHeartbeat(stored: seq<string>, sent: seq<string>): seq<string> {
    UpsertTags(stored, HeartbeatTags(stored, sent))
  }

  /** The two merges amount to one, unless everything was unusable and the old list is left as it was. */
  lemma DoubleMergeIsSingle(stored: seq<string>, sent: seq<string>)
    ensures AfterHeartbeat(stored, sent) == HeartbeatTags(stored, sent)
            <==> HeartbeatTags(stored, sent) != [] || stored == []
  {
    var once := HeartbeatTags(stored, sent);
    FoldConcat([], stored, sent);
    FoldExtends([], stored);
    FoldExtends(Normalized(stored), sent);
    FoldConcat([], stored, once);
    FoldOntoPrefix(Normalized(stored), once);
  }

  /** Tags of a node survive every heartbeat, in place, exactly when they are stored in canonical form. */
  lemma StoredTagsStayPrefix(stored: seq<string>, sent: seq<string>)
    ensures Canonical(HeartbeatTags(stored, sent))
    ensures stored <= HeartbeatTags(stored, sent) <==> Canonical(stored)
    ensures Canonical(stored) ==> stored <= AfterHeartbeat(stored, sent) && Canonical(AfterHeartbeat(stored, sent))
  {
    FoldConcat([], stored, sent);
    NormalizedIsCanonical(stored);
    FoldExtends(Normalized(stored), sent);
    DoubleMergeIsSingle(stored, sent);
    var merged := HeartbeatTags(stored, sent);
    if stored <= merged {
      assert forall i :: 0 <= i < |stored| ==> stored[i] == merged[i];
    }
  }

  lemma RepeatedHeartbeatIsNoop(stored: seq<string>, sent: seq<string>)
    ensures var once := AfterHeartbeat(stored, sent); AfterHeartbeat(once, sent) == once
  {
    var merged := HeartbeatTags(stored, sent);
    var once := AfterHeartbeat(stored, sent);
    DoubleMergeIsSingle(stored, sent);
    FoldConcat([], stored, sent);
    FoldExtends([], stored);
    FoldExtends(Normalized(stored), sent);
    if once == merged {
      forall t | t in sent ensures Accept(merged, t) == merged {
        FoldSaturates(Normalized(stored), sent, t);
      }
      NormalizedIsCanonical(merged);
      FoldIgnoresKnown(merged, sent);
      FoldConcat([], merged, sent);
      assert HeartbeatTags(merged, sent) == merged;
      DoubleMergeIsSingle(merged, sent);
    }
  }
}
