/** The login limiter, and the rule about the history of logins that it comes down to. */
module Limiter {
  import Text

  /** Times are nanoseconds since 1970. */
  const MINUTE := 60_000_000_000
  const MAX_FAILURES := 5
  const LOCK := 5 * MINUTE
  const WINDOW := 15 * MINUTE

  /** The program's zero time, long before any clock reading. */
  const ZERO_TIME := -62_135_596_800_000_000_000

  datatype LimitEntry = LimitEntry(failures: int, lockedUntil: int, lastFail: int)

  datatype What = Asked | LoginFailed | LoggedIn

  datatype Event = Event(key: string, what: What, at: nat)

  function Key(ip: string, username: string): string { ip + "|" + Text.Lower(Text.Trim(username)) }

  function Counted(e: LimitEntry, now: nat): LimitEntry {
    var failures := (if now - e.lastFail > WINDOW then 0 else e.failures) + 1;
    LimitEntry(failures, if failures >= MAX_FAILURES then now + LOCK else e.lockedUntil, now)
  }

  predicate Allowed(entries: map<string, LimitEntry>, key: string, now: nat) {
    key in entries ==> now >= entries[key].lockedUntil && (now - entries[key].lastFail > WINDOW || entries[key].failures < MAX_FAILURES)
  }

  /** What one call leaves in the table; asking forgets an entry that is out of the window. */
  function Next(entries: map<string, LimitEntry>, ev: Event): map<string, LimitEntry> {
    match ev.what
    case Asked =>
      if ev.key in entries && ev.at >= entries[ev.key].lockedUntil && ev.at - entries[ev.key].lastFail > WINDOW
      then entries - {ev.key} else entries
    case LoginFailed =>
      entries[ev.key := Counted(if ev.key in entries then entries[ev.key] else LimitEntry(0, ZERO_TIME, ZERO_TIME), ev.at)]
    case LoggedIn => entries - {ev.key}
  }

  class LoginLimiter {
    var entries: map<string, LimitEntry>

    constructor ()
      ensures entries == map[]
    {
      entries := map[];
    }

    method Allow(ip: string, username: string, now: nat) returns (ok: bool)
      modifies this
      ensures ok == Allowed(old(entries), Key(ip, username), now)
      ensures entries == Next(old(entries), Event(Key(ip, username), Asked, now))
    {
      var k := Key(ip, username);
      if k !in entries {
        return true;
      }
      var e := entries[k];
      if now < e.lockedUntil {
        return false;
      }
      if now - e.lastFail > WINDOW {
        entries := entries - {k};
        return true;
      }
      return e.failures < MAX_FAILURES;
    }

    method RecordFailure(ip: string, username: string, now: nat)
      modifies this
      ensures entries == Next(old(entries), Event(Key(ip, username), LoginFailed, now))
    {
      var k := Key(ip, username);
      if k !in entries {
        entries := entries[k := LimitEntry(0, ZERO_TIME, ZERO_TIME)];
      }
      var e := entries[k];
      if now - e.lastFail > WINDOW {
        e := e.(failures := 0);
      }
      e := e.(failures := e.failures + 1, lastFail := now);
      if e.failures >= MAX_FAILURES {
        e := e.(lockedUntil := now + LOCK);
      }
      entries := entries[k := e];
    }

    method RecordSuccess(ip: string, username: string, now: nat)
      modifies this
      ensures entries == Next(old(entries), Event(Key(ip, username), LoggedIn, now))
    {
      entries := entries - {Key(ip, username)};
    }
  }

  /** From addresses without a bar, two logins count together exactly when address and name are the same but for case and blanks. */
  lemma KeysSeparate(ip: string, username: string, otherIp: string, otherName: string)
    requires '|' !in ip && '|' !in otherIp
    ensures Key(ip, username) == Key(otherIp, otherName)
            <==> ip == otherIp && Text.Lower(Text.Trim(username)) == Text.Lower(Text.Trim(otherName))
  {
    var k, other := Key(ip, username), Key(otherIp, otherName);
    if k == other {
      assert k[|ip|] == '|' && other[|otherIp|] == '|';
      assert forall i :: 0 <= i < |ip| ==> k[i] == ip[i];
      assert forall i :: 0 <= i < |otherIp| ==> other[i] == otherIp[i];
      assert |ip| == |otherIp|;
      assert k[..|ip|] == ip && other[..|ip|] == otherIp;
      assert k[|ip| + 1..] == Text.Lower(Text.Trim(username)) && other[|ip| + 1..] == Text.Lower(Text.Trim(otherName));
    }
  }

  // ----- the rule

  /** A quarter of an hour. */
  const QUARTER := 900_000_000_000

  /** When the logins of a key failed since it last succeeded. */
  function Failures(history: seq<Event>, key: string): seq<nat> {
    if history == [] then []
    else
      var before, ev := Failures(history[..|history| - 1], key), history[|history| - 1];
      if ev.key != key || ev.what == Asked then before
      else if ev.what == LoggedIn then []
      else before + [ev.at]
  }

  /** How many of them form the current burst: consecutive ones no more than the window apart. */
  function Burst(times: seq<nat>): nat {
    var n := |times|;
    if n == 0 then 0
    else if n > 1 && times[n - 1] - times[n - 2] <= QUARTER then 1 + Burst(times[..n - 1])
    else 1
  }

  predicate Blocked(history: seq<Event>, key: string, now: nat) {
    var times := Failures(history, key);
    times != [] && now - times[|times| - 1] <= QUARTER && Burst(times) >= 5
  }

  predicate Near(times: seq<nat>, i: nat) { 0 < i < |times| && times[i] - times[i - 1] <= QUARTER }

  /** In closed form: the last k failures follow each other within the window. */
  lemma {:induction false} BurstAtLeast(times: seq<nat>, k: nat)
    requires 0 < k
    ensures Burst(times) >= k <==> |times| >= k && forall i: nat :: |times| - k < i < |times| ==> Near(times, i)
  {
    var n := |times|;
    if n > 1 && k > 1 {
      var shorter := times[..n - 1];
      BurstAtLeast(shorter, k - 1);
      assert forall i: nat :: i < n - 1 ==> Near(times, i) == Near(shorter, i);
      if n >= k && forall i: nat :: n - k < i < n ==> Near(times, i) {
        assert Near(times, n - 1);
      }
    }
  }

  /** The table after a history of calls. */
  function After(history: seq<Event>): map<string, LimitEntry> {
    if history == [] then map[] else Next(After(history[..|history| - 1]), history[|history| - 1])
  }

  predicate Monotone(history: seq<Event>) { forall i, j :: 0 <= i < j < |history| ==> history[i].at <= history[j].at }

  predicate UpTo(history: seq<Event>, now: nat) { forall i :: 0 <= i < |history| ==> history[i].at <= now }

  /** What the table says of a key at a time not before the history's end, in terms of its failures. */
  predicate Reflects(entries: map<string, LimitEntry>, key: string, times: seq<nat>, now: nat) {
    if key in entries then
      var e := entries[key];
      && times != [] && e.lastFail == times[|times| - 1] <= now
      && e.failures == Burst(times)
      && e.lockedUntil <= e.lastFail + LOCK
      && (e.failures < MAX_FAILURES ==> e.lockedUntil <= e.lastFail)
    else
      times == [] || now - times[|times| - 1] > WINDOW
  }

  lemma FailureReflected(entries: map<string, LimitEntry>, key: string, times: seq<nat>, now: nat)
    requires Reflects(entries, key, times, now)
    ensures Reflects(Next(entries, Event(key, LoginFailed, now)), key, times + [now], now)
  {
    assert (times + [now])[..|times|] == times;
  }

  lemma {:induction false} TableReflectsHistory(history: seq<Event>, key: string, now: nat)
    requires Monotone(history) && UpTo(history, now)
    ensures Reflects(After(history), key, Failures(history, key), now)
  {
    if history != [] {
      var n := |history| - 1;
      var ev := history[n];
      TableReflectsHistory(history[..n], key, ev.at);
      if ev.key == key && ev.what == LoginFailed {
        FailureReflected(After(history[..n]), key, Failures(history[..n], key), ev.at);
      }
    }
  }

  /**
   The limiter refuses exactly when the current burst of a key has at least five failures and the last of them is at
   most a quarter of an hour old, for every history of calls on any keys under a clock that does not run backwards.
   */
  lemma LimiterFollowsHistory(history: seq<Event>, key: string, now: nat)
    requires Monotone(history) && UpTo(history, now)
    ensures Allowed(After(history), key, now) <==> !Blocked(history, key, now)
  {
    TableReflectsHistory(history, key, now);
  }

  /** The lock never changes an answer. */
  lemma LockNeverMatters(history: seq<Event>, key: string, now: nat)
    requires Monotone(history) && UpTo(history, now)
    ensures var unlocked := map k | k in After(history) :: After(history)[k].(lockedUntil := ZERO_TIME);
            Allowed(After(history), key, now) == Allowed(unlocked, key, now)
  {
    TableReflectsHistory(history, key, now);
  }
}
