/** The sliding-window limiter of internal/httpapi/server.go as a specification on sequences of instants. */
module SlidingWindow {

  /** The entries a compaction keeps. */
  function Recent(s: seq<int>, cutoff: int): (r: seq<int>)
    ensures |r| <= |s|
  {
    if s == [] then []
    else Recent(s[..|s| - 1], cutoff) + (if s[|s| - 1] > cutoff then [s[|s| - 1]] else [])
  }

  /** How many entries lie in (t - window, t]. */
  function InWindow(s: seq<int>, t: int, window: int): nat {
    if s == [] then 0
    else InWindow(s[..|s| - 1], t, window) + (if t - window < s[|s| - 1] <= t then 1 else 0)
  }

  lemma RecentNext(s: seq<int>, i: nat, cutoff: int)
    requires i < |s|
    ensures Recent(s[..i + 1], cutoff) == Recent(s[..i], cutoff) + (if s[i] > cutoff then [s[i]] else [])
  {
    assert s[..i + 1][..i] == s[..i];
  }

  /** Forgetting with an earlier cutoff first loses nothing for a later one. */
  lemma {:induction false} RecentAfterRecent(s: seq<int>, earlier: int, later: int)
    requires earlier <= later
    ensures Recent(Recent(s, earlier), later) == Recent(s, later)
  {
    if s != [] {
      var front, last := s[..|s| - 1], s[|s| - 1];
      RecentAfterRecent(front, earlier, later);
      if last > earlier {
        var kept := Recent(front, earlier) + [last];
        assert kept[..|kept| - 1] == Recent(front, earlier);
      } else {
        assert Recent(front, earlier) + [] == Recent(front, earlier);
      }
    }
  }

  lemma {:induction false} RecentShrinks(s: seq<int>, earlier: int, later: int)
    requires earlier <= later
    ensures |Recent(s, later)| <= |Recent(s, earlier)|
  {
    if s != [] {
      RecentShrinks(s[..|s| - 1], earlier, later);
    }
  }

  ghost predicate NoneAfter(s: seq<int>, t: int) {
    forall i :: 0 <= i < |s| ==> s[i] <= t
  }

  /** When nothing lies in the future, the kept entries are the window's entries. */
  lemma {:induction false} RecentIsWindow(s: seq<int>, t: int, window: int)
    requires NoneAfter(s, t)
    ensures |Recent(s, t - window)| == InWindow(s, t, window)
  {
    if s != [] {
      RecentIsWindow(s[..|s| - 1], t, window);
    }
  }

  lemma {:induction false} WindowWithin(s: seq<int>, t: int, window: int)
    ensures InWindow(s, t, window) <= |Recent(s, t - window)|
  {
    if s != [] {
      WindowWithin(s[..|s| - 1], t, window);
    }
  }

  ghost predicate Bounded(s: seq<int>, limit: nat, window: int) {
    forall t :: InWindow(s, t, window) <= limit
  }

  /** A grant given to a window that is not full overfills no window at all. */
  lemma GrantKeepsBound(s: seq<int>, now: int, limit: nat, window: int)
    requires Bounded(s, limit, window) && NoneAfter(s, now)
    requires InWindow(s, now, window) < limit
    ensures Bounded(s + [now], limit, window)
  {
    forall t ensures InWindow(s + [now], t, window) <= limit {
      assert (s + [now])[..|s|] == s;
      if t >= now {
        RecentIsWindow(s, now, window);
        RecentShrinks(s, now - window, t - window);
        WindowWithin(s, t, window);
      }
    }
  }

  /** One call: compact, then grant when there is room. */
  function Call(kept: seq<int>, now: int, limit: nat, window: int): (bool, seq<int>) {
    var recent := Recent(kept, now - window);
    if |recent| >= limit then (false, recent) else (true, recent + [now])
  }

  /** What the kept entries have to do with all grants so far, given the last instant seen. */
  ghost predicate Tracks(kept: seq<int>, grants: seq<int>, last: int, limit: nat, window: int) {
    && (exists cutoff :: cutoff <= last - window && kept == Recent(grants, cutoff))
    && NoneAfter(grants, last)
    && Bounded(grants, limit, window)
  }

  /** Before its first call a client has no grants and nothing is kept. */
  lemma NothingTracked(now: int, limit: nat, window: int)
    ensures Tracks([], [], now, limit, window)
  {
    assert [] == Recent([], now - window);
  }

  /** With clocks that do not run backwards a call is granted exactly when the
      window ending now has room, and every window stays within the limit. */
  lemma CallTracks(kept: seq<int>, grants: seq<int>, last: int, now: int, limit: nat, window: int)
    requires Tracks(kept, grants, last, limit, window) && last <= now && window > 0
    ensures var (granted, kept') := Call(kept, now, limit, window);
            && (granted <==> InWindow(grants, now, window) < limit)
            && Tracks(kept', if granted then grants + [now] else grants, now, limit, window)
  {
    var cutoff :| cutoff <= last - window && kept == Recent(grants, cutoff);
    RecentAfterRecent(grants, cutoff, now - window);
    RecentIsWindow(grants, now, window);
    var (granted, kept') := Call(kept, now, limit, window);
    if granted {
      GrantKeepsBound(grants, now, limit, window);
      assert (grants + [now])[..|grants|] == grants;
      assert kept' == Recent(grants + [now], now - window);
    } else {
      assert kept' == Recent(grants, now - window);
    }
  }

  // ---- Whole histories of calls ----

  /** The grants given to a series of calls, in call order, and the entries kept at the end. */
  function Run(calls: seq<int>, limit: nat, window: int): (seq<int>, seq<int>) {
    if calls == [] then ([], [])
    else
      var (grants, kept) := Run(calls[..|calls| - 1], limit, window);
      var now := calls[|calls| - 1];
      var (granted, kept') := Call(kept, now, limit, window);
      (if granted then grants + [now] else grants, kept')
  }

  lemma EmptyRun(limit: nat, window: int)
    ensures Run([], limit, window) == ([], [])
  {
  }

  lemma RunNext(calls: seq<int>, now: int, limit: nat, window: int)
    ensures var (grants, kept) := Run(calls, limit, window);
            var (granted, kept') := Call(kept, now, limit, window);
            Run(calls + [now], limit, window) == (if granted then grants + [now] else grants, kept')
  {
    assert (calls + [now])[..|calls|] == calls;
  }

  /** No call carries an instant more than `d` before that of a call already made. */
  ghost predicate LateBy(calls: seq<int>, d: nat) {
    forall i, j :: 0 <= i < j < |calls| ==> calls[i] - d <= calls[j]
  }

  /** When instants do not decrease in lock order, what is kept after any calls tells all grants apart from the
      forgotten ones. */
  lemma {:induction false} OrderedRunTracks(calls: seq<int>, last: int, limit: nat, window: int)
    requires LateBy(calls, 0) && window > 0
    requires calls != [] ==> calls[|calls| - 1] <= last
    ensures var (grants, kept) := Run(calls, limit, window); Tracks(kept, grants, last, limit, window)
  {
    if calls == [] {
      NothingTracked(last, limit, window);
    } else {
      var front, now := calls[..|calls| - 1], calls[|calls| - 1];
      OrderedRunTracks(front, now, limit, window);
      var (grants, kept) := Run(front, limit, window);
      CallTracks(kept, grants, now, now, limit, window);
      var (granted, kept') := Call(kept, now, limit, window);
      TracksLater(kept', if granted then grants + [now] else grants, now, last, limit, window);
    }
  }

  lemma TracksLater(kept: seq<int>, grants: seq<int>, last: int, later: int, limit: nat, window: int)
    requires Tracks(kept, grants, last, limit, window) && last <= later
    ensures Tracks(kept, grants, later, limit, window)
  {
    var cutoff :| cutoff <= last - window && kept == Recent(grants, cutoff);
    assert cutoff <= later - window;
  }

  /** Calls in order are granted exactly when the window ending now has room for one more grant. */
  lemma OrderedCallGrantedIff(calls: seq<int>, now: int, limit: nat, window: int)
    requires LateBy(calls + [now], 0) && window > 0
    ensures var (grants, kept) := Run(calls, limit, window);
            Call(kept, now, limit, window).0 <==> InWindow(grants, now, window) < limit
  {
    var all := calls + [now];
    forall i, j | 0 <= i < j < |calls| ensures calls[i] <= calls[j] {
      assert all[i] - 0 <= all[j];
    }
    assert calls != [] ==> all[|calls| - 1] - 0 <= all[|calls|];
    OrderedRunTracks(calls, now, limit, window);
    var (grants, kept) := Run(calls, limit, window);
    CallTracks(kept, grants, now, now, limit, window);
  }

  // ---- A limit of one ----

  /** Each entry comes a whole window after everything before it. */
  ghost predicate Spaced(s: seq<int>, window: int) {
    forall i, j :: 0 <= i < j < |s| ==> s[i] <= s[j] - window
  }

  lemma {:induction false} NoneInWindow(s: seq<int>, t: int, window: int)
    requires NoneAfter(s, t - window)
    ensures InWindow(s, t, window) == 0
  {
    if s != [] {
      NoneInWindow(s[..|s| - 1], t, window);
    }
  }

  lemma {:induction false} SpacedHoldsOne(s: seq<int>, t: int, window: int)
    requires Spaced(s, window) && window > 0
    ensures InWindow(s, t, window) <= 1
  {
    if s != [] {
      var front, last := s[..|s| - 1], s[|s| - 1];
      if t - window < last <= t {
        NoneInWindow(front, t, window);
      } else {
        SpacedHoldsOne(front, t, window);
      }
    }
  }

  /** With a limit of one the last grant is never forgotten before the next, whatever the instants are. */
  lemma {:induction false} LimitOneSpacesGrants(calls: seq<int>, window: int)
    requires window > 0
    ensures var (grants, kept) := Run(calls, 1, window);
            && Spaced(grants, window)
            && kept == if grants == [] then [] else [grants[|grants| - 1]]
  {
    hide Call, Spaced;
    if calls == [] {
      NoneSpaced(window);
    } else {
      var front, now := calls[..|calls| - 1], calls[|calls| - 1];
      LimitOneSpacesGrants(front, window);
      var (grants, kept) := Run(front, 1, window);
      OneGrantIsKept(grants, kept, now, window);
    }
  }

  lemma NoneSpaced(window: int)
    ensures Spaced([], window)
  {
  }

  lemma OneGrantIsKept(grants: seq<int>, kept: seq<int>, now: int, window: int)
    requires window > 0 && Spaced(grants, window)
    requires kept == if grants == [] then [] else [grants[|grants| - 1]]
    ensures var (granted, kept') := Call(kept, now, 1, window);
            && Spaced(if granted then grants + [now] else grants, window)
            && (granted || grants != [])
            && kept' == if granted then [now] else [grants[|grants| - 1]]
  {
    assert kept != [] ==> kept[..0] == [];
  }

  lemma {:induction false} LimitZeroGrantsNothing(calls: seq<int>, window: int)
    ensures Run(calls, 0, window).0 == []
  {
    if calls != [] {
      LimitZeroGrantsNothing(calls[..|calls| - 1], window);
    }
  }

  lemma LowLimitsHold(calls: seq<int>, limit: nat, window: int)
    requires limit <= 1 && window > 0
    ensures Bounded(Run(calls, limit, window).0, limit, window)
  {
    if limit == 0 {
      LimitZeroGrantsNothing(calls, window);
    } else {
      LimitOneSpacesGrants(calls, window);
      forall t ensures InWindow(Run(calls, limit, window).0, t, window) <= limit {
        SpacedHoldsOne(Run(calls, limit, window).0, t, window);
      }
    }
  }

  // ---- One late call ----

  function Zeros(n: nat): (r: seq<int>)
    ensures |r| == n && forall i :: 0 <= i < n ==> r[i] == 0
  {
    if n == 0 then [] else Zeros(n - 1) + [0]
  }

  lemma {:induction false} RecentZeros(n: nat, cutoff: int)
    ensures Recent(Zeros(n), cutoff) == if cutoff < 0 then Zeros(n) else []
  {
    if n > 0 {
      RecentZeros(n - 1, cutoff);
      assert Zeros(n)[..n - 1] == Zeros(n - 1);
    }
  }

  lemma {:induction false} RunZeros(n: nat, limit: nat, window: int)
    requires n <= limit && window > 0
    ensures Run(Zeros(n), limit, window) == (Zeros(n), Zeros(n))
  {
    if n > 0 {
      var before := Zeros(n - 1);
      RunZeros(n - 1, limit, window);
      RecentZeros(n - 1, -window);
      assert Call(before, 0, limit, window) == (true, before + [0]);
      RunNext(before, 0, limit, window);
      assert Zeros(n) == before + [0];
    }
  }

  lemma {:induction false} WindowOfZeros(n: nat, t: int, window: int)
    requires t - window < 0 <= t
    ensures InWindow(Zeros(n), t, window) == n
  {
    if n > 0 {
      WindowOfZeros(n - 1, t, window);
      assert Zeros(n)[..n - 1] == Zeros(n - 1);
    }
  }

  /** As many calls as the limit allows, one a window later, and one that took its instant just before that one did. */
  function OneLateCall(limit: nat, window: int): seq<int> {
    Zeros(limit) + [window] + [window - 1]
  }

  lemma LateCallIsGranted(limit: nat, window: int)
    requires limit >= 2 && window > 0
    ensures Run(OneLateCall(limit, window), limit, window).0 == OneLateCall(limit, window)
  {
    var first, second := Zeros(limit), Zeros(limit) + [window];
    RunZeros(limit, limit, window);
    RecentZeros(limit, 0);
    assert Call(first, window, limit, window) == (true, [] + [window]);
    RunNext(first, window, limit, window);
    assert [] + [window] == [window] && Recent([window], -1) == [window];
    assert Run(second, limit, window) == (second, [window]);
    RunNext(second, window - 1, limit, window);
  }

  /** One call late by a single unit of time already overfills a window, if the limit is above one. */
  lemma OneLateCallBreaksBound(limit: nat, window: int)
    requires limit >= 2 && window > 0
    ensures LateBy(OneLateCall(limit, window), 1)
    ensures InWindow(Run(OneLateCall(limit, window), limit, window).0, window - 1, window) == limit + 1
  {
    LateCallIsGranted(limit, window);
    var all := OneLateCall(limit, window);
    assert all[..|all| - 1] == Zeros(limit) + [window] && (Zeros(limit) + [window])[..limit] == Zeros(limit);
    WindowOfZeros(limit, window - 1, window);
  }

  /** Every history whose calls are late by at most `d` keeps the bound. */
  ghost predicate BoundKept(d: nat, limit: nat, window: int) {
    forall calls :: LateBy(calls, d) ==> Bounded(Run(calls, limit, window).0, limit, window)
  }

  /** The bound holds in all histories exactly when no call may be late at all, or the limit
      is at most one: the instant is taken before the lock, so calls can reach the lock out of
      order, and a later call's compaction forgets what an earlier instant still has to count. */
  lemma BoundHoldsIff(d: nat, limit: nat, window: int)
    requires window > 0
    ensures BoundKept(d, limit, window) <==> d == 0 || limit <= 1
  {
    if limit <= 1 {
      forall calls | LateBy(calls, d) ensures Bounded(Run(calls, limit, window).0, limit, window) {
        LowLimitsHold(calls, limit, window);
      }
    } else if d == 0 {
      forall calls | LateBy(calls, 0) ensures Bounded(Run(calls, limit, window).0, limit, window) {
        OrderedRunTracks(calls, if calls == [] then 0 else calls[|calls| - 1], limit, window);
      }
    } else {
      OneLateCallBreaksBound(limit, window);
      assert LateBy(OneLateCall(limit, window), d);
      assert !Bounded(Run(OneLateCall(limit, window), limit, window).0, limit, window);
    }
  }
}

/** The limiter itself: one slice of instants per client address, compacted in place. */
module RateLimiter {
  import opened SlidingWindow

  const NANOSECONDS_PER_MINUTE := 60_000_000_000
  const NANOSECONDS_PER_HOUR := 60 * NANOSECONDS_PER_MINUTE

  /** A Go slice: the first `len` elements of a backing array. */
  datatype Slice = Slice(data: array<int>, len: nat)

  class Limiter {
    const limit: nat
    const window: int
    var clients: map<string, Slice>
    ghost var calls: map<string, seq<int>>

    ghost function Arrays(): set<object>
      reads this
    {
      set ip | ip in clients :: clients[ip].data
    }

    /** The instants of all calls of a client, in the order in which they took the lock. */
    ghost function Calls(ip: string): seq<int>
      reads this
    {
      if ip in calls then calls[ip] else []
    }

    /** All grants ever given to a client. */
    ghost function Grants(ip: string): seq<int>
      reads this
    {
      Run(Calls(ip), limit, window).0
    }

    ghost predicate Faithful(slice: Slice, history: seq<int>)
      reads slice.data
    {
      slice.len <= slice.data.Length && slice.data[..slice.len] == Run(history, limit, window).1
    }

    ghost predicate Valid()
      reads this, Arrays()
    {
      && window > 0
      && clients.Keys == calls.Keys
      && (forall ip, jp :: ip in clients && jp in clients && ip != jp ==> clients[ip].data != clients[jp].data)
      && (forall ip :: ip in clients ==> Faithful(clients[ip], calls[ip]))
    }

    constructor GuestIssues()
      ensures Valid() && limit == 12 && window == 3_600_000_000_000 && clients == map[]
    {
      limit, window := 12, NANOSECONDS_PER_HOUR;
      clients, calls := map[], map[];
    }

    constructor AgentChat()
      ensures Valid() && limit == 30 && window == 60_000_000_000 && clients == map[]
    {
      limit, window := 30, NANOSECONDS_PER_MINUTE;
      clients, calls := map[], map[];
    }

    /** Compacts a slice over its own backing array, writing behind the reading position. */
    method Compact(slice: Slice, cutoff: int) returns (n: nat)
      requires slice.len <= slice.data.Length
      modifies slice.data
      ensures n <= slice.len
      ensures slice.data[..n] == Recent(old(slice.data[..slice.len]), cutoff)
    {
      ghost var was := slice.data[..slice.len];
      n := 0;
      for i := 0 to slice.len
        invariant n <= i
        invariant slice.data[..n] == Recent(was[..i], cutoff)
        invariant forall k :: i <= k < slice.len ==> slice.data[k] == was[k]
      {
        RecentNext(was, i, cutoff);
        var at := slice.data[i];
        if at > cutoff {
          slice.data[n] := at;
          n := n + 1;
        }
      }
      assert was[..slice.len] == was;
    }

    /** Go's append of one element: in place while there is capacity, else into a larger array. */
    method Append(data: array<int>, n: nat, x: int) returns (slice: Slice)
      requires n <= data.Length
      modifies data
      ensures slice.len == n + 1 <= slice.data.Length
      ensures slice.data == data || fresh(slice.data)
      ensures slice.data[..slice.len] == old(data[..n]) + [x]
    {
      if n < data.Length {
        data[n] := x;
        return Slice(data, n + 1);
      }
      var grown := new int[2 * n + 1];
      for i := 0 to n
        invariant grown[..i] == data[..i]
        invariant data[..] == old(data[..])
      {
        grown[i] := data[i];
      }
      grown[n] := x;
      slice := Slice(grown, n + 1);
    }

    /** The slice work of one call: compaction, then an append when there is room. */
    method AllowIn(slice: Slice, now: int) returns (ok: bool, next: Slice)
      requires slice.len <= slice.data.Length
      modifies slice.data
      ensures next.len <= next.data.Length && (next.data == slice.data || fresh(next.data))
      ensures (ok, next.data[..next.len]) == Call(old(slice.data[..slice.len]), now, limit, window)
    {
      var n := Compact(slice, now - window);
      if n >= limit {
        return false, Slice(slice.data, n);
      }
      next := Append(slice.data, n, now);
      ok := true;
    }

    /** One call, whatever its instant: granted or refused as the history of the client's calls
        says, and, when those calls are in order, exactly as the window ending now has room or not. */
    method Allow(ip: string, now: int) returns (ok: bool)
      requires Valid()
      modifies this, if ip in clients then {clients[ip].data} else {}
      ensures Valid()
      ensures calls == old(calls)[ip := old(Calls(ip)) + [now]]
      ensures Grants(ip) == if ok then old(Grants(ip)) + [now] else old(Grants(ip))
      ensures LateBy(Calls(ip), 0) ==> (ok <==> InWindow(old(Grants(ip)), now, window) < limit)
    {
      hide Call, InWindow, Run;
      ghost var history := Calls(ip);
      var slice: Slice;
      if ip in clients {
        slice := clients[ip];
      } else {
        var empty := new int[0];
        slice := Slice(empty, 0);
        EmptyRun(limit, window);
        assert slice.data[..0] == [];
      }
      assert Faithful(slice, history);
      RunNext(history, now, limit, window);
      if LateBy(history + [now], 0) {
        OrderedCallGrantedIff(history, now, limit, window);
      }
      ok, slice := AllowIn(slice, now);
      assert calls == old(calls) && clients == old(clients);
      assert forall other :: other in clients && other != ip ==> slice.data != clients[other].data;
      assert forall other :: other in clients && other != ip ==> Faithful(clients[other], calls[other]);
      Record(ip, slice, history + [now]);
    }

    method Record(ip: string, slice: Slice, ghost history: seq<int>)
      requires window > 0 && clients.Keys == calls.Keys
      requires forall i, j :: i in clients && j in clients && i != j ==> clients[i].data != clients[j].data
      requires forall other :: other in clients && other != ip ==>
                 slice.data != clients[other].data && Faithful(clients[other], calls[other])
      requires Faithful(slice, history)
      modifies this
      ensures Valid() && calls == old(calls)[ip := history] && clients == old(clients)[ip := slice]
    {
      clients := clients[ip := slice];
      calls := calls[ip := history];
    }

    /** For every client whose calls took the lock in order, and every instant, the window
        ending there holds at most `limit` grants. */
    lemma EveryWindowBounded(ip: string, t: int)
      requires Valid() && LateBy(Calls(ip), 0)
      ensures InWindow(Grants(ip), t, window) <= limit
    {
      OrderedRunTracks(Calls(ip), if Calls(ip) == [] then 0 else Calls(ip)[|Calls(ip)| - 1], limit, window);
    }
  }
}
