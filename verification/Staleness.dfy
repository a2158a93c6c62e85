/** How old a served report can be when nothing about the cache is atomic: saves, key deletes (or
    their absence), recomputations and stores interleave in any order. */
module Staleness {
  import opened Common
  import opened Domain
  import opened Api
  import AT = ApiTheorems

  /** A reader that missed the cache and has queried the database, but not yet stored its report. */
  datatype Pending = Pending(organizationId: int, report: Report, readAt: int)

  datatype State = State(now: int, orders: map<int, WorkOrder>, cache: map<int, CacheEntry>, readers: map<int, Pending>)

  datatype Move =
    | Pass(seconds: nat)                            // time passes
    | Commit(orders: map<int, WorkOrder>)           // any commit to the work-order table
    | Drop(organizationId: int)                     // a KeyDelete takes effect; a lost one is no move at all
    | Hit(organizationId: int)                      // a reader finds a live entry
    | Read(reader: int, organizationId: int)        // a reader misses and recomputes
    | Store(reader: int, took: bool)                // its StringSet, effective or not
    | Abandon(reader: int)                          // its request dies in between

  /** `delay` bounds the time between a reader's query and its store. */
  predicate Legal(s: State, m: Move, delay: nat) {
    match m
    case Hit(org) => org in s.cache && s.now < s.cache[org].expiresAt
    case Store(k, _) => k in s.readers && s.now <= s.readers[k].readAt + delay
    case _ => true
  }

  function Step(s: State, m: Move, delay: nat): State
    requires Legal(s, m, delay)
  {
    match m
    case Pass(d) => s.(now := s.now + d)
    case Commit(orders) => s.(orders := orders)
    case Drop(org) => s.(cache := s.cache - {org})
    case Hit(_) => s
    case Read(k, org) => s.(readers := s.readers[k := Pending(org, Recompute(s.orders, org), s.now)])
    case Store(k, took) =>
      var p := s.readers[k];
      var s' := s.(readers := s.readers - {k});
      if took then s'.(cache := s.cache[p.organizationId := CacheEntry(p.report, s.now + CACHE_DURATION)]) else s'
    case Abandon(k) => s.(readers := s.readers - {k})
  }

  /** The organization asked about and the report a move hands to a client. */
  function Served(s: State, m: Move, delay: nat): Option<(int, Report)>
    requires Legal(s, m, delay)
  {
    match m
    case Hit(org) => Some((org, s.cache[org].report))
    case Store(k, took) => if took then Some((s.readers[k].organizationId, s.readers[k].report)) else None
    case _ => None
  }

  ghost predicate IsRun(t: seq<State>, moves: seq<Move>, delay: nat) {
    && |t| == |moves| + 1 && t[0].cache == map[] && t[0].readers == map[]
    && forall i :: 0 <= i < |moves| ==> Legal(t[i], moves[i], delay) && t[i + 1] == Step(t[i], moves[i], delay)
  }

  /** The report was the true count at some instant of the run's first k states, not before `since`. */
  ghost predicate TrueAt(t: seq<State>, k: nat, org: int, report: Report, since: int) {
    exists j :: 0 <= j <= k && j < |t| && since <= t[j].now && AT.CountsThese(report, t[j].orders, org)
  }

  lemma TrueLater(t: seq<State>, k: nat, k': nat, org: int, report: Report, since: int, since': int)
    requires TrueAt(t, k, org, report, since) && k <= k' && since' <= since
    ensures TrueAt(t, k', org, report, since')
  {
  }

  /** Every report in the cache or on its way there was true recently enough. */
  ghost predicate Backed(t: seq<State>, k: nat, delay: nat)
    requires k < |t|
  {
    && (forall org :: org in t[k].cache ==>
          TrueAt(t, k, org, t[k].cache[org].report, t[k].cache[org].expiresAt - CACHE_DURATION - delay))
    && (forall r :: r in t[k].readers ==>
          TrueAt(t, k, t[k].readers[r].organizationId, t[k].readers[r].report, t[k].readers[r].readAt))
  }

  lemma {:induction false} RunBacked(t: seq<State>, moves: seq<Move>, delay: nat, k: nat)
    requires IsRun(t, moves, delay) && k < |t|
    ensures Backed(t, k, delay)
  {
    if k > 0 {
      RunBacked(t, moves, delay, k - 1);
      var s, s', m := t[k - 1], t[k], moves[k - 1];
      assert s' == Step(s, m, delay);
      forall org | org in s'.cache
        ensures TrueAt(t, k, org, s'.cache[org].report, s'.cache[org].expiresAt - CACHE_DURATION - delay)
      {
        if m.Store? && m.took && org == s.readers[m.reader].organizationId {
          var p := s.readers[m.reader];
          TrueLater(t, k - 1, k, org, p.report, p.readAt, s'.cache[org].expiresAt - CACHE_DURATION - delay);
        } else {
          TrueLater(t, k - 1, k, org, s.cache[org].report, s.cache[org].expiresAt - CACHE_DURATION - delay,
                    s.cache[org].expiresAt - CACHE_DURATION - delay);
        }
      }
      forall r | r in s'.readers
        ensures TrueAt(t, k, s'.readers[r].organizationId, s'.readers[r].report, s'.readers[r].readAt)
      {
        if m.Read? && r == m.reader {
          AT.RecomputeCounts(s.orders, m.organizationId);
          assert s'.orders == t[k].orders && s'.now <= t[k].now;
        } else {
          TrueLater(t, k - 1, k, s.readers[r].organizationId, s.readers[r].report, s.readers[r].readAt,
                    s.readers[r].readAt);
        }
      }
    }
  }

  /** Bounded staleness: whatever invalidations are lost and however saves and deletes interleave, a
      report served at time T was the true count at some instant in [T - 30 - delay, T]; with
      recompute-and-store one step (delay zero), in [T - 30, T]. */
  lemma BoundedStaleness(t: seq<State>, moves: seq<Move>, delay: nat, k: nat)
    requires IsRun(t, moves, delay) && k < |moves| && Served(t[k], moves[k], delay).Some?
    ensures var (org, report) := Served(t[k], moves[k], delay).value;
            TrueAt(t, k, org, report, t[k].now - 30 - delay)
  {
    RunBacked(t, moves, delay, k);
    var s, m := t[k], moves[k];
    if m.Hit? {
      var e := s.cache[m.organizationId];
      TrueLater(t, k, k, m.organizationId, e.report, e.expiresAt - CACHE_DURATION - delay,
                s.now - CACHE_DURATION - delay);
    } else {
      var p := s.readers[m.reader];
      TrueLater(t, k, k, p.organizationId, p.report, p.readAt, s.now - CACHE_DURATION - delay);
    }
  }

  /** The bound is tight to the second: for every delay a run serves a report that has been false ever since
      29 seconds and that delay before. */
  lemma StalenessIsAttained(w: WorkOrder, delay: nat) returns (t: seq<State>, moves: seq<Move>)
    requires w.status.Open?
    ensures IsRun(t, moves, delay) && |t| == 7 && moves[5] == Hit(w.organizationId)
    ensures var served := Served(t[5], moves[5], delay);
            && served.Some? && served.value.0 == w.organizationId
            && TrueAt(t, 5, w.organizationId, served.value.1, t[5].now - 29 - delay)
            && !TrueAt(t, 5, w.organizationId, served.value.1, t[5].now - 28 - delay)
  {
    var org := w.organizationId;
    var later := w.(status := Assigned);
    var s0 := State(0, map[1 := w], map[], map[]);
    moves := [Read(7, org), Commit(map[1 := later]), Pass(delay), Store(7, true), Pass(29), Hit(org)];
    var s1 := Step(s0, moves[0], delay);
    var s2 := Step(s1, moves[1], delay);
    var s3 := Step(s2, moves[2], delay);
    var s4 := Step(s3, moves[3], delay);
    var s5 := Step(s4, moves[4], delay);
    t := [s0, s1, s2, s3, s4, s5, Step(s5, moves[5], delay)];
    var report := Recompute(s0.orders, org);
    AT.RecomputeCounts(s0.orders, org);
    OneOrder(w, report);
    AssignedIsNotOpen(later, report);
    assert TrueAt(t, 5, org, report, 0) by { assert t[0].now == 0; }
  }

  lemma OneOrder(w: WorkOrder, report: Report)
    requires w.status.Open? && AT.CountsThese(report, map[1 := w], w.organizationId)
    ensures report.openCount == 1
  {
    var orders := map[1 := w];
    assert (set id | id in orders && orders[id].organizationId == w.organizationId && orders[id].status == Status.Open)
           == {1};
  }

  lemma AssignedIsNotOpen(w: WorkOrder, report: Report)
    requires w.status.Assigned? && report.openCount == 1
    ensures !AT.CountsThese(report, map[1 := w], w.organizationId)
  {
    var orders := map[1 := w];
    assert (set id | id in orders && orders[id].organizationId == w.organizationId && orders[id].status == Status.Open)
           == {};
  }

  // ---------- exactly when a cached report is right ----------

  ghost predicate Right(s: State, org: int)
    requires org in s.cache
  {
    s.cache[org].report == Recompute(s.orders, org)
  }

  /** Reader r's query at step i is the one behind state k: it has not queried again, stored or gone since. */
  ghost predicate Outstanding(moves: seq<Move>, i: nat, k: nat, r: int, org: int) {
    && i < k <= |moves| && moves[i] == Read(r, org)
    && forall j :: i < j < k ==> moves[j] != Abandon(r) && !(moves[j].Read? && moves[j].reader == r)
                                 && !(moves[j].Store? && moves[j].reader == r)
  }

  lemma {:induction false} OutstandingHolds(t: seq<State>, moves: seq<Move>, delay: nat, i: nat, k: nat, r: int,
                                            org: int)
    requires IsRun(t, moves, delay) && Outstanding(moves, i, k, r, org)
    ensures r in t[k].readers && t[k].readers[r].organizationId == org
    ensures t[k].readers[r].report == Recompute(t[i].orders, org)
    decreases k
  {
    hide Recompute;
    assert Legal(t[k - 1], moves[k - 1], delay) && t[k] == Step(t[k - 1], moves[k - 1], delay);
    if i < k - 1 { OutstandingHolds(t, moves, delay, i, k - 1, r, org); }
  }

  /** A store leaves a right report if and only if the counts are still what its query found. */
  lemma StoreIsRightIff(t: seq<State>, moves: seq<Move>, delay: nat, i: nat, k: nat, r: int, org: int)
    requires IsRun(t, moves, delay) && k < |moves| && moves[k] == Store(r, true) && Outstanding(moves, i, k, r, org)
    ensures org in t[k + 1].cache
    ensures Right(t[k + 1], org) <==> Recompute(t[i].orders, org) == Recompute(t[k].orders, org)
  {
    OutstandingHolds(t, moves, delay, i, k, r, org);
    assert Legal(t[k], moves[k], delay) && t[k + 1] == Step(t[k], moves[k], delay);
    hide Recompute;
  }

  /** Where a cached report comes from: reader r queried at step i and stored at step j, and no delete of
      the key has taken effect since the store. */
  ghost predicate ComesFrom(moves: seq<Move>, i: nat, j: nat, k: nat, r: int, org: int) {
    && j < k <= |moves| && Outstanding(moves, i, j, r, org) && moves[j] == Store(r, true)
    && forall l :: j < l < k ==> moves[l] != Drop(org)
  }

  /** Some query is behind every reader still to store. */
  lemma {:induction false} ReaderOrigin(t: seq<State>, moves: seq<Move>, delay: nat, k: nat, r: int) returns (i: nat)
    requires IsRun(t, moves, delay) && k < |t| && r in t[k].readers
    ensures Outstanding(moves, i, k, r, t[k].readers[r].organizationId)
    decreases k
  {
    hide Recompute;
    var s, m := t[k - 1], moves[k - 1];
    assert Legal(s, m, delay) && t[k] == Step(s, m, delay);
    if m.Read? && m.reader == r {
      i := k - 1;
    } else {
      i := ReaderOrigin(t, moves, delay, k - 1, r);
    }
  }

  lemma {:induction false} CacheOrigin(t: seq<State>, moves: seq<Move>, delay: nat, k: nat, org: int)
    returns (i: nat, j: nat, r: int)
    requires IsRun(t, moves, delay) && k < |t| && org in t[k].cache
    ensures ComesFrom(moves, i, j, k, r, org) && t[k].cache[org].report == Recompute(t[i].orders, org)
    decreases k
  {
    hide Recompute;
    var s, m := t[k - 1], moves[k - 1];
    assert Legal(s, m, delay) && t[k] == Step(s, m, delay);
    if m.Store? && m.took && s.readers[m.reader].organizationId == org {
      j, r := k - 1, m.reader;
      i := ReaderOrigin(t, moves, delay, k - 1, r);
      OutstandingHolds(t, moves, delay, i, k - 1, r, org);
    } else {
      i, j, r := CacheOrigin(t, moves, delay, k - 1, org);
    }
  }

  /** A cached report is right, in any state, if and only if the counts at its query are still the counts. */
  lemma CachedIsRightIff(t: seq<State>, moves: seq<Move>, delay: nat, k: nat, org: int) returns (i: nat, j: nat, r: int)
    requires IsRun(t, moves, delay) && k < |t| && org in t[k].cache
    ensures ComesFrom(moves, i, j, k, r, org)
    ensures Right(t[k], org) <==> Recompute(t[i].orders, org) == Recompute(t[k].orders, org)
  {
    i, j, r := CacheOrigin(t, moves, delay, k, org);
    hide Recompute;
  }

  // ---------- when no delete is outstanding ----------

  ghost predicate ChangesCounts(t: seq<State>, j: nat, org: int)
    requires j + 1 < |t|
  {
    Recompute(t[j + 1].orders, org) != Recompute(t[j].orders, org)
  }

  ghost predicate DroppedBetween(moves: seq<Move>, i: int, k: nat, org: int)
    requires k <= |moves|
  {
    exists l :: 0 <= l && i <= l < k && moves[l] == Drop(org)
  }

  /** Every commit so far that changed the organization's counts has had its key deleted since: no delete
      is lost, and none is still to come. */
  ghost predicate Quiet(t: seq<State>, moves: seq<Move>, k: nat, org: int)
    requires |t| == |moves| + 1 && k <= |moves|
  {
    forall j :: 0 <= j < k && ChangesCounts(t, j, org) ==> DroppedBetween(moves, j + 1, k, org)
  }

  /** With no delete of the key since step i, and none outstanding, the counts are those of step i. */
  lemma {:induction false} SameCounts(t: seq<State>, moves: seq<Move>, i: nat, j: nat, k: nat, org: int)
    requires |t| == |moves| + 1 && i <= j <= k <= |moves| && Quiet(t, moves, k, org)
             && !DroppedBetween(moves, i, k, org)
    ensures Recompute(t[i].orders, org) == Recompute(t[j].orders, org)
    decreases j
  {
    hide Recompute;
    if i < j {
      SameCounts(t, moves, i, j - 1, k, org);
      assert ChangesCounts(t, j - 1, org) ==> DroppedBetween(moves, j, k, org);
    }
  }

  /** A store is right if no delete of its key has taken effect since its query, and none is outstanding. */
  lemma NoDeleteSinceQueryIsRight(t: seq<State>, moves: seq<Move>, delay: nat, i: nat, k: nat, r: int, org: int)
    requires IsRun(t, moves, delay) && k < |moves| && moves[k] == Store(r, true) && Outstanding(moves, i, k, r, org)
    requires Quiet(t, moves, k, org) && !DroppedBetween(moves, i, k, org)
    ensures org in t[k + 1].cache && Right(t[k + 1], org)
  {
    StoreIsRightIff(t, moves, delay, i, k, r, org);
    SameCounts(t, moves, i, k, k, org);
  }

  /** Every store that takes effect has seen no delete of its key since its query: a guard a reader could check. */
  ghost predicate Guarded(moves: seq<Move>) {
    forall i: nat, k: nat, r, org :: k < |moves| && moves[k] == Store(r, true) && Outstanding(moves, i, k, r, org) ==>
      !DroppedBetween(moves, i, k, org)
  }

  /** With every store guarded, the cache is coherent for an organization in every state in which none of
      its deletes is outstanding, however everything else interleaves. */
  lemma GuardedCacheIsCoherent(t: seq<State>, moves: seq<Move>, delay: nat, k: nat, org: int)
    requires IsRun(t, moves, delay) && Guarded(moves) && k < |t| && org in t[k].cache && Quiet(t, moves, k, org)
    ensures Right(t[k], org)
  {
    hide Recompute, Quiet;
    var i, j, r := CachedIsRightIff(t, moves, delay, k, org);
    NoDropSinceQuery(moves, i, j, k, r, org);
    SameCounts(t, moves, i, k, k, org);
  }

  lemma NoDropSinceQuery(moves: seq<Move>, i: nat, j: nat, k: nat, r: int, org: int)
    requires ComesFrom(moves, i, j, k, r, org) && Guarded(moves)
    ensures !DroppedBetween(moves, i, k, org)
  {
    assert !DroppedBetween(moves, i, j, org);
  }

  /** If every commit that changes counts is followed at once by its delete, nothing is outstanding but
      between the two. */
  lemma DropAtOnceIsQuiet(t: seq<State>, moves: seq<Move>, k: nat, org: int)
    requires |t| == |moves| + 1 && k <= |moves| && (k < |moves| ==> moves[k] != Drop(org))
    requires forall j :: 0 <= j < |moves| && ChangesCounts(t, j, org) ==> j + 1 < |moves| && moves[j + 1] == Drop(org)
    ensures Quiet(t, moves, k, org)
  {
    forall j | 0 <= j < k && ChangesCounts(t, j, org) ensures DroppedBetween(moves, j + 1, k, org) {
      assert moves[j + 1] == Drop(org);
    }
  }

  /** Coherence itself does not survive this interleaving: a reader may store a count taken before a
      commit whose key delete has already happened. */
  lemma StoreAfterDropIsStale(w: WorkOrder) returns (t: seq<State>, moves: seq<Move>)
    requires w.status.Open?
    ensures var org := w.organizationId;
            && IsRun(t, moves, 0) && |t| == 5 && moves[2] == Drop(org)
            && org in t[4].cache && t[4].cache[org].report != Recompute(t[4].orders, org)
  {
    var org := w.organizationId;
    var s0 := State(0, map[1 := w], map[], map[]);
    moves := [Read(7, org), Commit(map[1 := w.(status := Assigned)]), Drop(org), Store(7, true)];
    var s1 := Step(s0, moves[0], 0);
    var s2 := Step(s1, moves[1], 0);
    var s3 := Step(s2, moves[2], 0);
    var s4 := Step(s3, moves[3], 0);
    t := [s0, s1, s2, s3, s4];
    assert 1 in InStatus(s0.orders, org, Open) && InStatus(s4.orders, org, Open) == {};
  }
}
