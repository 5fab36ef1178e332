/** The audit export: pages of events by increasing id after an exclusive cursor, pulled by a
    loop, while the log may grow. Events stand for their ids. */
module AuditExport {
  import opened Options

  type Id = nat

  /** Ids start at 1 and increase, so a cursor of 0 is the same as none. */
  predicate IsLog(log: seq<Id>) {
    (log != [] ==> log[0] >= 1) && forall i, j :: 0 <= i < j < |log| ==> log[i] < log[j]
  }

  /** How many events have an id at or below `after`. */
  function Cut(log: seq<Id>, after: Id): (k: nat)
    ensures k <= |log|
  {
    if log == [] || log[0] > after then 0 else 1 + Cut(log[1..], after)
  }

  /** The events after the cursor. */
  function Since(log: seq<Id>, after: Id): seq<Id> {
    log[Cut(log, after)..]
  }

  /** One response of the server: at most `limit` events after the cursor, and the id of the
      last one, null when there is none. */
  function Page(log: seq<Id>, after: Id, limit: nat): (seq<Id>, Option<Id>) {
    var rest := Since(log, after);
    var events := if |rest| <= limit then rest else rest[..limit];
    (events, if events == [] then None else Some(events[|events| - 1]))
  }

  lemma {:induction false} CutSplits(log: seq<Id>, after: Id)
    requires IsLog(log)
    ensures forall i :: 0 <= i < |log| ==> (log[i] <= after <==> i < Cut(log, after))
  {
    if log != [] && log[0] <= after {
      CutSplits(log[1..], after);
      forall i | 0 <= i < |log| ensures log[i] <= after <==> i < Cut(log, after) {
        assert i > 0 ==> log[i] == log[1..][i - 1];
      }
    }
  }

  lemma CutAt(log: seq<Id>, k: nat)
    requires IsLog(log) && 0 < k <= |log|
    ensures Cut(log, log[k - 1]) == k
  {
    CutSplits(log, log[k - 1]);
  }

  /** A page is a stretch of the log that starts at the cursor and ends at the next one. */
  lemma PageIsStretch(log: seq<Id>, after: Id, limit: nat)
    requires IsLog(log) && limit >= 1
    ensures var (events, next) := Page(log, after, limit);
            var c := Cut(log, after);
            && (next.None? <==> c == |log|) && (next.None? ==> events == [])
            && (next.Some? ==> c < Cut(log, next.value) && events == log[c..Cut(log, next.value)])
  {
    var c := Cut(log, after);
    var (events, next) := Page(log, after, limit);
    if next.Some? {
      assert events == log[c..c + |events|];
      CutAt(log, c + |events|);
    }
  }

  /** A page holds the first events with an id above the cursor, in the order of the log: `limit` of
      them, or all there are. */
  lemma PageExactly(log: seq<Id>, after: Id, limit: nat)
    requires IsLog(log) && limit >= 1
    ensures var (events, next) := Page(log, after, limit);
            var rest := Since(log, after);
            && events <= rest && |events| == (if |rest| < limit then |rest| else limit)
            && next == (if events == [] then None else Some(events[|events| - 1]))
            && rest == log[|log| - |rest|..] && forall id :: id in rest <==> id in log && id > after
  {
    CutSplits(log, after);
    var c := Cut(log, after);
    forall id | id in log && id > after ensures id in Since(log, after) {
      var i :| 0 <= i < |log| && log[i] == id;
      assert Since(log, after)[i - c] == id;
    }
  }

  lemma Stretches(log: seq<Id>, a: nat, b: nat, c: nat)
    requires a <= b <= c <= |log|
    ensures log[a..b] + log[b..c] == log[a..c] && log[a..b] + log[b..] == log[a..]
  {
  }

  /** runAuditExport against a log that does not change meanwhile: with `all` it ends, having
      emitted every event after the starting id exactly once and in order, whatever the page
      size; without it, one page. The cursor it prints resumes where it stopped. */
  method Export(log: seq<Id>, start: Id, limit: nat, all: bool)
    returns (emitted: seq<Id>, total: nat, cursor: Option<Id>)
    requires IsLog(log) && 1 <= limit <= 1000
    ensures total == |emitted|
    ensures all ==> emitted == Since(log, start) && cursor == None
    ensures !all ==> (emitted, cursor) == Page(log, start, limit)
    ensures cursor.Some? ==> emitted + Since(log, cursor.value) == Since(log, start)
  {
    var after := start;
    emitted, total, cursor := [], 0, None;
    while true
      invariant Cut(log, start) <= Cut(log, after)
      invariant total == |emitted| && emitted == log[Cut(log, start)..Cut(log, after)]
      invariant !all ==> after == start && emitted == []
      decreases |log| - Cut(log, after)
    {
      PageIsStretch(log, after, limit);
      var (events, next) := Page(log, after, limit);
      ghost var c, d := Cut(log, after), Cut(log, if next.Some? then next.value else after);
      Stretches(log, Cut(log, start), c, d);
      Stretches(log, Cut(log, start), d, |log|);
      assert emitted == [] ==> emitted + events == events;
      emitted := emitted + events;
      assert emitted == log[Cut(log, start)..d];
      total := total + |events|;
      cursor := next;
      if !all || next.None? || |events| == 0 {
        break;
      }
      after := next.value;
    }
  }

  // ---------------------------------------------------------------------------
  // A log that grows

  /** Each state of the log extends the one before, and `now` extends them all. */
  predicate Grows(logs: seq<seq<Id>>, now: seq<Id>) {
    IsLog(now) && forall i :: 0 <= i < |logs| ==> logs[i] <= now
  }

  /** The pages of successive pulls, the n-th against the n-th state of the log, and the cursor
      they leave. */
  function Pulled(logs: seq<seq<Id>>, start: Id, limit: nat): (seq<Id>, Id) {
    if logs == [] then ([], start)
    else
      var n := |logs| - 1;
      var (before, after) := Pulled(logs[..n], start, limit);
      var (events, next) := Page(logs[n], after, limit);
      (before + events, if next.Some? then next.value else after)
  }

  lemma CutOfPrefix(log: seq<Id>, now: seq<Id>, after: Id)
    requires IsLog(now) && log <= now
    ensures IsLog(log) && Cut(log, after) == if Cut(now, after) <= |log| then Cut(now, after) else |log|
  {
    CutSplits(now, after);
    CutSplits(log, after);
    var k := Cut(log, after);
    if k < |log| {
      assert now[k] == log[k];
    }
    if k > 0 {
      assert now[k - 1] == log[k - 1];
    }
  }

  lemma PageOfPrefix(log: seq<Id>, now: seq<Id>, after: Id, limit: nat)
    requires IsLog(now) && log <= now && limit >= 1
    ensures var (events, next) := Page(log, after, limit);
            var c := Cut(now, after);
            var d := Cut(now, if next.Some? then next.value else after);
            c <= d && events == now[c..d]
  {
    CutOfPrefix(log, now, after);
    PageIsStretch(log, after, limit);
    var (events, next) := Page(log, after, limit);
    if next.Some? {
      CutOfPrefix(log, now, next.value);
      var k := Cut(log, next.value);
      assert log[k - 1] == now[k - 1];
      CutAt(now, k);
    }
  }

  /** However the log grows between pulls, the pages pulled so far are exactly the events from
      the start to the cursor they left: no event is skipped or repeated, and what now follows
      the cursor completes them. */
  lemma {:induction false} PullsLoseNothing(logs: seq<seq<Id>>, now: seq<Id>, start: Id, limit: nat)
    requires Grows(logs, now) && limit >= 1
    ensures var (emitted, cursor) := Pulled(logs, start, limit);
            && Cut(now, start) <= Cut(now, cursor) && emitted == now[Cut(now, start)..Cut(now, cursor)]
            && emitted + Since(now, cursor) == Since(now, start)
    decreases |logs|
  {
    if logs != [] {
      var n := |logs| - 1;
      PullsLoseNothing(logs[..n], now, start, limit);
      var after := Pulled(logs[..n], start, limit).1;
      PageOfPrefix(logs[n], now, after, limit);
      Stretches(now, Cut(now, start), Cut(now, after), Cut(now, Pulled(logs, start, limit).1));
    }
    Stretches(now, Cut(now, start), Cut(now, Pulled(logs, start, limit).1), |now|);
  }
}
