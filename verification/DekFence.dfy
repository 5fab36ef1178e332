/** The write fence of a DEK rotation, in real time: a replica may encrypt only while a recent
    poll confirmed its DEK, and the rotation waits before it locks the tables. Which writes
    can still miss the sweep? Times are in nanoseconds. */
module DekFence {
  import opened Options
  import opened KeyState

  const SECOND: nat := 1_000_000_000
  const MAX_STALENESS: nat := 5 * SECOND
  const FENCE_WAIT: nat := 10 * SECOND

  // ---------------------------------------------------------------------------
  // The replica's view of the epoch

  /** dekEpochWatch. `lastMatch` is one more than the start, counted from `base`, of the newest
      poll that read this replica's own fingerprint; 0 is "fenced". */
  class EpochWatch {
    const base: nat
    const own: Dek
    var lastMatch: nat

    constructor (base: nat, own: Dek)
      ensures this.base == base && this.own == own && Confirmed() == Some(base)
    {
      this.base, this.own, lastMatch := base, own, 1;
    }

    /** The start of the newest confirming poll, if not fenced. */
    function Confirmed(): Option<nat> reads this {
      if lastMatch == 0 then None else Some(base + lastMatch - 1)
    }

    /** The gate of every Encrypt call. */
    method AllowWrite(now: nat) returns (ok: bool)
      ensures ok <==> Confirmed().Some? && now <= Confirmed().value + 5 * SECOND
    {
      if lastMatch == 0 {
        return false;
      }
      var age := (now - base) - (lastMatch - 1);
      ok := age <= MAX_STALENESS;
    }

    /** One poll that started at `start`: a failed read changes nothing, this DEK's fingerprint
        confirms, anything else fences. */
    method Poll(start: nat, read: Option<Epoch>)
      requires start >= base
      modifies this
      ensures Confirmed() == Polled(old(Confirmed()), start, ReadingOf(read, own))
      ensures read == None ==> Confirmed() == old(Confirmed())
      ensures read == Some(Current(own)) ==> Confirmed() == Some(start)
      ensures read != None && read != Some(Current(own)) ==> Confirmed() == None
    {
      match read {
        case None => return;
        case Some(epoch) => lastMatch := if epoch == Current(own) then start - base + 1 else 0;
      }
    }
  }

  datatype Reading = Failed | Own | Other

  function ReadingOf(read: Option<Epoch>, own: Dek): Reading {
    if read.None? then Failed else if read.value == Current(own) then Own else Other
  }

  function Polled(confirmed: Option<nat>, start: nat, r: Reading): Option<nat> {
    match r
    case Failed => confirmed
    case Own => Some(start)
    case Other => None
  }

  predicate MayEncrypt(confirmed: Option<nat>, now: nat) {
    confirmed.Some? && now - confirmed.value <= MAX_STALENESS
  }

  // ---------------------------------------------------------------------------
  // One replica next to rotations

  datatype Polling = Idle | Asked(start: nat) | Answered(start: nat, reading: Reading)

  /** `at` is when the fence was committed. Locked: the sweep holds every table. */
  datatype Rotation = Unfenced | Fenced(at: nat) | Locked(at: nat) | Swept(at: nat)

  /** `inFlight` holds the times of encryptions whose INSERT has not started. `queued` counts
      INSERTs blocked by the sweep's lock, `stranded` those that landed, under the old DEK,
      after the sweep. */
  datatype World = World(now: nat, confirmed: Option<nat>, poll: Polling, inFlight: seq<nat>,
                         rotation: Rotation, queued: nat, stranded: nat)

  datatype Event =
    | Tick(d: nat)
    | Ask
    | Answer(failed: bool)
    | Store
    | Encrypt
    | Insert(i: nat)
    | Fence
    | Lock
    | Lift
    | Commit

  predicate Can(w: World, e: Event) {
    match e
    case Tick(_) => true
    case Ask => w.poll.Idle?
    case Answer(_) => w.poll.Asked?
    case Store => w.poll.Answered?
    case Encrypt => MayEncrypt(w.confirmed, w.now)
    case Insert(i) => i < |w.inFlight|
    case Fence => w.rotation.Unfenced?
    case Lock => w.rotation.Fenced? && w.now >= w.rotation.at + FENCE_WAIT
    case Lift => w.rotation.Fenced? || w.rotation.Locked?
    case Commit => w.rotation.Locked?
  }

  function Next(w: World, e: Event): World
    requires Can(w, e)
  {
    match e
    case Tick(d) => w.(now := w.now + d)
    case Ask => w.(poll := Asked(w.now))
    case Answer(failed) =>
      w.(poll := Answered(w.poll.start, if failed then Failed else if w.rotation.Unfenced? then Own else Other))
    case Store => w.(poll := Idle, confirmed := Polled(w.confirmed, w.poll.start, w.poll.reading))
    case Encrypt => w.(inFlight := w.inFlight + [w.now])
    case Insert(i) =>
      var v := w.(inFlight := w.inFlight[..i] + w.inFlight[i + 1..]);
      if w.rotation.Locked? then v.(queued := w.queued + 1)
      else if w.rotation.Swept? then v.(stranded := w.stranded + 1)
      else v
    case Fence => w.(rotation := Rotation.Fenced(w.now))
    case Lock => w.(rotation := Rotation.Locked(w.rotation.at))
    case Lift => w.(rotation := Unfenced, queued := 0)
    case Commit => w.(rotation := Swept(w.rotation.at), stranded := w.stranded + w.queued, queued := 0)
  }

  /** A write reaches the database at most `stall` after it was encrypted. */
  predicate Prompt(w: World, e: Event, stall: nat) {
    e.Insert? && e.i < |w.inFlight| ==> w.now - w.inFlight[e.i] <= stall
  }

  /** A run whose writes all stall for at most `stall`. */
  predicate PromptRun(w: World, es: seq<Event>, stall: nat)
    decreases |es|
  {
    es == [] || (Can(w, es[0]) && Prompt(w, es[0], stall) && PromptRun(Next(w, es[0]), es[1..], stall))
  }

  function Final(w: World, es: seq<Event>, stall: nat): World
    requires PromptRun(w, es, stall)
    decreases |es|
  {
    if es == [] then w else Final(Next(w, es[0]), es[1..], stall)
  }

  /** The replica has just verified the epoch at boot. */
  predicate JustBooted(w: World) {
    w == World(w.now, Some(w.now), Idle, [], Unfenced, 0, 0)
  }

  // ---------------------------------------------------------------------------
  // No write misses the sweep, exactly when none stalls for FENCE_WAIT - MAX_STALENESS

  /** No confirmation is newer than the fence, and no encryption later than that allows. */
  predicate FenceHolds(w: World) {
    && w.queued == 0 && w.stranded == 0
    && (w.confirmed.Some? ==> w.confirmed.value <= w.now)
    && (!w.poll.Idle? ==> w.poll.start <= w.now)
    && (forall i :: 0 <= i < |w.inFlight| ==> w.inFlight[i] <= w.now)
    && (!w.rotation.Unfenced? ==>
          && w.rotation.at <= w.now
          && (w.confirmed.Some? ==> w.confirmed.value <= w.rotation.at)
          && (w.poll.Answered? && w.poll.reading.Own? ==> w.poll.start <= w.rotation.at)
          && (forall i :: 0 <= i < |w.inFlight| ==> w.inFlight[i] <= w.rotation.at + MAX_STALENESS))
    && (w.rotation.Locked? || w.rotation.Swept? ==> w.now >= w.rotation.at + FENCE_WAIT)
  }

  lemma {:induction false} PromptRunsHold(w: World, es: seq<Event>, stall: nat)
    requires FenceHolds(w) && PromptRun(w, es, stall) && stall < FENCE_WAIT - MAX_STALENESS
    ensures FenceHolds(Final(w, es, stall))
    decreases |es|
  {
    if es != [] {
      PromptRunsHold(Next(w, es[0]), es[1..], stall);
    }
  }

  lemma {:induction false} PromptRunOn(w: World, es: seq<Event>, e: Event, stall: nat)
    requires PromptRun(w, es, stall) && Can(Final(w, es, stall), e) && Prompt(Final(w, es, stall), e, stall)
    ensures PromptRun(w, es + [e], stall) && Final(w, es + [e], stall) == Next(Final(w, es, stall), e)
    decreases |es|
  {
    if es == [] {
      assert (es + [e])[1..] == [];
    } else {
      assert (es + [e])[1..] == es[1..] + [e];
      PromptRunOn(Next(w, es[0]), es[1..], e, stall);
    }
  }

  /** A replica that confirmed its DEK just before the fence encrypts as late as it may, and
      its INSERT starts just after the sweep took its locks. */
  lemma SlowWriteIsStranded(w: World, stall: nat) returns (es: seq<Event>)
    requires JustBooted(w) && stall >= FENCE_WAIT - MAX_STALENESS
    ensures PromptRun(w, es, stall) && Final(w, es, stall).stranded == 1
  {
    es := [];
    PromptRunOn(w, es, Fence, stall);
    es := es + [Fence];
    PromptRunOn(w, es, Tick(MAX_STALENESS), stall);
    es := es + [Tick(MAX_STALENESS)];
    PromptRunOn(w, es, Encrypt, stall);
    es := es + [Encrypt];
    PromptRunOn(w, es, Tick(FENCE_WAIT - MAX_STALENESS), stall);
    es := es + [Tick(FENCE_WAIT - MAX_STALENESS)];
    PromptRunOn(w, es, Lock, stall);
    es := es + [Lock];
    PromptRunOn(w, es, Event.Insert(0), stall);
    es := es + [Event.Insert(0)];
    PromptRunOn(w, es, Commit, stall);
    es := es + [Commit];
  }

  ghost predicate NothingStranded(stall: nat) {
    forall w, es :: JustBooted(w) && PromptRun(w, es, stall) ==> Final(w, es, stall).stranded == 0
  }

  /** Whatever the polls, read failures, aborted rotations and timing: no row lands under the
      old DEK after the sweep, if and only if no write takes five seconds (FENCE_WAIT -
      MAX_STALENESS) or longer from its encryption to the start of its INSERT. */
  lemma FenceExact(stall: nat)
    ensures NothingStranded(stall) <==> stall < 5 * SECOND
  {
    if stall < FENCE_WAIT - MAX_STALENESS {
      forall w, es | JustBooted(w) && PromptRun(w, es, stall) ensures Final(w, es, stall).stranded == 0 {
        PromptRunsHold(w, es, stall);
      }
    } else {
      var w := World(0, Some(0), Idle, [], Unfenced, 0, 0);
      var es := SlowWriteIsStranded(w, stall);
    }
  }

  // ---------------------------------------------------------------------------
  // A healthy replica keeps writing, a fenced one stops

  lemma {:induction false} PromptRunSplits(w: World, a: seq<Event>, b: seq<Event>, stall: nat)
    requires PromptRun(w, a + b, stall)
    ensures PromptRun(w, a, stall) && PromptRun(Final(w, a, stall), b, stall)
    ensures Final(w, a + b, stall) == Final(Final(w, a, stall), b, stall)
    decreases |a|
  {
    if a == [] {
      assert a + b == b;
    } else {
      assert (a + b)[0] == a[0] && (a + b)[1..] == a[1..] + b;
      PromptRunSplits(Next(w, a[0]), a[1..], b, stall);
    }
  }

  /** No rotation stands, and no answer that saw one is on its way. */
  predicate Healthy(w: World) {
    w.rotation.Unfenced? && !(w.poll.Answered? && w.poll.reading.Other?)
  }

  /** The newest confirmation is of a poll that started at `t` or later, and so is any under way. */
  predicate ConfirmedSince(w: World, t: nat) {
    w.confirmed.Some? && w.confirmed.value >= t && t <= w.now && (!w.poll.Idle? ==> w.poll.start >= t)
  }

  lemma {:induction false} HealthyRun(w: World, es: seq<Event>, stall: nat, t: nat)
    requires Healthy(w) && PromptRun(w, es, stall) && Fence !in es
    ensures Healthy(Final(w, es, stall)) && Final(w, es, stall).now >= w.now
    ensures ConfirmedSince(w, t) ==> ConfirmedSince(Final(w, es, stall), t)
    decreases |es|
  {
    if es != [] {
      HealthyRun(Next(w, es[0]), es[1..], stall, t);
    }
  }

  /** A poll that waits for its answer, or to be stored, stays the one under way. */
  lemma {:induction false} PollStays(w: World, es: seq<Event>, stall: nat)
    requires PromptRun(w, es, stall) && !w.poll.Idle?
    requires (w.poll.Asked? ==> forall e :: e in es ==> !e.Answer?) && (w.poll.Answered? ==> Store !in es)
    ensures Final(w, es, stall).poll == w.poll
    decreases |es|
  {
    if es != [] {
      PollStays(Next(w, es[0]), es[1..], stall);
    }
  }

  /** A poll, from its answer to its storing, with anything in between and after. */
  function AnsweredPoll(answered: seq<Event>, after: seq<Event>): seq<Event> {
    [Answer(false)] + (answered + ([Store] + after))
  }

  function WholePoll(asked: seq<Event>, answered: seq<Event>, after: seq<Event>): seq<Event> {
    [Ask] + (asked + AnsweredPoll(answered, after))
  }

  /** As long as no rotation fences, a replica may encrypt at every moment at most five seconds after
      the start of a poll that was answered and stored, whatever else happens, failed polls
      after it included. */
  lemma HealthyReplicaWrites(w: World, asked: seq<Event>, answered: seq<Event>, after: seq<Event>, stall: nat)
    requires Healthy(w) && PromptRun(w, WholePoll(asked, answered, after), stall)
    requires Fence !in WholePoll(asked, answered, after)
    requires (forall e :: e in asked ==> !e.Answer?) && Store !in answered
    requires Final(w, WholePoll(asked, answered, after), stall).now <= w.now + 5 * SECOND
    ensures Can(Final(w, WholePoll(asked, answered, after), stall), Encrypt)
  {
    PromptRunSplits(w, [Ask], asked + AnsweredPoll(answered, after), stall);
    var w1 := Next(w, Ask);
    assert Final(w, [Ask], stall) == w1 by { assert [Ask][1..] == []; }
    PromptRunSplits(w1, asked, AnsweredPoll(answered, after), stall);
    HealthyRun(w1, asked, stall, w.now);
    PollStays(w1, asked, stall);
    var w2 := Final(w1, asked, stall);
    var w5 := StoreAnswer(w2, answered, after, stall);
    HealthyRun(Next(w2, Answer(false)), answered, stall, w.now);
    HealthyRun(w5, after, stall, w.now);
  }

  /** And so after a rotation that gave up: once its fence is lifted, one whole poll is enough. */
  lemma LiftedReplicaWrites(w: World, asked: seq<Event>, answered: seq<Event>, after: seq<Event>, stall: nat)
    requires Can(w, Lift) && w.poll.Idle? && PromptRun(Next(w, Lift), WholePoll(asked, answered, after), stall)
    requires Fence !in WholePoll(asked, answered, after)
    requires (forall e :: e in asked ==> !e.Answer?) && Store !in answered
    requires Final(Next(w, Lift), WholePoll(asked, answered, after), stall).now <= w.now + 5 * SECOND
    ensures Can(Final(Next(w, Lift), WholePoll(asked, answered, after), stall), Encrypt)
  {
    HealthyReplicaWrites(Next(w, Lift), asked, answered, after, stall);
  }

  /** The poll under way is answered and stored. */
  lemma StoreAnswer(w: World, answered: seq<Event>, after: seq<Event>, stall: nat) returns (v: World)
    requires w.poll.Asked? && PromptRun(w, AnsweredPoll(answered, after), stall) && Store !in answered
    ensures PromptRun(Next(w, Answer(false)), answered, stall) && PromptRun(v, after, stall)
    ensures Final(w, AnsweredPoll(answered, after), stall) == Final(v, after, stall)
    ensures var u := Final(Next(w, Answer(false)), answered, stall);
            v == u.(poll := Idle, confirmed := if w.rotation.Unfenced? then Some(w.poll.start) else None)
  {
    PromptRunSplits(w, [Answer(false)], answered + ([Store] + after), stall);
    var w1 := Next(w, Answer(false));
    assert Final(w, [Answer(false)], stall) == w1 by { assert [Answer(false)][1..] == []; }
    PromptRunSplits(w1, answered, [Store] + after, stall);
    PollStays(w1, answered, stall);
    var u := Final(w1, answered, stall);
    PromptRunSplits(u, [Store], after, stall);
    v := Next(u, Store);
    assert Final(u, [Store], stall) == v by { assert [Store][1..] == []; }
  }

  /** The replica saw a rotation, which has not been lifted since. */
  predicate Stopped(w: World) {
    !w.rotation.Unfenced? && w.confirmed.None? && !(w.poll.Answered? && w.poll.reading.Own?)
  }

  lemma {:induction false} StoppedRun(w: World, es: seq<Event>, stall: nat)
    requires PromptRun(w, es, stall) && Lift !in es && !w.rotation.Unfenced?
    requires !(w.poll.Answered? && w.poll.reading.Own?)
    ensures !Final(w, es, stall).rotation.Unfenced?
    ensures var v := Final(w, es, stall); !(v.poll.Answered? && v.poll.reading.Own?)
    ensures Stopped(w) ==> Stopped(Final(w, es, stall))
    decreases |es|
  {
    if es != [] {
      StoppedRun(Next(w, es[0]), es[1..], stall);
    }
  }

  /** A poll answered while a rotation stands stops the replica as soon as it is stored: it encrypts
      nothing more until that rotation is lifted. */
  lemma FencedReplicaStops(w: World, answered: seq<Event>, after: seq<Event>, stall: nat)
    requires w.poll.Asked? && !w.rotation.Unfenced? && PromptRun(w, AnsweredPoll(answered, after), stall)
    requires Lift !in AnsweredPoll(answered, after) && Store !in answered
    ensures !Can(Final(w, AnsweredPoll(answered, after), stall), Encrypt)
  {
    var v := StoreAnswer(w, answered, after, stall);
    StoppedRun(Next(w, Answer(false)), answered, stall);
    StoppedRun(v, after, stall);
  }
}
