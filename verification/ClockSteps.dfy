/** The clock-step watcher: the wall clock against the monotonic one, sample by sample. Times
    are in nanoseconds. */
module ClockSteps {

  const THRESHOLD: int := 30_000_000_000

  datatype Sample = Sample(wall: int, mono: int)

  datatype Warning = Quiet | Backward | Forward

  /** How far the wall clock moved beyond what the monotonic clock says elapsed. */
  function Step(a: Sample, b: Sample): int {
    (b.wall - a.wall) - (b.mono - a.mono)
  }

  function Classify(step: int): Warning {
    if step <= -THRESHOLD then Backward else if step >= THRESHOLD then Forward else Quiet
  }

  /** The warnings of each tick after the first sample. */
  function Warnings(s: seq<Sample>): seq<Warning>
    requires s != []
  {
    seq(|s| - 1, i requires 0 <= i < |s| - 1 => Classify(Step(s[i], s[i + 1])))
  }

  /** watchClockSteps, one iteration per tick: a warning exactly when the wall clock is 30 seconds or more
      behind or ahead of where the monotonic clock says it should be. */
  method Watch(samples: seq<Sample>) returns (warnings: seq<Warning>)
    requires samples != []
    ensures warnings == Warnings(samples)
    ensures |warnings| == |samples| - 1
    ensures forall i :: 0 <= i < |warnings| ==>
              var expected := samples[i].wall + (samples[i + 1].mono - samples[i].mono);
              && (warnings[i] == Backward <==> samples[i + 1].wall <= expected - 30_000_000_000)
              && (warnings[i] == Forward <==> samples[i + 1].wall >= expected + 30_000_000_000)
  {
    var prevWall, prevMono := samples[0].wall, samples[0].mono;
    warnings := [];
    for i := 1 to |samples|
      invariant prevWall == samples[i - 1].wall && prevMono == samples[i - 1].mono
      invariant warnings == Warnings(samples[..i])
    {
      var wall, mono := samples[i].wall, samples[i].mono;
      var step := wall - prevWall - (mono - prevMono);
      warnings := warnings + [Classify(step)];
      prevWall, prevMono := wall, mono;
    }
    assert samples[..|samples|] == samples;
  }

  function Total(s: seq<Sample>): int
    requires s != []
  {
    if |s| == 1 then 0 else Total(s[..|s| - 1]) + Step(s[|s| - 2], s[|s| - 1])
  }

  /** The steps add up to the whole drift between the first and the last sample. */
  lemma {:induction false} StepsTelescope(s: seq<Sample>)
    requires s != []
    ensures Total(s) == Step(s[0], s[|s| - 1])
  {
    if |s| > 1 {
      StepsTelescope(s[..|s| - 1]);
    }
  }

  predicate AllQuiet(ws: seq<Warning>) {
    forall i :: 0 <= i < |ws| ==> ws[i] == Quiet
  }

  /** Ticks that log nothing let less than their number times the threshold of drift go by. */
  lemma {:induction false} QuietDriftIsBounded(s: seq<Sample>)
    requires s != [] && AllQuiet(Warnings(s))
    ensures -(THRESHOLD - 1) * (|s| - 1) <= Step(s[0], s[|s| - 1]) <= (THRESHOLD - 1) * (|s| - 1)
  {
    var n := |s| - 1;
    if n > 0 {
      assert Warnings(s)[n - 1] == Quiet;
      assert forall i :: 0 <= i < n - 1 ==> Warnings(s[..n])[i] == Warnings(s)[i];
      QuietDriftIsBounded(s[..n]);
    }
  }

  /** And no less: every drift within that bound can go by in silence. */
  lemma {:induction false} QuietDriftIsTight(ticks: nat, drift: int) returns (s: seq<Sample>)
    requires -(THRESHOLD - 1) * ticks <= drift <= (THRESHOLD - 1) * ticks
    ensures |s| == ticks + 1 && AllQuiet(Warnings(s)) && Step(s[0], s[ticks]) == drift && s[ticks] == Sample(drift, 0)
  {
    if ticks == 0 {
      s := [Sample(0, 0)];
    } else {
      var most := (THRESHOLD - 1) * (ticks - 1);
      var before := if drift > most then most else if drift < -most then -most else drift;
      var r := QuietDriftIsTight(ticks - 1, before);
      s := r + [Sample(drift, 0)];
      forall i | 0 <= i < ticks ensures Warnings(s)[i] == Quiet {
        if i < ticks - 1 {
          assert Warnings(r)[i] == Quiet;
        }
      }
    }
  }
}
