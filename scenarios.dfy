/**
  Concrete passes of the segmenter on a small stream: an idle buffer of
  three baseline samples at 100, a block of low samples at 50, then
  baseline again, with a pad of 3, a minimum run of 5 and thrCurr = 85
  (mean 100, SD 5, threshold 3 SDs).
 */
module SegmentScenarios {
  import opened Samples
  import opened SegmentSettings
  import opened SegmentModel
  import opened SegmentLemmas

  function ScenarioConfig(): Config {
    Config(3, 5, 3.0, Baseline(100.0, 5.0, 0.0), 85.0, 1.0, false, 0, map[])
  }

  /** The look-behind buffer after the trigger sample has been pushed. */
  function Lead(): seq<real> {
    [100.0, 100.0, 50.0]
  }

  /**
    An idle state after three baseline samples, with a full look-behind
    buffer and the queue `q`.
   */
  function Idle(q: seq<real>): Seg {
    Seg(q, [], 3, false, [], [100.0, 100.0, 100.0], 0, 0, [])
  }

  /** A low first sample starts the event at absolute index 0 of the buffer. */
  lemma TriggerInScenario(q: seq<real>)
    requires q != [] && q[0] == 50.0
    ensures Take(ScenarioConfig(), Idle(q)) == Seg(q[1..], [], 4, true, [50.0], Lead(), 0, 0, [])
  {
    assert Push([100.0, 100.0, 100.0], 50.0, 3) == Lead();
  }

  /**
    Closing a run with exactly three samples queued: no refill, the pad is
    filtered from those three, and the event is dispatched when the run
    has at least five samples; the buffer is cleared either way.
   */
  lemma CloseInScenario(sel: Selector, q: seq<real>, run: seq<real>, i: int)
    requires |q| == 3
    ensures Close(ScenarioConfig(), sel, Seg(q, [], i, true, run, Lead(), 0, 0, [])) ==
      Continue(Seg(q, [], i, false, run, [], 0,
                   if 5 <= |run| then 1 else 0,
                   if 5 <= |run| then
                     [EventRecord(Lead() + run + sel(q, 1.5, 100.0, 5.0), 1.0, 4, 4 + |run|,
                                  Baseline(100.0, 5.0, 0.0), map[], false, 0)]
                   else []))
  {
    assert q[..3] == q;
  }

  /** The buffer's mean once the trigger sample has been pushed into it. */
  lemma BufferMean()
    ensures Mean([100.0, 100.0, 50.0]) == 250.0 / 3.0
  {
    var b := [100.0, 100.0, 50.0];
    assert b[1..] == [100.0, 50.0] && b[1..][1..] == [50.0] && b[1..][1..][1..] == [];
    assert Sum(b) == 250.0;
  }

  /**
    A pass over `n` low samples followed by four baseline samples: the run
    takes the low samples and the first baseline one, leaving three queued.
   */
  lemma LowRun(sel: Selector, q: seq<real>, n: nat)
    requires 1 <= n && |q| == n + 4
    requires forall i | 0 <= i < n :: q[i] == 50.0
    requires q[n..] == [100.0, 100.0, 100.0, 100.0]
    ensures Step(ScenarioConfig(), sel, Idle(q)) ==
      Close(ScenarioConfig(), sel, Seg([100.0, 100.0, 100.0], [], 4 + n, true, q[..n + 1], Lead(), 0, 0, []))
  {
    var c := ScenarioConfig();
    TriggerInScenario(q);
    var s1 := Take(c, Idle(q));
    BufferMean();
    assert [50.0] + q[1..] == q;
    assert q[n] == 100.0;
    GrowsToFirstHigh(q[1..], 50.0, 250.0 / 3.0, n);
    assert [50.0] + q[1..][..n] == q[..n + 1];
    assert q[1..][n..] == q[n + 1..] == [100.0, 100.0, 100.0];
    assert Step(c, sel, Idle(q)) == Close(c, sel, PopRun(s1, n));
  }

  /**
    The same pass to its end: back to idle with the buffer cleared, and the
    run dispatched exactly when it has at least five samples.
   */
  lemma LowRunCloses(sel: Selector, q: seq<real>, n: nat)
    requires 1 <= n && |q| == n + 4
    requires forall i | 0 <= i < n :: q[i] == 50.0
    requires q[n..] == [100.0, 100.0, 100.0, 100.0]
    ensures Step(ScenarioConfig(), sel, Idle(q)) ==
      Continue(Seg([100.0, 100.0, 100.0], [], 4 + n, false, q[..n + 1], [], 0,
                   if 4 <= n then 1 else 0,
                   if 4 <= n then
                     [EventRecord(Lead() + q[..n + 1] + sel([100.0, 100.0, 100.0], 1.5, 100.0, 5.0),
                                  1.0, 4, 5 + n, Baseline(100.0, 5.0, 0.0), map[], false, 0)]
                   else []))
  {
    LowRun(sel, q, n);
    CloseInScenario(sel, [100.0, 100.0, 100.0], q[..n + 1], 4 + n);
  }

  /**
    Ten low samples: the event is accepted with a run of eleven samples
    (the ten low ones and the baseline sample that ended it), start offset
    4 and end offset 15; the lead pad is the buffer, which already holds
    the trigger sample; the trailing pad is filtered from the three
    baseline samples left queued, which stay queued.
   */
  lemma TenLowSamples(sel: Selector)
    ensures var lows := [50.0, 50.0, 50.0, 50.0, 50.0, 50.0, 50.0, 50.0, 50.0, 50.0];
      var r := Step(ScenarioConfig(), sel, Idle(lows + [100.0, 100.0, 100.0, 100.0]));
      && r.Continue?
      && r.s.eventdat == lows + [100.0]
      && r.s.currData == [100.0, 100.0, 100.0]
      && r.s.eventcount == 1
      && r.s.log == [EventRecord(
           [100.0, 100.0, 50.0] + lows + [100.0] + sel([100.0, 100.0, 100.0], 1.5, 100.0, 5.0),
           1.0, 4, 15, Baseline(100.0, 5.0, 0.0), map[], false, 0)]
  {
    var lows := [50.0, 50.0, 50.0, 50.0, 50.0, 50.0, 50.0, 50.0, 50.0, 50.0];
    var q := lows + [100.0, 100.0, 100.0, 100.0];
    assert q[10..] == [100.0, 100.0, 100.0, 100.0];
    LowRunCloses(sel, q, 10);
    assert q[..11] == lows + [100.0];
    assert Lead() + (lows + [100.0]) == [100.0, 100.0, 50.0] + lows + [100.0];
  }

  /**
    Three low samples: the run of four (three low, one baseline) is below
    the minimum, so nothing is dispatched or counted, and the buffer is
    still cleared.
   */
  lemma ThreeLowSamples(sel: Selector)
    ensures var r := Step(ScenarioConfig(), sel,
                          Idle([50.0, 50.0, 50.0, 100.0, 100.0, 100.0, 100.0]));
      && r.Continue?
      && r.s.eventdat == [50.0, 50.0, 50.0, 100.0]
      && r.s.eventcount == 0 && r.s.log == []
      && r.s.preeventdat == []
  {
    var q := [50.0, 50.0, 50.0, 100.0, 100.0, 100.0, 100.0];
    assert q[3..] == [100.0, 100.0, 100.0, 100.0];
    LowRunCloses(sel, q, 3);
    assert q[..4] == [50.0, 50.0, 50.0, 100.0];
  }

  /**
    The first of two calls, fed only two low samples: it runs dry inside
    the run and returns with the event open, a run of both samples and
    start index 0.
   */
  lemma DryInsideRun(sel: Selector)
    ensures Segment(ScenarioConfig(), sel, Idle([50.0, 50.0])) ==
      Finished(Seg([], [], 5, true, [50.0, 50.0], Lead(), 0, 0, []), Exhausted)
  {
    var c := ScenarioConfig();
    TriggerInScenario([50.0, 50.0]);
    BufferMean();
    assert Grow([50.0], 50.0, 250.0 / 3.0) == Growth(1, false);
  }

  /**
    The second call, given the rest of the stream: its first sample is
    below thrCurr, so the run restarts from it; the run [50, 50, 100] is
    too short and is rejected, and the start index is recomputed as 2.
   */
  lemma ResumeRestartsRun(sel: Selector)
    ensures var r := Step(ScenarioConfig(), sel,
                          Seg([50.0, 50.0, 100.0, 100.0, 100.0, 100.0], [], 5, true,
                              [50.0, 50.0], Lead(), 0, 0, []));
      && r.Continue?
      && r.s.eventdat == [50.0, 50.0, 100.0]
      && r.s.dataStart == 2
      && r.s.eventcount == 0 && r.s.log == []
  {
    var c := ScenarioConfig();
    var q := [50.0, 50.0, 100.0, 100.0, 100.0, 100.0];
    var s := Seg(q, [], 5, true, [50.0, 50.0], Lead(), 0, 0, []);
    var s1 := Take(c, s);
    assert s1 == Seg(q[1..], [], 6, true, [50.0], Lead(), 2, 0, []);
    BufferMean();
    assert [50.0] + q[1..] == q;
    GrowsToFirstHigh(q[1..], 50.0, 250.0 / 3.0, 2);
    assert PopRun(s1, 2) == Seg([100.0, 100.0, 100.0], [], 8, true, [50.0, 50.0, 100.0], Lead(), 2, 0, []);
    assert Step(c, sel, s) == Close(c, sel, PopRun(s1, 2));
    CloseInScenario(sel, [100.0, 100.0, 100.0], [50.0, 50.0, 100.0], 8);
  }

  /**
    An event split by a chunk boundary is not the event read in one piece.
    Four low samples in one call give an accepted run of five starting at
    index 0. The same samples split two and two over two calls leave the
    first call with the event open (`DryInsideRun`), and the second call
    restarts the run from its first sample (`ResumeRestartsRun`), so the
    two earlier low samples are lost and nothing is dispatched.
   */
  lemma ChunkBoundarySplitsRun(sel: Selector)
    ensures var c := ScenarioConfig();
      var whole := Step(c, sel, Idle([50.0, 50.0, 50.0, 50.0, 100.0, 100.0, 100.0, 100.0]));
      var first := Segment(c, sel, Idle([50.0, 50.0]));
      var second := Step(c, sel, first.s.(currData := [50.0, 50.0, 100.0, 100.0, 100.0, 100.0]));
      && whole.Continue? && whole.s.eventdat == [50.0, 50.0, 50.0, 50.0, 100.0]
      && whole.s.eventcount == 1 && |whole.s.log| == 1 && whole.s.log[0].absDataIdx == 0
      && first.why == Exhausted && first.s.eventstart && first.s.eventdat == [50.0, 50.0]
      && second.Continue? && second.s.eventdat == [50.0, 50.0, 100.0]
      && second.s.eventcount == 0 && second.s.log == [] && second.s.dataStart == 2
  {
    var q := [50.0, 50.0, 50.0, 50.0, 100.0, 100.0, 100.0, 100.0];
    assert q[4..] == [100.0, 100.0, 100.0, 100.0];
    LowRunCloses(sel, q, 4);
    assert q[..5] == [50.0, 50.0, 50.0, 50.0, 100.0];
    DryInsideRun(sel);
    ResumeRestartsRun(sel);
  }

  /**
    When the pad filter drops every pad sample, the end offset points one
    past the end of the payload.
   */
  lemma EndOffsetPastPayload()
    ensures var lows := [50.0, 50.0, 50.0, 50.0, 50.0, 50.0, 50.0, 50.0, 50.0, 50.0];
      var dropAll: Selector := (p: seq<real>, half: real, mean: real, sd: real) => [];
      var r := Step(ScenarioConfig(), dropAll, Idle(lows + [100.0, 100.0, 100.0, 100.0])).s;
      && |r.log| == 1
      && r.log[0].eventEnd == |r.log[0].data| + 1
  {
    var dropAll: Selector := (p: seq<real>, half: real, mean: real, sd: real) => [];
    TenLowSamples(dropAll);
  }
}
