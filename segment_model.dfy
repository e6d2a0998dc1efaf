/**
  A value-level specification of eventSegment._eventsegment: one pass of
  the outer `while` loop is Step, the whole call is Segment. The class in
  event_segment.dfy is proved to compute exactly Segment.
 */
module SegmentModel {
  import opened Samples
  import opened SegmentSettings

  datatype Baseline = Baseline(mean: real, sd: real, slope: real)

  /** Everything _eventsegment reads but never writes. */
  datatype Config = Config(
    eventPad: nat,
    minEventLength: int,
    eventThreshold: real,
    baseline: Baseline,       // meanOpenCurr, sdOpenCurr, slopeOpenCurr
    thrCurr: real,
    fsHz: real,               // trajDataObj.FsHz
    writeEventTS: bool,
    nPoints: nat,             // chunk size asked of trajDataObj.popdata
    procSettings: SettingsDict)

  /**
    util.selectS(points, eventThreshold/2, meanOpenCurr, sdOpenCurr): the
    trailing-pad filter. Its body is not part of this model, so it is a
    parameter and nothing is assumed about what it returns.
   */
  type Selector = (seq<real>, real, real, real) -> seq<real>

  /** The arguments of one eventProcHnd(...) call handed to _processEvent. */
  datatype EventRecord = EventRecord(
    data: seq<real>,
    fsHz: real,
    eventStart: int,
    eventEnd: int,
    baselineStats: Baseline,
    algoSettings: SettingsDict,
    saveTS: bool,
    absDataIdx: int)

  /** The state _eventsegment changes. */
  datatype Seg = Seg(
    currData: seq<real>,      // samples already read, consumed from the front
    source: seq<real>,        // samples trajDataObj.popdata has yet to supply
    globalDataIndex: int,
    eventstart: bool,
    eventdat: seq<real>,
    preeventdat: seq<real>,
    dataStart: int,
    eventcount: nat,
    log: seq<EventRecord>)    // every event dispatched so far

  datatype HaltReason =
    | Exhausted       // IndexError: the routine returns
    | EmptyAverage    // util.avg of an empty buffer divides by zero

  datatype StepResult = Continue(s: Seg) | Halt(s: Seg, why: HaltReason)

  datatype Finished = Finished(s: Seg, why: HaltReason)

  /** Samples still to be read, queued or not. */
  function Remaining(s: Seg): nat {
    |s.currData| + |s.source|
  }

  /**
    Lines 168-181: pop one sample, buffer it while idle, and mark the start
    of an event when its magnitude is below thrCurr.
   */
  function Take(c: Config, s: Seg): (r: Seg)
    requires s.currData != []
    ensures r.currData == s.currData[1..] && r.source == s.source
    ensures r.globalDataIndex == s.globalDataIndex + 1
    ensures r.eventstart <==> s.eventstart || Abs(s.currData[0]) < c.thrCurr
    ensures s.eventstart ==> r.preeventdat == s.preeventdat
    ensures r.eventcount == s.eventcount && r.log == s.log
  {
    var t := s.currData[0];
    var s1 := s.(currData := s.currData[1..],
                 globalDataIndex := s.globalDataIndex + 1,
                 preeventdat := if s.eventstart then s.preeventdat
                                else Push(s.preeventdat, t, c.eventPad));
    if Abs(t) < c.thrCurr then
      s1.(eventstart := true,
          eventdat := [t],
          dataStart := s1.globalDataIndex - |s1.preeventdat| - 1)
    else s1
  }

  datatype Growth = Growth(popped: nat, ended: bool)

  /**
    Lines 185-188 on the queue `q`: while |t| is below the local mean, pop
    the next sample into the run; `t` is the sample last examined. The
    result counts the samples popped; `ended` is false when the queue ran
    dry first.
   */
  function Grow(q: seq<real>, t: real, mean: real): (g: Growth)
    ensures g.popped <= |q|
    ensures !g.ended ==> g.popped == |q|
  {
    if mean <= Abs(t) then Growth(0, true)
    else if q == [] then Growth(0, false)
    else
      var g := Grow(q[1..], q[0], mean);
      Growth(g.popped + 1, g.ended)
  }

  /**
    The run stops at the local mean: every sample examined before the last
    is below it, and the last is not unless the queue ran dry.
   */
  lemma {:induction false} GrowStopsAtMean(q: seq<real>, t: real, mean: real)
    ensures var g := Grow(q, t, mean);
      && (forall i | 0 <= i < g.popped :: Abs(([t] + q)[i]) < mean)
      && (g.ended <==> mean <= Abs(([t] + q)[g.popped]))
  {
    if mean > Abs(t) && q != [] {
      GrowStopsAtMean(q[1..], q[0], mean);
      var g := Grow(q[1..], q[0], mean);
      assert forall i | 1 <= i <= g.popped + 1 :: ([t] + q)[i] == ([q[0]] + q[1..])[i - 1];
    }
  }

  /**
    The converse: when the first `k` samples examined are below the mean
    and the next is not, the run takes exactly `k` samples and ends.
   */
  lemma GrowsToFirstHigh(q: seq<real>, t: real, mean: real, k: nat)
    requires k < |q| + 1
    requires forall i | 0 <= i < k :: Abs(([t] + q)[i]) < mean
    requires mean <= Abs(([t] + q)[k])
    ensures Grow(q, t, mean) == Growth(k, true)
  {
    GrowStopsAtMean(q, t, mean);
  }

  /** The state after popping `k` samples of the queue into the run. */
  function PopRun(s: Seg, k: nat): (r: Seg)
    requires k <= |s.currData|
    ensures r.globalDataIndex + Remaining(r) == s.globalDataIndex + Remaining(s)
  {
    s.(currData := s.currData[k..],
       eventdat := s.eventdat + s.currData[..k],
       globalDataIndex := s.globalDataIndex + k)
  }

  /**
    Lines 194-195: when fewer than eventPad samples are queued, append one
    chunk of at most nPoints samples from the trajectory.
   */
  function Refill(c: Config, s: Seg): (r: Seg)
    ensures Remaining(r) == Remaining(s)
  {
    if |s.currData| < c.eventPad then
      var n := Min(c.nPoints, |s.source|);
      s.(currData := s.currData + s.source[..n], source := s.source[n..])
    else s
  }

  /** Lines 217-226: the arguments the accepted event is dispatched with. */
  function Record(c: Config, s: Seg, pad: seq<real>): EventRecord
  {
    EventRecord(
      s.preeventdat + s.eventdat + pad,
      c.fsHz,
      |s.preeventdat| + 1,
      |s.preeventdat| + |s.eventdat| + 1,
      c.baseline,
      c.procSettings,
      c.writeEventTS,
      s.dataStart)
  }

  /**
    The payload is buffer, run and pad in that order, and the 1-based
    offsets pick out exactly the run.
   */
  lemma RecordLayout(c: Config, s: Seg, pad: seq<real>)
    ensures var e := Record(c, s, pad);
      && |e.data| == |s.preeventdat| + |s.eventdat| + |pad|
      && e.eventStart == |s.preeventdat| + 1
      && e.eventEnd - e.eventStart == |s.eventdat|
      && e.data[..|s.preeventdat|] == s.preeventdat
      && e.data[e.eventStart - 1..e.eventEnd - 1] == s.eventdat
      && e.data[e.eventEnd - 1..] == pad
      && e.absDataIdx == s.dataStart
  {
    var e := Record(c, s, pad);
    assert e.data == s.preeventdat + s.eventdat + pad;
  }

  /**
    What every dispatched event satisfies: 1-based offsets with at most
    eventPad samples before the run, a run of at least minEventLength, an
    end offset at most one past the payload, and snapshots of the settings.
   */
  predicate WellFormed(c: Config, e: EventRecord) {
    && 1 <= e.eventStart <= c.eventPad + 1
    && e.eventStart < e.eventEnd <= |e.data| + 1
    && c.minEventLength <= e.eventEnd - e.eventStart
    && e.fsHz == c.fsHz
    && e.baselineStats == c.baseline
    && e.algoSettings == c.procSettings
    && e.saveTS == c.writeEventTS
  }

  /**
    Lines 209-227: accept the run and dispatch it, or reject it
    (SettleDispatches states what this promises).
   */
  function Settle(c: Config, s: Seg, pad: seq<real>): Seg
  {
    if c.minEventLength <= |s.eventdat| then
      s.(eventcount := s.eventcount + 1, log := s.log + [Record(c, s, pad)])
    else s
  }

  /** The trailing pad: selectS over the first eventPad queued samples. */
  function TrailingPad(c: Config, sel: Selector, s: Seg): seq<real>
    requires c.eventPad <= |s.currData|
  {
    sel(s.currData[..c.eventPad], c.eventThreshold / 2.0, c.baseline.mean, c.baseline.sd)
  }

  /**
    The pad depends on the queue only through its first eventPad samples:
    what follows them, and the rest of the state, make no difference.
   */
  lemma PadReadsQueueHead(c: Config, sel: Selector, s: Seg, s': Seg)
    requires c.eventPad <= |s.currData| && c.eventPad <= |s'.currData|
    requires s.currData[..c.eventPad] == s'.currData[..c.eventPad]
    ensures TrailingPad(c, sel, s) == TrailingPad(c, sel, s')
  {
  }

  /**
    Lines 182-229, once the sample t has been taken and an event is open:
    grow the run until a sample reaches the buffer's mean, pad the event,
    settle it and go back to idle -- or the way the routine ends during it.
   */
  function Advance(c: Config, sel: Selector, s: Seg, t: real): (r: StepResult)
    ensures r.Continue? ==> Remaining(r.s) <= Remaining(s)
    ensures r.s.globalDataIndex + Remaining(r.s) == s.globalDataIndex + Remaining(s)
  {
    if s.preeventdat == [] then Halt(s, EmptyAverage)
    else
      var g := Grow(s.currData, t, Abs(Mean(s.preeventdat)));
      var s3 := PopRun(s, g.popped);
      if !g.ended then Halt(s3, Exhausted)
      else Close(c, sel, s3)
  }

  /**
    Lines 191-229, once the run has ended: back to idle, top the queue up
    for the pad, settle the event with the filtered pad and clear the
    look-behind buffer -- or run out of samples for the pad.
   */
  function Close(c: Config, sel: Selector, s: Seg): (r: StepResult)
    ensures Remaining(r.s) == Remaining(s) && r.s.globalDataIndex == s.globalDataIndex
  {
    var s2 := Refill(c, s.(eventstart := false));
    if |s2.currData| < c.eventPad then Halt(s2, Exhausted)
    else Continue(Settle(c, s2, TrailingPad(c, sel, s2)).(preeventdat := []))
  }

  /**
    One pass of the outer loop (lines 168-229), or the way the routine
    ends during it.
   */
  function Step(c: Config, sel: Selector, s: Seg): (r: StepResult)
    ensures r.Continue? ==> Remaining(r.s) < Remaining(s)
    ensures r.s.globalDataIndex + Remaining(r.s) == s.globalDataIndex + Remaining(s)
  {
    if s.currData == [] then Halt(s, Exhausted)
    else
      var s1 := Take(c, s);
      if !s1.eventstart then Continue(s1)
      else Advance(c, sel, s1, s.currData[0])
  }

  /** The whole call: passes of the outer loop until the routine ends. */
  function Segment(c: Config, sel: Selector, s: Seg): (r: Finished)
    decreases Remaining(s)
    ensures r.s.globalDataIndex + Remaining(r.s) == s.globalDataIndex + Remaining(s)
  {
    match Step(c, sel, s)
    case Continue(s') => Segment(c, sel, s')
    case Halt(s', why) => Finished(s', why)
  }

  /**
    The invariant the segmenter keeps between calls: the look-behind buffer
    within its capacity, a non-empty run (and, with a positive pad, a
    non-empty buffer) while an event is open, one count per dispatch, and
    every dispatched event well formed.
   */
  predicate Inv(c: Config, s: Seg) {
    && |s.preeventdat| <= c.eventPad
    && (s.eventstart ==> 1 <= |s.eventdat| && (0 < c.eventPad ==> s.preeventdat != []))
    && s.eventcount == |s.log|
    && (forall i | 0 <= i < |s.log| :: WellFormed(c, s.log[i]))
  }
}
