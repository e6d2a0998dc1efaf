/** Properties of the segmenter's specification (module SegmentModel). */
module SegmentLemmas {
  import opened Samples
  import opened SegmentSettings
  import opened SegmentModel

  /**
    The refill (lines 194-195) only appends: when fewer than eventPad
    samples are queued, one chunk of at most nPoints samples moves from the
    trajectory to the end of the queue; otherwise nothing changes.
   */
  lemma RefillAppends(c: Config, s: Seg)
    ensures var r := Refill(c, s);
      && r == s.(currData := r.currData, source := r.source)
      && r.currData[..|s.currData|] == s.currData
      && r.currData[|s.currData|..] + r.source == s.source
      && (c.eventPad <= |s.currData| ==> r == s)
      && (|s.currData| < c.eventPad ==> |r.currData| - |s.currData| == Min(c.nPoints, |s.source|))
  {
    var r := Refill(c, s);
    if |s.currData| < c.eventPad {
      var n := Min(c.nPoints, |s.source|);
      assert r.currData[|s.currData|..] == s.source[..n];
      assert s.source[..n] + s.source[n..] == s.source;
    }
  }

  /**
    Acceptance (lines 209-227): the event is dispatched, and counted, exactly
    when the run has at least minEventLength samples; the payload is
    buffer ++ run ++ pad with 1-based offsets of the run; a rejected event
    changes nothing.
   */
  lemma SettleDispatches(c: Config, s: Seg, pad: seq<real>)
    ensures var r := Settle(c, s, pad);
      && (|r.log| == |s.log| + 1 <==> c.minEventLength <= |s.eventdat|)
      && (|r.log| != |s.log| + 1 ==> r == s)
      && (|r.log| == |s.log| + 1 ==>
            && r == s.(eventcount := s.eventcount + 1, log := r.log)
            && r.log[..|s.log|] == s.log
            && r.log[|s.log|].data == s.preeventdat + s.eventdat + pad
            && r.log[|s.log|].eventStart == |s.preeventdat| + 1
            && r.log[|s.log|].eventEnd == r.log[|s.log|].eventStart + |s.eventdat|
            && r.log[|s.log|].absDataIdx == s.dataStart
            && (|s.preeventdat| <= c.eventPad && 1 <= |s.eventdat| ==> WellFormed(c, r.log[|s.log|])))
  {
  }

  /**
    Bookkeeping of the end of an event (lines 191-229): the log grows by at
    most one event, with eventcount, and only when the pass goes on; the
    event is closed either way.
   */
  lemma CloseBookkeeping(c: Config, sel: Selector, s: Seg)
    ensures var r := Close(c, sel, s);
      && |s.log| <= |r.s.log| <= |s.log| + 1
      && r.s.log[..|s.log|] == s.log
      && r.s.eventcount == s.eventcount + (|r.s.log| - |s.log|)
      && (r.Halt? ==> r.s.log == s.log && r.s.eventcount == s.eventcount)
      && !r.s.eventstart
  {
    var s2 := Refill(c, s.(eventstart := false));
    if c.eventPad <= |s2.currData| {
      SettleDispatches(c, s2, TrailingPad(c, sel, s2));
    }
  }

  /**
    Bookkeeping of one pass: the log only grows, by at most one event, and
    eventcount with it; an ending pass dispatches nothing; a pass that goes
    on leaves no event open.
   */
  lemma StepBookkeeping(c: Config, sel: Selector, s: Seg)
    ensures var r := Step(c, sel, s);
      && |s.log| <= |r.s.log| <= |s.log| + 1
      && r.s.log[..|s.log|] == s.log
      && r.s.eventcount == s.eventcount + (|r.s.log| - |s.log|)
      && (r.Halt? ==> r.s.log == s.log && r.s.eventcount == s.eventcount)
      && (r.Continue? ==> !r.s.eventstart)
  {
    if s.currData != [] {
      var s1 := Take(c, s);
      if s1.eventstart && s1.preeventdat != [] {
        var g := Grow(s1.currData, s.currData[0], Abs(Mean(s1.preeventdat)));
        var s3 := PopRun(s1, g.popped);
        if g.ended {
          CloseBookkeeping(c, sel, s3);
          assert Step(c, sel, s) == Close(c, sel, s3);
        }
      }
    }
  }

  /** Taking a sample keeps the invariant. */
  lemma TakeKeepsInv(c: Config, s: Seg)
    requires Inv(c, s) && s.currData != []
    ensures Inv(c, Take(c, s))
  {
    var r := Take(c, s);
    assert r.log == s.log;
  }

  /** Settling an event keeps the invariant, and so does clearing the buffer. */
  lemma SettleKeepsInv(c: Config, s: Seg, pad: seq<real>)
    requires Inv(c, s) && !s.eventstart && 1 <= |s.eventdat|
    ensures Inv(c, Settle(c, s, pad).(preeventdat := []))
  {
    SettleDispatches(c, s, pad);
    var r := Settle(c, s, pad).(preeventdat := []);
    forall i | 0 <= i < |r.log| ensures WellFormed(c, r.log[i]) {
      if i < |s.log| {
        assert r.log[i] == r.log[..|s.log|][i];
      }
    }
  }

  /** One pass of the loop keeps the invariant. */
  lemma StepKeepsInv(c: Config, sel: Selector, s: Seg)
    requires Inv(c, s)
    ensures Inv(c, Step(c, sel, s).s)
  {
    if s.currData == [] {
      return;
    }
    var s1 := Take(c, s);
    TakeKeepsInv(c, s);
    if !s1.eventstart || s1.preeventdat == [] {
      assert Step(c, sel, s).s == s1;
      return;
    }
    var g := Grow(s1.currData, s.currData[0], Abs(Mean(s1.preeventdat)));
    var s3 := PopRun(s1, g.popped);
    assert s3.log == s1.log && s3.preeventdat == s1.preeventdat;
    if !g.ended {
      assert Step(c, sel, s).s == s3;
      return;
    }
    var s2 := Refill(c, s3.(eventstart := false));
    assert s2.log == s1.log && s2.preeventdat == s1.preeventdat;
    if |s2.currData| < c.eventPad {
      assert Step(c, sel, s).s == s2;
      return;
    }
    var pad := TrailingPad(c, sel, s2);
    assert Step(c, sel, s).s == Settle(c, s2, pad).(preeventdat := []);
    SettleKeepsInv(c, s2, pad);
  }

  /** The invariant holds whenever a call ends, however it ends. */
  lemma {:induction false} SegmentKeepsInv(c: Config, sel: Selector, s: Seg)
    requires Inv(c, s)
    ensures Inv(c, Segment(c, sel, s).s)
    decreases Remaining(s)
  {
    StepKeepsInv(c, sel, s);
    match Step(c, sel, s)
    case Continue(s') => SegmentKeepsInv(c, sel, s');
    case Halt(_, _) =>
  }

  /**
    eventcount moves in step with the dispatches: it grows by exactly the
    number of events dispatched, earlier dispatches are kept as they were,
    and it never decreases.
   */
  lemma {:induction false} SegmentCountsDispatches(c: Config, sel: Selector, s: Seg)
    ensures var r := Segment(c, sel, s).s;
      && |s.log| <= |r.log|
      && r.log[..|s.log|] == s.log
      && r.eventcount == s.eventcount + (|r.log| - |s.log|)
      && s.eventcount <= r.eventcount
    decreases Remaining(s)
  {
    StepBookkeeping(c, sel, s);
    match Step(c, sel, s)
    case Continue(s') =>
      SegmentCountsDispatches(c, sel, s');
      var r := Segment(c, sel, s').s;
      assert r.log[..|s.log|] == r.log[..|s'.log|][..|s.log|];
    case Halt(_, _) =>
  }

  /**
    With a positive pad the look-behind buffer is never empty when the
    local mean is taken, so a call only ever ends by running out of data.
   */
  lemma {:induction false} PositivePadOnlyExhausts(c: Config, sel: Selector, s: Seg)
    requires Inv(c, s) && 0 < c.eventPad
    ensures Segment(c, sel, s).why == Exhausted
    decreases Remaining(s)
  {
    StepKeepsInv(c, sel, s);
    var r := Step(c, sel, s);
    if s.currData != [] {
      var s1 := Take(c, s);
      assert s1.eventstart ==> s1.preeventdat != [];
    }
    match r
    case Continue(s') => PositivePadOnlyExhausts(c, sel, s');
    case Halt(_, _) =>
  }

  /**
    The start of an event (lines 172-181), from idle: it starts exactly
    when |t| < thrCurr; the trigger sample is buffered first, so it is both
    the last sample of the look-behind buffer and the whole run; and the
    absolute start counts back over the buffer.
   */
  lemma TriggerStartsEvent(c: Config, s: Seg)
    requires s.currData != [] && !s.eventstart
    ensures var t := s.currData[0]; var r := Take(c, s);
      && (r.eventstart <==> Abs(t) < c.thrCurr)
      && r.preeventdat == Push(s.preeventdat, t, c.eventPad)
      && r.globalDataIndex == s.globalDataIndex + 1
      && (r.eventstart ==>
            && r.eventdat == [t]
            && (0 < c.eventPad ==> r.preeventdat[|r.preeventdat| - 1] == t)
            && r.dataStart == r.globalDataIndex - |r.preeventdat| - 1)
  {
  }

  /**
    A pass that finds an event already open (one left open when an earlier
    call ran dry inside the run, lines 168-181): the sample is not buffered
    and is not added to the run. When its magnitude is below thrCurr the
    run restarts as that one sample, dropping what was collected, and the
    absolute start is counted back over the buffer kept from the earlier
    trigger; otherwise the run and its start are left as they were.
   */
  lemma ResumedRunRestarts(c: Config, s: Seg)
    requires s.currData != [] && s.eventstart
    ensures var t := s.currData[0]; var r := Take(c, s);
      && r.eventstart
      && r.preeventdat == s.preeventdat
      && (Abs(t) < c.thrCurr ==>
            r.eventdat == [t] && r.dataStart == s.globalDataIndex - |s.preeventdat|)
      && (c.thrCurr <= Abs(t) ==> r.eventdat == s.eventdat && r.dataStart == s.dataStart)
  {
  }

  /**
    An event cycle begun from idle (lines 176-188): the run starts with the
    trigger sample, every run sample but the last is below the mean of the
    look-behind buffer, and the last one (kept in the run) is not.
   */
  lemma IdleCycleRun(c: Config, sel: Selector, s: Seg)
    requires !s.eventstart && s.currData != [] && Abs(s.currData[0]) < c.thrCurr
    requires Step(c, sel, s).Continue?
    ensures var t := s.currData[0]; var r := Step(c, sel, s).s;
      var pre := Push(s.preeventdat, t, c.eventPad);
      && pre != []
      && var mean := Abs(Mean(pre));
      && 1 <= |r.eventdat|
      && r.eventdat[0] == t
      && (forall i | 0 <= i < |r.eventdat| - 1 :: Abs(r.eventdat[i]) < mean)
      && mean <= Abs(r.eventdat[|r.eventdat| - 1])
      && r.eventdat == [t] + s.currData[1..][..|r.eventdat| - 1]
  {
    var t := s.currData[0];
    var s1 := Take(c, s);
    var g := Grow(s1.currData, t, Abs(Mean(s1.preeventdat)));
    var s3 := PopRun(s1, g.popped);
    assert Step(c, sel, s) == Close(c, sel, s3);
    CloseSettles(c, sel, s3);
    GrowStopsAtMean(s1.currData, t, Abs(Mean(s1.preeventdat)));
    assert s3.eventdat == [t] + s1.currData[..g.popped];
    assert forall i | 0 <= i <= g.popped :: s3.eventdat[i] == ([t] + s1.currData)[i];
  }

  /**
    The end of an event that the pass gets past (lines 191-229): idle with
    an empty look-behind buffer and at least eventPad samples queued,
    whether or not the event was accepted; the event is dispatched exactly
    when the run has at least minEventLength samples; the payload is
    the look-behind buffer ++ run ++ trailing pad with 1-based offsets of
    the run; and the pad is read from the samples the next pass starts from.
   */
  lemma CloseSettles(c: Config, sel: Selector, s: Seg)
    requires Close(c, sel, s).Continue?
    ensures var r := Close(c, sel, s).s;
      && !r.eventstart
      && r.preeventdat == []
      && c.eventPad <= |r.currData|
      && r.eventdat == s.eventdat
      && (|r.log| == |s.log| + 1 <==> c.minEventLength <= |r.eventdat|)
      && (|r.log| == |s.log| ==> r.log == s.log && r.eventcount == s.eventcount)
      && (|r.log| == |s.log| + 1 ==>
            var e := r.log[|s.log|];
            && 1 <= e.eventStart <= |e.data| + 1
            && e.data[..e.eventStart - 1] == s.preeventdat
            && e.data == e.data[..e.eventStart - 1] + r.eventdat + TrailingPad(c, sel, r)
            && e.eventEnd == e.eventStart + |r.eventdat|)
  {
    var r := Close(c, sel, s).s;
    var s2 := Refill(c, s.(eventstart := false));
    var pad := TrailingPad(c, sel, s2);
    SettleDispatches(c, s2, pad);
    assert r == Settle(c, s2, pad).(preeventdat := []);
    if |r.log| == |s.log| + 1 {
      var e := r.log[|s.log|];
      assert e.data == s2.preeventdat + s2.eventdat + pad;
      assert e.data[..e.eventStart - 1] == s2.preeventdat;
    }
  }

  /**
    A completed event cycle (lines 183-229): the run is closed as
    CloseSettles describes -- back to idle with an empty buffer, dispatched
    exactly when long enough, payload buffer ++ run ++ pad with the pad
    read from the samples the next pass starts from. The lead pad is the
    look-behind buffer: from idle it already ends with the trigger sample
    (line 173 runs before line 176); for an event left open by an earlier
    call it is the buffer kept since that call's trigger.
   */
  lemma EventCycle(c: Config, sel: Selector, s: Seg)
    requires s.currData != [] && (s.eventstart || Abs(s.currData[0]) < c.thrCurr)
    requires Step(c, sel, s).Continue?
    ensures var r := Step(c, sel, s).s;
      && !r.eventstart
      && r.preeventdat == []
      && c.eventPad <= |r.currData|
      && (|r.log| == |s.log| + 1 <==> c.minEventLength <= |r.eventdat|)
      && (|r.log| == |s.log| ==> r.log == s.log && r.eventcount == s.eventcount)
      && (|r.log| == |s.log| + 1 ==>
            var e := r.log[|s.log|];
            && 1 <= e.eventStart <= |e.data| + 1
            && e.data[..e.eventStart - 1] ==
                 (if s.eventstart then s.preeventdat
                  else Push(s.preeventdat, s.currData[0], c.eventPad))
            && e.data == e.data[..e.eventStart - 1] + r.eventdat + TrailingPad(c, sel, r)
            && e.eventEnd == e.eventStart + |r.eventdat|)
  {
    var s1 := Take(c, s);
    var g := Grow(s1.currData, s.currData[0], Abs(Mean(s1.preeventdat)));
    var s3 := PopRun(s1, g.popped);
    assert Step(c, sel, s) == Close(c, sel, s3);
    CloseSettles(c, sel, s3);
    assert s3.log == s.log && s3.eventcount == s.eventcount;
  }

  /**
    With eventPad = 0 the look-behind buffer holds nothing, so the first
    sample that starts an event makes util.avg divide by zero.
   */
  lemma ZeroPadCannotAverage(c: Config, sel: Selector, s: Seg)
    requires c.eventPad == 0 && !s.eventstart && s.currData != []
    requires Abs(s.currData[0]) < c.thrCurr
    ensures Step(c, sel, s).Halt? && Step(c, sel, s).why == EmptyAverage
  {
    assert Take(c, s).preeventdat == [];
  }

  /**
    Where a pass stops when the samples run out: before taking a sample
    (nothing changes), inside the run (the event stays open with the queue
    empty; the next call does not continue the run, see ResumedRunRestarts),
    or while padding (the event is closed, fewer than eventPad samples are
    queued, nothing has been dispatched, and the look-behind buffer is left
    as the sample's take made it, uncleared). The top-up asks for one chunk only, so data can remain in
    the trajectory at that point, but only when a chunk of nPoints samples
    is shorter than the pad.
   */
  lemma ExhaustionStates(c: Config, sel: Selector, s: Seg)
    requires Step(c, sel, s).Halt? && Step(c, sel, s).why == Exhausted
    ensures var r := Step(c, sel, s).s;
      || (s.currData == [] && r == s)
      || (r.eventstart && r.currData == [] && r.source == s.source && r.log == s.log)
      || (&& s.currData != [] && !r.eventstart && |r.currData| < c.eventPad && r.log == s.log
          && r.preeventdat == Take(c, s).preeventdat
          && (r.source == [] || c.nPoints < c.eventPad))
  {
    if s.currData != [] {
      var s1 := Take(c, s);
      var g := Grow(s1.currData, s.currData[0], Abs(Mean(s1.preeventdat)));
      var s3 := PopRun(s1, g.popped);
      if g.ended {
        assert Step(c, sel, s) == Close(c, sel, s3);
        RefillAppends(c, s3.(eventstart := false));
      }
    }
  }

  /** With thrCurr <= 0, an idle pass only buffers the sample it takes. */
  lemma IdleStepBelowZero(c: Config, sel: Selector, s: Seg)
    requires c.thrCurr <= 0.0 && !s.eventstart && s.currData != []
    ensures Step(c, sel, s) == Continue(s.(
              currData := s.currData[1..],
              globalDataIndex := s.globalDataIndex + 1,
              preeventdat := Push(s.preeventdat, s.currData[0], c.eventPad)))
  {
    assert !(Abs(s.currData[0]) < c.thrCurr);
  }

  /**
    When thrCurr <= 0 no sample can start an event: an idle call reads the
    whole queue without dispatching or counting anything, never refills,
    and leaves the last eventPad samples it read in the buffer.
   */
  lemma {:induction false} NonPositiveThresholdNeverTriggers(c: Config, sel: Selector, s: Seg)
    requires c.thrCurr <= 0.0 && !s.eventstart && |s.preeventdat| <= c.eventPad
    ensures var r := Segment(c, sel, s);
      && r.why == Exhausted
      && r.s.currData == []
      && r.s.source == s.source
      && !r.s.eventstart
      && r.s.log == s.log
      && r.s.eventcount == s.eventcount
      && r.s.preeventdat == Window(s.preeventdat + s.currData, c.eventPad)
    decreases |s.currData|
  {
    if s.currData == [] {
      assert Segment(c, sel, s) == Finished(s, Exhausted);
      assert s.preeventdat + s.currData == s.preeventdat;
    } else {
      IdleStepBelowZero(c, sel, s);
      var s1 := Step(c, sel, s).s;
      NonPositiveThresholdNeverTriggers(c, sel, s1);
      PushThenWindow(s.preeventdat, s.currData, c.eventPad);
    }
  }
}
