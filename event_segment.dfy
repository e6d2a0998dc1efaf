/**
  The eventSegment partition object: the fields its base class supplies,
  the settings _init reads, and the state _eventsegment updates in place.
 */
module EventSegmentation {
  import opened Wrappers
  import opened Samples
  import opened SegmentSettings
  import opened SegmentModel
  import opened SegmentLemmas

  /*
    The phase methods of EventSegment state their effect field by field;
    these lemmas assemble those field-wise effects into the specification's
    whole-state steps.
   */

  lemma TakeSampleMatches(c: Config, s0: Seg, t: real, s: Seg)
    requires s0.currData != [] && t == s0.currData[0]
    requires s.currData == s0.currData[1..] && s.source == s0.source
    requires s.globalDataIndex == s0.globalDataIndex + 1
    requires s.preeventdat == if s0.eventstart then s0.preeventdat
                              else Push(s0.preeventdat, t, c.eventPad)
    requires s.eventstart == (s0.eventstart || Abs(t) < c.thrCurr)
    requires Abs(t) < c.thrCurr ==>
      s.eventdat == [t] && s.dataStart == s.globalDataIndex - |s.preeventdat| - 1
    requires !(Abs(t) < c.thrCurr) ==> s.eventdat == s0.eventdat && s.dataStart == s0.dataStart
    requires s.eventcount == s0.eventcount && s.log == s0.log
    ensures s == Take(c, s0)
  {
  }

  lemma GrowRunMatches(s1: Seg, k: nat, s: Seg)
    requires k <= |s1.currData|
    requires s.currData == s1.currData[k..] && s.eventdat == s1.eventdat + s1.currData[..k]
    requires s.globalDataIndex == s1.globalDataIndex + k
    requires s.source == s1.source && s.eventstart == s1.eventstart
    requires s.preeventdat == s1.preeventdat && s.dataStart == s1.dataStart
    requires s.eventcount == s1.eventcount && s.log == s1.log
    ensures s == PopRun(s1, k)
  {
  }

  lemma TopUpMatches(c: Config, s3: Seg, s: Seg)
    requires var n := if |s3.currData| < c.eventPad then Min(c.nPoints, |s3.source|) else 0;
      s.currData == s3.currData + s3.source[..n] && s.source == s3.source[n..]
    requires !s.eventstart && s.eventdat == s3.eventdat && s.globalDataIndex == s3.globalDataIndex
    requires s.preeventdat == s3.preeventdat && s.dataStart == s3.dataStart
    requires s.eventcount == s3.eventcount && s.log == s3.log
    ensures s == Refill(c, s3.(eventstart := false))
  {
  }

  lemma SettleEventMatches(c: Config, pad: seq<real>, s2: Seg, s: Seg)
    requires s.currData == s2.currData && s.source == s2.source
    requires s.eventstart == s2.eventstart && s.eventdat == s2.eventdat
    requires s.globalDataIndex == s2.globalDataIndex && s.dataStart == s2.dataStart
    requires s.preeventdat == []
    requires c.minEventLength <= |s2.eventdat| ==>
      s.eventcount == s2.eventcount + 1 && s.log == s2.log + [Record(c, s2, pad)]
    requires |s2.eventdat| < c.minEventLength ==>
      s.eventcount == s2.eventcount && s.log == s2.log
    ensures s == Settle(c, s2, pad).(preeventdat := [])
  {
  }

  class EventSegment {
    // Supplied by the base class (metaEventPartition). The configuration
    // is fixed once construction is over.
    var currData: seq<real>
    var trajectory: seq<real>       // what trajDataObj.popdata has yet to supply
    var globalDataIndex: int
    var settingsDict: SettingsDict
    const nPoints: nat
    const fsHz: real
    const writeEventTS: bool
    const driftThreshold: real
    const maxDriftRate: real
    const eventProcSettingsDict: SettingsDict
    const selectS: Selector         // util.selectS

    // Set by _init.
    const blockSizeSec: real
    const eventPad: nat
    const minEventLength: int
    const eventThreshold: real
    const meanOpenCurr: real
    const sdOpenCurr: real
    const slopeOpenCurr: real
    const thrCurr: real
    const enableCheckDrift: bool

    // Event partition state.
    var eventstart: bool
    var eventdat: seq<real>
    var preeventdat: seq<real>
    var dataStart: int
    var eventcount: nat
    var eventprocessedcount: nat
    ghost var dispatched: seq<EventRecord>   // every event handed to _processEvent

    function Cfg(): Config {
      Config(eventPad, minEventLength, eventThreshold,
             Baseline(meanOpenCurr, sdOpenCurr, slopeOpenCurr),
             thrCurr, fsHz, writeEventTS, nPoints, eventProcSettingsDict)
    }

    ghost function State(): Seg
      reads this
    {
      Seg(currData, trajectory, globalDataIndex, eventstart, eventdat,
          preeventdat, dataStart, eventcount, dispatched)
    }

    ghost predicate Valid()
      reads this
    {
      Inv(Cfg(), State())
    }

    /**
      Construction by the base class, which ends by running _init; this is
      the path on which _init succeeds, with `p` the settings it reads
      (and removes) from the settings dictionary. thrCurr is derived from
      the baseline, the drift check is enabled when both drift limits are
      non-negative, and the partition starts with no event, an empty
      look-behind buffer of capacity eventPad and zero counts.
     */
    constructor (currData: seq<real>, trajectory: seq<real>, nPoints: nat, fsHz: real,
                 writeEventTS: bool, driftThreshold: real, maxDriftRate: real,
                 settingsDict: SettingsDict, eventProcSettingsDict: SettingsDict,
                 selectS: Selector, p: Settings)
      requires ParseSettings(settingsDict) == Success(p) && 0 <= p.eventPad
      ensures this.currData == currData && this.trajectory == trajectory
      ensures this.nPoints == nPoints && this.fsHz == fsHz && this.writeEventTS == writeEventTS
      ensures this.driftThreshold == driftThreshold && this.maxDriftRate == maxDriftRate
      ensures this.eventProcSettingsDict == eventProcSettingsDict && this.selectS == selectS
      ensures this.settingsDict == settingsDict - SettingKeys
      ensures blockSizeSec == p.blockSizeSec && eventPad == p.eventPad
      ensures minEventLength == p.minEventLength && eventThreshold == p.eventThreshold
      ensures meanOpenCurr == p.meanOpenCurr && sdOpenCurr == p.sdOpenCurr
      ensures slopeOpenCurr == p.slopeOpenCurr
      ensures thrCurr == ThresholdCurrent(p)
      ensures enableCheckDrift <==> 0.0 <= driftThreshold && 0.0 <= maxDriftRate
      ensures globalDataIndex == 0
      ensures !eventstart && eventdat == [] && preeventdat == []
      ensures eventcount == 0 && eventprocessedcount == 0 && dispatched == []
      ensures Valid()
    {
      this.currData := currData;
      this.trajectory := trajectory;
      this.nPoints := nPoints;
      this.fsHz := fsHz;
      this.writeEventTS := writeEventTS;
      this.driftThreshold := driftThreshold;
      this.maxDriftRate := maxDriftRate;
      this.eventProcSettingsDict := eventProcSettingsDict;
      this.selectS := selectS;
      globalDataIndex := 0;

      this.settingsDict := settingsDict - SettingKeys;
      blockSizeSec := p.blockSizeSec;
      eventPad := p.eventPad;
      minEventLength := p.minEventLength;
      eventThreshold := p.eventThreshold;
      meanOpenCurr := p.meanOpenCurr;
      sdOpenCurr := p.sdOpenCurr;
      slopeOpenCurr := p.slopeOpenCurr;

      thrCurr := Abs(p.meanOpenCurr) - p.eventThreshold * Abs(p.sdOpenCurr);
      enableCheckDrift := !(driftThreshold < 0.0 || maxDriftRate < 0.0);

      eventstart := false;
      eventdat := [];
      preeventdat := [];
      dataStart := 0;
      eventcount := 0;
      eventprocessedcount := 0;
      dispatched := [];
    }

    /**
      Construction with _init, including the ways _init fails: a setting
      that does not convert, and a negative eventPad, which the bounded
      deque refuses as its capacity.
     */
    static method Create(currData: seq<real>, trajectory: seq<real>, nPoints: nat, fsHz: real,
                         writeEventTS: bool, driftThreshold: real, maxDriftRate: real,
                         settingsDict: SettingsDict, eventProcSettingsDict: SettingsDict,
                         selectS: Selector)
      returns (r: Result<EventSegment, SetupError>)
      ensures var p := ParseSettings(settingsDict);
        r.Success? <==> p.Success? && 0 <= p.value.eventPad
      ensures r.Failure? ==>
        r.error == if ParseSettings(settingsDict).Failure? then SettingsTypeError
                   else NegativeEventPad
      ensures r.Success? ==>
        && fresh(r.value) && r.value.Valid() && r.value.currData == currData
        && r.value.trajectory == trajectory && r.value.globalDataIndex == 0
        && r.value.eventPad == ParseSettings(settingsDict).value.eventPad
        && r.value.thrCurr == ThresholdCurrent(ParseSettings(settingsDict).value)
    {
      var parsed := ParseSettings(settingsDict);
      if parsed.Failure? {
        return Failure(SettingsTypeError);
      }
      var p := parsed.value;
      if p.eventPad < 0 {
        // deque(maxlen=eventPad) refuses a negative length
        return Failure(NegativeEventPad);
      }
      var o := new EventSegment(currData, trajectory, nPoints, fsHz, writeEventTS,
                                driftThreshold, maxDriftRate, settingsDict,
                                eventProcSettingsDict, selectS, p);
      r := Success(o);
    }

    /** trajDataObj.popdata(n): the next chunk of at most n samples. */
    method PopData(n: nat) returns (chunk: seq<real>)
      modifies this`trajectory
      ensures chunk == old(trajectory)[..Min(n, |old(trajectory)|)]
      ensures trajectory == old(trajectory)[|chunk|..]
    {
      chunk := trajectory[..Min(n, |trajectory|)];
      trajectory := trajectory[|chunk|..];
    }

    /** _processEvent(eventProcHnd(...)): a one-way hand-off. */
    method ProcessEvent(e: EventRecord)
      modifies this`dispatched
      ensures dispatched == old(dispatched) + [e]
    {
      dispatched := dispatched + [e];
    }

    /**
      Lines 168-181: pop the next sample, store it in the look-behind buffer
      while idle, and mark the start of an event when |t| < thrCurr.
     */
    method TakeSample() returns (t: real)
      requires currData != []
      modifies this`currData, this`globalDataIndex, this`preeventdat, this`eventstart,
               this`eventdat, this`dataStart
      ensures t == old(currData[0])
      ensures currData == old(currData[1..]) && globalDataIndex == old(globalDataIndex) + 1
      ensures preeventdat == if old(eventstart) then old(preeventdat)
                             else Push(old(preeventdat), t, eventPad)
      ensures eventstart == (old(eventstart) || Abs(t) < thrCurr)
      ensures Abs(t) < thrCurr ==>
        eventdat == [t] && dataStart == globalDataIndex - |preeventdat| - 1
      ensures !(Abs(t) < thrCurr) ==> eventdat == old(eventdat) && dataStart == old(dataStart)
    {
      t := currData[0];
      currData := currData[1..];
      globalDataIndex := globalDataIndex + 1;

      // store the latest point in a fixed buffer
      if !eventstart {
        preeventdat := Push(preeventdat, t, eventPad);
      }

      // mark the start of the event
      if Abs(t) < thrCurr {
        eventstart := true;
        eventdat := [t];
        dataStart := globalDataIndex - |preeventdat| - 1;
      }
    }

    /**
      Lines 184-188: keep popping samples into the run while the last one
      read is below the local mean. `ended` is false when the queue runs dry
      first.
     */
    method GrowRun(t0: real, mean: real) returns (ended: bool)
      modifies this`currData, this`eventdat, this`globalDataIndex
      ensures var g := Grow(old(currData), t0, mean);
        && ended == g.ended
        && currData == old(currData)[g.popped..]
        && eventdat == old(eventdat) + old(currData)[..g.popped]
        && globalDataIndex == old(globalDataIndex) + g.popped
    {
      ghost var q0, e0, i0 := currData, eventdat, globalDataIndex;
      ghost var g := Grow(currData, t0, mean);
      var t := t0;
      while Abs(t) < mean
        invariant |currData| <= |q0|
        invariant currData == q0[|q0| - |currData|..]
        invariant eventdat == e0 + q0[..|q0| - |currData|]
        invariant globalDataIndex == i0 + (|q0| - |currData|)
        invariant Grow(currData, t, mean).popped + (|q0| - |currData|) == g.popped
        invariant Grow(currData, t, mean).ended == g.ended
        decreases |currData|
      {
        if currData == [] {
          return false;
        }
        t := currData[0];
        currData := currData[1..];
        eventdat := eventdat + [t];
        globalDataIndex := globalDataIndex + 1;
      }
      ended := true;
    }

    /**
      Lines 194-195: when fewer than eventPad samples are queued, append
      the next chunk of at most nPoints samples.
     */
    method TopUp()
      modifies this`currData, this`trajectory
      ensures var n := if |old(currData)| < eventPad then Min(nPoints, |old(trajectory)|) else 0;
        currData == old(currData) + old(trajectory)[..n] && trajectory == old(trajectory)[n..]
    {
      if |currData| < eventPad {
        var chunk := PopData(nPoints);
        currData := currData + chunk;
      }
    }

    /**
      Lines 209-229: dispatch the event, padded with `pad`, when its run
      holds at least minEventLength samples, and clear the look-behind
      buffer.
     */
    method SettleEvent(pad: seq<real>)
      modifies this`eventcount, this`dispatched, this`preeventdat
      ensures preeventdat == []
      ensures minEventLength <= |eventdat| ==>
        && eventcount == old(eventcount) + 1
        && dispatched == old(dispatched) + [EventRecord(
             old(preeventdat) + eventdat + pad, fsHz,
             |old(preeventdat)| + 1, |old(preeventdat)| + |eventdat| + 1,
             Baseline(meanOpenCurr, sdOpenCurr, slopeOpenCurr),
             eventProcSettingsDict, writeEventTS, dataStart)]
      ensures |eventdat| < minEventLength ==>
        eventcount == old(eventcount) && dispatched == old(dispatched)
    {
      if |eventdat| >= minEventLength {
        eventcount := eventcount + 1;
        ProcessEvent(EventRecord(
          preeventdat + eventdat + pad,
          fsHz,
          |preeventdat| + 1,
          |preeventdat| + |eventdat| + 1,
          Baseline(meanOpenCurr, sdOpenCurr, slopeOpenCurr),
          eventProcSettingsDict,
          writeEventTS,
          dataStart));
      }
      preeventdat := [];
    }

    /**
      Lines 191-229, once the run has ended: reset the flag, top the queue
      up, filter the pad and settle the event. `exhausted` is set when
      fewer than eventPad samples are left to build the pad from.
     */
    method CloseEvent() returns (exhausted: bool)
      modifies this`eventstart, this`currData, this`trajectory, this`eventcount,
               this`dispatched, this`preeventdat
      ensures Close(Cfg(), selectS, old(State())) ==
              if exhausted then Halt(State(), Exhausted) else Continue(State())
    {
      ghost var s3 := State();
      // end of event
      eventstart := false;
      // make sure there are enough points to pad the event
      TopUp();
      TopUpMatches(Cfg(), s3, State());
      ghost var s2 := State();
      if |currData| < eventPad {
        // indexing past the end of the deque while building the pad
        return true;
      }
      var eventpaddat := selectS(currData[..eventPad], eventThreshold / 2.0,
                                 meanOpenCurr, sdOpenCurr);
      SettleEvent(eventpaddat);
      SettleEventMatches(Cfg(), eventpaddat, s2, State());
      exhausted := false;
    }

    /**
      _eventsegment: read samples until the data runs out, cutting out and
      dispatching the events in them. The new state is exactly the one the
      specification Segment computes, and the invariant (buffer bound, one
      count per dispatch, well-formed events) is kept.
     */
    method SegmentEvents() returns (why: HaltReason)
      requires Valid()
      modifies this`currData, this`trajectory, this`globalDataIndex, this`eventstart,
               this`eventdat, this`preeventdat, this`dataStart, this`eventcount,
               this`dispatched
      ensures Valid()
      ensures Finished(State(), why) == Segment(Cfg(), selectS, old(State()))
      ensures 0 < eventPad ==> why == Exhausted
      ensures |preeventdat| <= eventPad
      ensures old(eventcount) <= eventcount
      ensures eventcount - old(eventcount) == |dispatched| - |old(dispatched)|
    {
      ghost var c := Cfg();
      ghost var start := State();
      SegmentKeepsInv(c, selectS, start);
      SegmentCountsDispatches(c, selectS, start);
      if 0 < eventPad {
        PositivePadOnlyExhausts(c, selectS, start);
      }
      while true
        invariant Segment(c, selectS, State()) == Segment(c, selectS, start)
        decreases |currData| + |trajectory|
      {
        var halted;
        halted, why := Cycle();
        if halted {
          return;
        }
      }
    }

    /**
      One pass of the outer loop (lines 168-229): take a sample, and if an
      event is open grow its run, pad it and settle it. `halted` is set when
      the routine returns during the pass, for the reason in `why`.
     */
    method Cycle() returns (halted: bool, why: HaltReason)
      modifies this`currData, this`trajectory, this`globalDataIndex, this`eventstart,
               this`eventdat, this`preeventdat, this`dataStart, this`eventcount,
               this`dispatched
      ensures Step(Cfg(), selectS, old(State())) ==
              if halted then Halt(State(), why) else Continue(State())
    {
      ghost var s0 := State();
      if currData == [] {
        // popleft() on an empty deque
        return true, Exhausted;
      }
      var t := TakeSample();
      TakeSampleMatches(Cfg(), s0, t, State());
      if !eventstart {
        return false, Exhausted;
      }
      halted, why := RunEvent(t);
    }

    /**
      Lines 182-229, with an event open after taking the sample t: grow
      the run, then pad and settle the event.
     */
    method RunEvent(t: real) returns (halted: bool, why: HaltReason)
      modifies this`currData, this`trajectory, this`globalDataIndex, this`eventstart,
               this`eventdat, this`preeventdat, this`eventcount, this`dispatched
      ensures Advance(Cfg(), selectS, old(State()), t) ==
              if halted then Halt(State(), why) else Continue(State())
    {
      ghost var s1 := State();
      if preeventdat == [] {
        // util.avg of an empty buffer
        return true, EmptyAverage;
      }
      var mean := Abs(Mean(preeventdat));
      ghost var g := Grow(currData, t, mean);
      var ended := GrowRun(t, mean);
      GrowRunMatches(s1, g.popped, State());
      ghost var s3 := State();
      if !ended {
        return true, Exhausted;
      }
      var exhausted := CloseEvent();
      return exhausted, Exhausted;
    }
  }
}
