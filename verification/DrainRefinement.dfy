/** The streaming path leaves the stream exactly as the buffered path does. */
module DrainRefinement {
  import opened Options
  import opened Octets
  import opened Rtp
  import opened NalPayload
  import opened Depacketizer
  import opened ZeroRun
  import opened StreamModel
  import opened StreamSafety
  import opened Confluence
  import opened Fragments

  // ---- What the streaming path must know to agree with the depacketizer ----

  /** The depacketizer has not failed yet but can no longer return a unit: a parameter set is too
      long, or the open fragmentation unit already holds a start code or too long a parameter set. */
  ghost predicate Doomed(d: Depacketizing) {
    || !ParametersFit(d.nalus)
    || (d.fu.open && HasStartCode(d.buffer))
    || (d.fu.open && IsParameterType(d.fu.typ) && 1 + |d.buffer| > MAX_PARAMETER)
  }

  predicate IsParameterType(t: byte) {
    t == SPS_TYPE || t == PPS_TYPE
  }

  /** The streaming state agrees with the depacketizer in a state that can still succeed. */
  ghost predicate Agrees(v: Draining, d: Depacketizing) {
    && v.fu == d.fu && v.projectedBytes == d.projectedBytes
    && v.sps == Latest(d.nalus, SPS_TYPE) && v.pps == Latest(d.nalus, PPS_TYPE)
    && (d.fu.open ==>
          && v.fuZeroRun == FeedAll(IDLE, d.buffer).run
          && (IsParameterType(d.fu.typ) ==> v.fuParameter == [d.fu.nri * 32 + d.fu.typ] + d.buffer))
  }

  ghost predicate Simulates(v: Draining, progress: Progress) {
    match progress
    case Stopped(_) => v.invalid
    case Running(d) => R.Sound(d) && v.invalid == Doomed(d) && (!v.invalid ==> Agrees(v, d))
  }

  lemma {:induction false} LatestAppend(a: seq<Bytes>, b: seq<Bytes>, t: byte)
    ensures Latest(a + b, t) == Newer(Latest(b, t), Latest(a, t))
    decreases |b|
  {
    if b == [] {
      assert a + b == a;
    } else {
      var n := |b| - 1;
      assert (a + b)[..|a + b| - 1] == a + b[..n];
      LatestAppend(a, b[..n], t);
    }
  }

  lemma {:induction false} LatestHead(n: Bytes, rest: seq<Bytes>, t: byte)
    ensures Latest([n] + rest, t)
         == Newer(Latest(rest, t), if |n| != 0 && NalType(n[0]) == t then Some(n) else None)
  {
    LatestAppend([n], rest, t);
    assert [n][..0] == [];
  }

  /** Capturing complete NAL units: the streaming path takes their last parameter sets, or becomes
      invalid exactly when one of them is unacceptable. */
  lemma {:induction false} CaptureNalusMeaning(v: Draining, nalus: seq<Bytes>)
    ensures var w := CaptureNalus(v, nalus);
            (&& w.invalid == (v.invalid || !AllValid(nalus) || !ParametersFit(nalus))
             && (!w.invalid ==>
                   w == v.(sps := Newer(Latest(nalus, SPS_TYPE), v.sps), pps := Newer(Latest(nalus, PPS_TYPE), v.pps))))
    decreases |nalus|
  {
    if nalus != [] {
      var n, rest := nalus[0], nalus[1..];
      assert nalus == [n] + rest;
      LatestHead(n, rest, SPS_TYPE);
      LatestHead(n, rest, PPS_TYPE);
      FitHead(n, rest);
      if ValidNalu(n) {
        var next := if IsParameter(n) then SetDrainParameter(v, NalType(n[0]), n) else v;
        CaptureNalusMeaning(next, rest);
        hide ValidNalu, Latest;
      }
    }
  }

  lemma FitHead(n: Bytes, rest: seq<Bytes>)
    ensures ParametersFit([n] + rest) <==> (IsParameter(n) ==> |n| <= MAX_PARAMETER) && ParametersFit(rest)
    ensures AllValid([n] + rest) <==> ValidNalu(n) && AllValid(rest)
  {
    assert ([n] + rest)[0] == n;
    assert forall m | m in rest :: m in [n] + rest;
  }

  lemma FitAppend(a: seq<Bytes>, b: seq<Bytes>)
    ensures ParametersFit(a + b) <==> ParametersFit(a) && ParametersFit(b)
  {
    assert forall m | m in a :: m in a + b;
    assert forall m | m in b :: m in a + b;
  }

  // ---- One payload ----

  /** What the streaming path makes of a payload of whole NAL units. */
  lemma WholeNalusDrained(v: Draining, d: Depacketizing, payload: Bytes)
    requires v.fu == d.fu && v.projectedBytes == d.projectedBytes
    requires |payload| != 0 && NalType(payload[0]) != FU_A && CheckPayload(payload, d.fu).Good?
    ensures var nalus := Completed(payload, d.buffer);
            var projected := FramedSize(nalus);
            ValidateDrained(v, payload)
            == (if projected <= MAX_ACCESS_UNIT - d.projectedBytes
                then CaptureNalus(v.(projectedBytes := v.projectedBytes + projected), nalus) else v.(invalid := true))
  {
    WholeNalus(payload, d);
    GoodPayload(payload, d.fu);
    hide StapNalus, StapValid, CaptureNalus, CaptureDrainParameters, FramedSize, CheckPayload, Completed, NalType;
    var w := v.(projectedBytes := v.projectedBytes + FramedSize(Completed(payload, d.buffer)));
    assert CaptureDrainParameters(w, payload) == CaptureNalus(w, Completed(payload, d.buffer));
    assert v.(fu := d.fu) == v;
  }

  /** What the depacketizer makes of it. */
  lemma WholeNalusDepacketized(d: Depacketizing, payload: Bytes)
    requires R.Sound(d) && |payload| <= MAX_ACCESS_UNIT - d.payloadBytes
    requires |payload| != 0 && NalType(payload[0]) != FU_A && CheckPayload(payload, d.fu).Good?
    ensures var nalus := Completed(payload, d.buffer);
            var projected := FramedSize(nalus);
            (&& !d.fu.open
             && Step(d, payload)
                == (if projected <= MAX_ACCESS_UNIT - d.projectedBytes && AllValid(nalus)
                    then Running(Depacketizing(d.payloadBytes + |payload|, d.projectedBytes + projected,
                                               d.outputBytes + projected, d.fu, d.buffer, d.nalus + nalus))
                    else Stopped(InvalidUnit)))
  {
    WholeNalus(payload, d);
    hide StapNalus, StapValid, ValidNalu, FramedSize, WellFormedNalu, CheckPayload, Completed, NextBuffer, NalType, AllValid;
  }

  lemma WholeNalusAgree(v: Draining, d: Depacketizing, nalus: seq<Bytes>, projected: nat, size: nat)
    requires !v.invalid && !Doomed(d) && Agrees(v, d) && !d.fu.open
    ensures var w := CaptureNalus(v.(projectedBytes := v.projectedBytes + projected), nalus);
            var e := Depacketizing(d.payloadBytes + size, d.projectedBytes + projected, d.outputBytes + projected, d.fu, d.buffer, d.nalus + nalus);
            (if AllValid(nalus) then w.invalid == Doomed(e) && (!w.invalid ==> Agrees(w, e)) else w.invalid)
  {
    hide ValidNalu, CaptureNalus, Latest, AllValid, ParametersFit, HasStartCode, FeedAll;
    CaptureNalusMeaning(v.(projectedBytes := v.projectedBytes + projected), nalus);
    LatestAppend(d.nalus, nalus, SPS_TYPE);
    LatestAppend(d.nalus, nalus, PPS_TYPE);
    FitAppend(d.nalus, nalus);
  }

  /** Whole NAL units, alone or aggregated. */
  lemma WholeNalusStep(v: Draining, d: Depacketizing, payload: Bytes)
    requires !v.invalid && Simulates(v, Running(d)) && |payload| <= MAX_ACCESS_UNIT - d.payloadBytes
    requires |payload| != 0 && NalType(payload[0]) != FU_A
    ensures Simulates(ValidateDrained(v, payload), Step(d, payload))
  {
    if CheckPayload(payload, d.fu).Good? {
      hide ValidateDrained, Step, CheckPayload, Doomed, Agrees, R.Sound, CaptureNalus, Completed, FramedSize, AllValid;
      GoodPayload(payload, d.fu);
      WholeNalusDrained(v, d, payload);
      WholeNalusDepacketized(d, payload);
      var nalus := Completed(payload, d.buffer);
      WholeNalusAgree(v, d, nalus, FramedSize(nalus), |payload|);
      if Step(d, payload).Running? {
        R.StepSound(d, payload);
      }
    } else {
      hide ValidateDrained, Step, CheckPayload, Doomed, R.Sound, CaptureNalus, FramedSize, AllValid;
      BadPayloadStep(v, d, payload);
    }
  }

  lemma BadPayloadStep(v: Draining, d: Depacketizing, payload: Bytes)
    requires v.fu == d.fu && |payload| != 0 && !CheckPayload(payload, d.fu).Good?
    ensures ValidateDrained(v, payload).invalid && Step(d, payload).Stopped?
  {
    hide CheckPayload, Completed, FramedSize;
  }

  lemma WholeNalus(payload: Bytes, d: Depacketizing)
    requires |payload| != 0 && NalType(payload[0]) != FU_A && CheckPayload(payload, d.fu).Good?
    ensures !d.fu.open
    ensures var nalus := Completed(payload, d.buffer);
            var good := CheckPayload(payload, d.fu);
            (&& good.projected == FramedSize(nalus) && good.fu == d.fu && NextBuffer(payload, d.buffer) == d.buffer
             && forall w: Draining :: CaptureDrainParameters(w, payload) == CaptureNalus(w, nalus))
  {
    if ValidSingleType(NalType(payload[0])) {
      R.OneSize(payload);
    }
  }

  /** The NAL unit a last fragment completes. */
  function WholeUnit(d: Depacketizing, payload: Bytes): Bytes
    requires |payload| >= 2
  {
    [FuHeader(payload)] + (d.buffer + payload[2..])
  }

  lemma FragmentWhole(d: Depacketizing, payload: Bytes)
    requires |payload| >= 2 && NalType(payload[0]) == FU_A
    ensures var whole := WholeUnit(d, payload);
            var nalus := Completed(payload, d.buffer);
            (if FuEnd(payload[1]) then nalus == [whole] && FramedSize(nalus) == 4 + |whole| && (AllValid(nalus) <==> ValidNalu(whole)) && NextBuffer(payload, d.buffer) == []
             else nalus == [] && FramedSize(nalus) == 0 && AllValid(nalus) && NextBuffer(payload, d.buffer) == d.buffer + payload[2..])
  {
    hide ValidNalu;
    R.OneSize(WholeUnit(d, payload));
  }

  lemma FragmentFits(d: Depacketizing, payload: Bytes)
    requires R.Sound(d) && |payload| != 0 && NalType(payload[0]) == FU_A && CheckPayload(payload, d.fu).Good?
    requires CheckPayload(payload, d.fu).projected <= MAX_ACCESS_UNIT - d.projectedBytes
    ensures |payload| > 2
    ensures (if FuEnd(payload[1]) then 4 + |WholeUnit(d, payload)| else 0) <= MAX_ACCESS_UNIT - d.outputBytes
  {
    hide WellFormedNalu, FramedSize;
  }

  /** What the depacketizer makes of an accepted fragment. */
  lemma FragmentStepIs(d: Depacketizing, payload: Bytes)
    requires R.Sound(d) && |payload| <= MAX_ACCESS_UNIT - d.payloadBytes
    requires |payload| != 0 && NalType(payload[0]) == FU_A && CheckPayload(payload, d.fu).Good?
    ensures |payload| > 2
    ensures var good := CheckPayload(payload, d.fu);
            Step(d, payload)
            == (if good.projected <= MAX_ACCESS_UNIT - d.projectedBytes && (FuEnd(payload[1]) ==> ValidNalu(WholeUnit(d, payload)))
                then Running(AfterFragment(d, payload, good)) else Stopped(InvalidUnit))
  {
    GoodPayload(payload, d.fu);
    FragmentWhole(d, payload);
    if CheckPayload(payload, d.fu).projected <= MAX_ACCESS_UNIT - d.projectedBytes {
      FragmentFits(d, payload);
    }
    hide CheckPayload, Completed, NextBuffer, AllValid, ValidNalu, FramedSize, R.Sound, WholeUnit, FuHeader, FuEnd;
  }

  /** What the streaming path makes of it. */
  lemma FragmentDrainIs(v: Draining, payload: Bytes)
    requires |payload| != 0 && NalType(payload[0]) == FU_A && CheckPayload(payload, v.fu).Good?
    ensures |payload| > 2
    ensures var good := CheckPayload(payload, v.fu);
            ValidateDrained(v, payload)
            == (if good.projected <= MAX_ACCESS_UNIT - v.projectedBytes
                then CaptureFragment(v.(fu := good.fu, projectedBytes := v.projectedBytes + good.projected), payload)
                else v.(fu := good.fu, invalid := true))
  {
    hide CheckPayload, CaptureFragment, CaptureDrainParameters, CaptureNalus, NalType, StapNalus, StapValid, Forbidden;
    GoodPayload(payload, v.fu);
    var good := CheckPayload(payload, v.fu);
    CaptureOfFragment(v.(fu := good.fu).(projectedBytes := v.projectedBytes + good.projected), payload);
  }

  lemma CaptureOfFragment(w: Draining, payload: Bytes)
    requires |payload| > 2 && NalType(payload[0]) == FU_A
    ensures CaptureDrainParameters(w, payload) == CaptureFragment(w, payload)
  {
    hide CaptureFragment, CaptureNalus, StapNalus;
  }

  /** The detector over the fragments so far is the detector over the reassembled content. */
  lemma ScanMeaning(v: Draining, d: Depacketizing, payload: Bytes)
    requires |payload| > 2 && !v.invalid
    requires if FuStart(payload[1]) then d.buffer == [] else v.fuZeroRun == FeedAll(IDLE, d.buffer).run && !HasStartCode(d.buffer)
    ensures var w := ScanZeroRun(v, payload);
            var content := d.buffer + payload[2..];
            (&& w.invalid == HasStartCode(content)
             && w == v.(invalid := w.invalid, fuZeroRun := if FuEnd(payload[1]) then 0 else FeedAll(IDLE, content).run))
  {
    DetectorMeaning(d.buffer);
    DetectorMeaning(d.buffer + payload[2..]);
    FeedAllConcat(IDLE, d.buffer, payload[2..]);
    if FuStart(payload[1]) {
      assert d.buffer + payload[2..] == payload[2..];
    }
    hide HasStartCode;
  }

  ghost function AfterFragment(d: Depacketizing, payload: Bytes, good: Checked): Depacketizing
    requires |payload| > 2 && good.Good?
  {
    var end, whole := FuEnd(payload[1]), WholeUnit(d, payload);
    Depacketizing(d.payloadBytes + |payload|, d.projectedBytes + good.projected,
                  d.outputBytes + (if end then 4 + |whole| else 0), good.fu,
                  if end then [] else d.buffer + payload[2..], d.nalus + (if end then [whole] else []))
  }

  /** What a fragment check that succeeded says about the two flags and the open unit. */
  ghost predicate FragmentOk(d: Depacketizing, payload: Bytes, good: Checked) {
    && |payload| > 2 && good.Good? && !Forbidden(payload[0])
    && good.fu.typ == NalType(payload[1]) && good.fu.open == !FuEnd(payload[1])
    && FuHeader(payload) == good.fu.nri * 32 + good.fu.typ
    && (if FuStart(payload[1]) then !d.fu.open && d.buffer == [] && !FuEnd(payload[1])
        else d.fu.open && d.fu.typ == good.fu.typ && d.fu.nri == good.fu.nri)
  }

  lemma FragmentIsOk(d: Depacketizing, payload: Bytes)
    requires R.Sound(d) && |payload| != 0 && NalType(payload[0]) == FU_A && CheckPayload(payload, d.fu).Good?
    ensures FragmentOk(d, payload, CheckPayload(payload, d.fu))
  {
    hide WellFormedNalu, FramedSize;
  }

  /** Collecting a parameter set fragment by fragment. */
  lemma CollectMeaning(v: Draining, d: Depacketizing, payload: Bytes, good: Checked)
    requires FragmentOk(d, payload, good) && IsParameterType(good.fu.typ) && !v.invalid
    requires !FuStart(payload[1]) ==> v.fuParameter == [good.fu.nri * 32 + good.fu.typ] + d.buffer
    requires !HasStartCode(d.buffer + payload[2..])
    ensures var w := CollectParameter(v, payload);
            var whole := WholeUnit(d, payload);
            (&& w.invalid == (|whole| > MAX_PARAMETER)
             && (!w.invalid ==>
                   w == (if FuEnd(payload[1])
                         then (if good.fu.typ == SPS_TYPE then v.(sps := Some(whole)) else v.(pps := Some(whole))).(fuParameter := [])
                         else v.(fuParameter := whole))))
  {
    hide HasStartCode;
    var parameter := if FuStart(payload[1]) then [DrainHeader(payload)] else v.fuParameter;
    var whole := WholeUnit(d, payload);
    assert FuStart(payload[1]) ==> DrainHeader(payload) == FuHeader(payload);
    assert parameter + payload[2..] == whole;
    assert whole[1..] == d.buffer + payload[2..];
  }

  lemma LatestOneMore(nalus: seq<Bytes>, whole: Bytes, t: byte)
    requires |whole| != 0
    ensures Latest(nalus + [whole], t) == if NalType(whole[0]) == t then Some(whole) else Latest(nalus, t)
  {
    assert (nalus + [whole])[..|nalus|] == nalus;
  }

  lemma FitOneMore(nalus: seq<Bytes>, whole: Bytes)
    ensures ParametersFit(nalus + [whole]) <==> ParametersFit(nalus) && (IsParameter(whole) ==> |whole| <= MAX_PARAMETER)
  {
    FitAppend(nalus, [whole]);
    assert whole in [whole];
  }

  /** What scanning and collecting leave in the streaming state. */
  lemma CapturedFragment(v: Draining, d: Depacketizing, payload: Bytes, good: Checked)
    requires !v.invalid && !Doomed(d) && Agrees(v, d) && FragmentOk(d, payload, good)
    ensures var v1 := v.(fu := good.fu, projectedBytes := v.projectedBytes + good.projected);
            var w := CaptureFragment(v1, payload);
            var content, whole := d.buffer + payload[2..], WholeUnit(d, payload);
            var run := if FuEnd(payload[1]) then 0 else FeedAll(IDLE, content).run;
            (&& w.invalid == (HasStartCode(content) || (IsParameterType(good.fu.typ) && |whole| > MAX_PARAMETER))
             && (!w.invalid ==>
                   w == (if !IsParameterType(good.fu.typ) then v1.(fuZeroRun := run)
                         else if FuEnd(payload[1])
                         then (if good.fu.typ == SPS_TYPE then v1.(fuZeroRun := run, sps := Some(whole)) else v1.(fuZeroRun := run, pps := Some(whole))).(fuParameter := [])
                         else v1.(fuZeroRun := run, fuParameter := whole))))
  {
    var v1 := v.(fu := good.fu, projectedBytes := v.projectedBytes + good.projected);
    NoStartCodeInNothing();
    ScanMeaning(v1, d, payload);
    var v2 := ScanZeroRun(v1, payload);
    hide HasStartCode, ScanZeroRun, FeedAll, ParametersFit, Latest;
    if !v2.invalid && IsParameterType(good.fu.typ) {
      CollectMeaning(v2, d, payload, good);
    }
    hide CollectParameter, WholeUnit, FuStart, FuEnd, FuHeader;
  }

  lemma NoStartCodeInNothing()
    ensures !HasStartCode([])
  {
  }

  /** What the completed unit adds to the depacketizer's list, or the open one to its buffer. */
  lemma AfterFragmentMeaning(d: Depacketizing, payload: Bytes, good: Checked)
    requires !Doomed(d) && FragmentOk(d, payload, good)
    ensures var e := AfterFragment(d, payload, good);
            var content, whole := d.buffer + payload[2..], WholeUnit(d, payload);
            (&& e.fu == good.fu && e.projectedBytes == d.projectedBytes + good.projected && (!FuEnd(payload[1]) ==> e.buffer == content)
             && |whole| == 1 + |content| && NalType(whole[0]) == good.fu.typ && (ValidNalu(whole) <==> !HasStartCode(content))
             && (if FuEnd(payload[1])
                 then (&& Doomed(e) == (IsParameterType(good.fu.typ) && |whole| > MAX_PARAMETER)
                       && Latest(e.nalus, SPS_TYPE) == (if good.fu.typ == SPS_TYPE then Some(whole) else Latest(d.nalus, SPS_TYPE))
                       && Latest(e.nalus, PPS_TYPE) == (if good.fu.typ == PPS_TYPE then Some(whole) else Latest(d.nalus, PPS_TYPE)))
                 else e.nalus == d.nalus && Doomed(e) == (HasStartCode(content) || (IsParameterType(good.fu.typ) && |whole| > MAX_PARAMETER))))
  {
    var whole := WholeUnit(d, payload);
    WholeMeaning(d, payload, good);
    assert d.nalus + [] == d.nalus;
    LatestOneMore(d.nalus, whole, SPS_TYPE);
    LatestOneMore(d.nalus, whole, PPS_TYPE);
    FitOneMore(d.nalus, whole);
    hide HasStartCode, Latest, ParametersFit, FuHeader, FuEnd, FuStart, NalType, WholeUnit, ValidNalu;
  }

  lemma WholeMeaning(d: Depacketizing, payload: Bytes, good: Checked)
    requires FragmentOk(d, payload, good)
    ensures var content, whole := d.buffer + payload[2..], WholeUnit(d, payload);
            |whole| == 1 + |content| && NalType(whole[0]) == good.fu.typ && (ValidNalu(whole) <==> !HasStartCode(content))
  {
    var whole := WholeUnit(d, payload);
    assert whole[1..] == d.buffer + payload[2..];
    assert NalType(whole[0]) == good.fu.typ;
    hide HasStartCode, FuHeader, FuEnd, FuStart, NalType;
  }

  lemma LastFragmentAgrees(v: Draining, d: Depacketizing, payload: Bytes, good: Checked)
    requires !v.invalid && !Doomed(d) && Agrees(v, d) && FragmentOk(d, payload, good) && FuEnd(payload[1])
    ensures var w := CaptureFragment(v.(fu := good.fu, projectedBytes := v.projectedBytes + good.projected), payload);
            var e := AfterFragment(d, payload, good);
            (if !ValidNalu(WholeUnit(d, payload)) then w.invalid
             else w.invalid == Doomed(e) && (!w.invalid ==> Agrees(w, e)))
  {
    assert |payload| > 2 && good.Good? && !good.fu.open;
    hide HasStartCode, CaptureFragment, Latest, Doomed, FeedAll, FuHeader, NalType, FuStart, ValidNalu, WholeUnit, AfterFragment, FragmentOk, FuEnd;
    CapturedFragment(v, d, payload, good);
    AfterFragmentMeaning(d, payload, good);
  }

  lemma EarlyFragmentAgrees(v: Draining, d: Depacketizing, payload: Bytes, good: Checked)
    requires !v.invalid && !Doomed(d) && Agrees(v, d) && FragmentOk(d, payload, good) && !FuEnd(payload[1])
    ensures var w := CaptureFragment(v.(fu := good.fu, projectedBytes := v.projectedBytes + good.projected), payload);
            var e := AfterFragment(d, payload, good);
            w.invalid == Doomed(e) && (!w.invalid ==> Agrees(w, e))
  {
    assert |payload| > 2 && good.Good?;
    hide HasStartCode, CaptureFragment, Latest, Doomed, FeedAll, FuHeader, NalType, FuStart, WholeUnit, AfterFragment, FragmentOk, FuEnd;
    CapturedFragment(v, d, payload, good);
    AfterFragmentMeaning(d, payload, good);
    WholeUnitIs(d, payload, good);
  }

  lemma FragmentAgrees(v: Draining, d: Depacketizing, payload: Bytes, good: Checked)
    requires !v.invalid && !Doomed(d) && Agrees(v, d) && FragmentOk(d, payload, good)
    ensures var w := CaptureFragment(v.(fu := good.fu, projectedBytes := v.projectedBytes + good.projected), payload);
            var e := AfterFragment(d, payload, good);
            (if FuEnd(payload[1]) && !ValidNalu(WholeUnit(d, payload)) then w.invalid
             else w.invalid == Doomed(e) && (!w.invalid ==> Agrees(w, e)))
  {
    assert |payload| > 2;
    hide CaptureFragment, Doomed, ValidNalu, WholeUnit, AfterFragment, FragmentOk, FuEnd, Agrees;
    if FuEnd(payload[1]) {
      LastFragmentAgrees(v, d, payload, good);
    } else {
      EarlyFragmentAgrees(v, d, payload, good);
    }
  }

  lemma WholeUnitIs(d: Depacketizing, payload: Bytes, good: Checked)
    requires FragmentOk(d, payload, good)
    ensures WholeUnit(d, payload) == [good.fu.nri * 32 + good.fu.typ] + (d.buffer + payload[2..])
  {
  }

  /** One fragment. */
  lemma FragmentSimulates(v: Draining, d: Depacketizing, payload: Bytes)
    requires !v.invalid && Simulates(v, Running(d)) && |payload| <= MAX_ACCESS_UNIT - d.payloadBytes
    requires |payload| != 0 && NalType(payload[0]) == FU_A
    ensures Simulates(ValidateDrained(v, payload), Step(d, payload))
  {
    hide ValidateDrained, Step, CheckPayload, Doomed, R.Sound, CaptureFragment, AfterFragment, WholeUnit, ValidNalu, HasStartCode, NalType, FuEnd, FeedAll, Latest;
    if CheckPayload(payload, d.fu).Good? {
      FragmentStepIs(d, payload);
      FragmentDrainIs(v, payload);
      FragmentIsOk(d, payload);
      var good := CheckPayload(payload, d.fu);
      FragmentAgrees(v, d, payload, good);
      if Step(d, payload).Running? {
        R.StepSound(d, payload);
      }
    } else {
      RejectedStep(v, d, payload);
    }
  }

  lemma RejectedStep(v: Draining, d: Depacketizing, payload: Bytes)
    requires v.fu == d.fu && !CheckPayload(payload, d.fu).Good?
    ensures ValidateDrained(v, payload).invalid && Step(d, payload).Stopped?
  {
    hide CheckPayload;
  }

  // ---- Doom is final ----

  lemma StartCodeStays(a: Bytes, b: Bytes)
    requires HasStartCode(a)
    ensures HasStartCode(a + b)
  {
    var i :| 0 <= i < |a| && StartCodeAt(a, i);
    assert StartCodeAt(a + b, i);
  }

  lemma DoomedFragment(d: Depacketizing, payload: Bytes, good: Checked)
    requires Doomed(d) && FragmentOk(d, payload, good) && (FuEnd(payload[1]) ==> ValidNalu(WholeUnit(d, payload)))
    ensures Doomed(AfterFragment(d, payload, good))
  {
    var whole := WholeUnit(d, payload);
    assert whole[1..] == d.buffer + payload[2..];
    assert NalType(whole[0]) == good.fu.typ;
    FitOneMore(d.nalus, whole);
    assert d.nalus + [] == d.nalus;
    if HasStartCode(d.buffer) {
      StartCodeStays(d.buffer, payload[2..]);
    }
    hide HasStartCode, ParametersFit, FuHeader, FuEnd, FuStart, NalType;
  }

  lemma DoomStays(d: Depacketizing, payload: Bytes)
    requires R.Sound(d) && Doomed(d) && Step(d, payload).Running?
    ensures Doomed(Step(d, payload).d)
  {
    GoodPayload(payload, d.fu);
    if NalType(payload[0]) == FU_A {
      hide Doomed, R.Sound, WholeUnit, AfterFragment, ValidNalu, FuEnd;
      FragmentStepIs(d, payload);
      FragmentIsOk(d, payload);
      DoomedFragment(d, payload, CheckPayload(payload, d.fu));
    } else {
      WholeNalus(payload, d);
      FitAppend(d.nalus, Completed(payload, d.buffer));
      hide ParametersFit, HasStartCode, CheckPayload, AllValid, FramedSize, Completed;
    }
  }

  /** One payload, whatever it is. */
  lemma PayloadStep(v: Draining, d: Depacketizing, payload: Bytes)
    requires Simulates(v, Running(d)) && |payload| <= MAX_ACCESS_UNIT - d.payloadBytes && |payload| != 0
    ensures Simulates(if v.invalid then v else ValidateDrained(v, payload), Step(d, payload))
  {
    hide ValidateDrained, Step, Doomed, R.Sound, Agrees, NalType;
    if v.invalid {
      if Step(d, payload).Running? {
        DoomStays(d, payload);
        R.StepSound(d, payload);
      }
    } else if NalType(payload[0]) == FU_A {
      FragmentSimulates(v, d, payload);
    } else {
      WholeNalusStep(v, d, payload);
    }
  }

  // ---- One packet ----

  /** The streaming state after the first `k` packets of the unit. */
  ghost predicate Drained(v: Draining, s: Stream, u: seq<Packet>, k: nat)
    requires 1 <= k <= |u| <= MAX_PACKETS
  {
    && v.timestamp == u[0].timestamp && v.anchored
    && v.haveSequence && v.lastSequence == Add16(s.nextSequence, k - 1) && !v.sequenceGap
    && v.packetCount == k && v.payloadBytes == TotalPayload(u, k)
    && Simulates(v, Partial(u, k))
  }

  /** Counting and sequence checks never fail on a unit within the bounds. */
  lemma Counted(v: Draining, s: Stream, u: seq<Packet>, k: nat, at: int)
    requires UnitShape(s.nextSequence, u) && s.haveNext && k < |u|
    requires if k == 0 then v == NewDraining(s, u[0].timestamp)
             else v.haveSequence && v.lastSequence == Add16(s.nextSequence, k - 1) && v.packetCount == k && v.payloadBytes == TotalPayload(u, k)
    ensures CountDrained(TrackSequence(v.(lastObserved := at), s, u[k].sequence), u[k].payload)
         == v.(lastObserved := at, haveSequence := true, lastSequence := Add16(s.nextSequence, k), packetCount := k + 1, payloadBytes := TotalPayload(u, k + 1))
  {
    TotalGrows(u, k + 1);
    assert u[k].sequence == Add16(s.nextSequence, k);
  }

  lemma SimulatesFresh(s: Stream, timestamp: uint32, at: int)
    ensures Simulates(NewDraining(s, timestamp).(lastObserved := at), Running(FRESH))
  {
  }

  /** The fields the simulation looks at. */
  lemma SimulatesFrame(v: Draining, w: Draining, progress: Progress)
    requires Simulates(v, progress)
    requires w == v.(lastObserved := w.lastObserved, haveSequence := w.haveSequence, lastSequence := w.lastSequence,
                     packetCount := w.packetCount, payloadBytes := w.payloadBytes)
    ensures Simulates(w, progress)
  {
    hide Doomed, R.Sound;
  }

  /** The fields a payload cannot change. */
  ghost predicate SameTracking(v: Draining, w: Draining) {
    && w.timestamp == v.timestamp && w.anchored == v.anchored && w.haveSequence == v.haveSequence
    && w.lastSequence == v.lastSequence && w.sequenceGap == v.sequenceGap && w.packetCount == v.packetCount
    && w.payloadBytes == v.payloadBytes && w.lastObserved == v.lastObserved
  }

  lemma ValidateFrame(v: Draining, payload: Bytes)
    ensures SameTracking(v, ValidateDrained(v, payload))
  {
    hide CheckPayload, CaptureDrainParameters;
    if CheckPayload(payload, v.fu).Good? {
      GoodPayload(payload, v.fu);
      var good := CheckPayload(payload, v.fu);
      CaptureFrame(v.(fu := good.fu).(projectedBytes := v.projectedBytes + good.projected), payload);
    }
  }

  lemma CaptureFrame(w: Draining, payload: Bytes)
    requires |payload| != 0
    requires NalType(payload[0]) == STAP_A ==> StapNalus(payload, 1).Some?
    requires NalType(payload[0]) == FU_A ==> |payload| >= 2
    ensures SameTracking(w, CaptureDrainParameters(w, payload))
  {
    hide CaptureNalus, StapNalus, CaptureFragment;
    CaptureNalusFrame(w, [payload]);
    if NalType(payload[0]) == STAP_A {
      CaptureNalusFrame(w, StapNalus(payload, 1).value);
    } else if NalType(payload[0]) == FU_A {
      CaptureFragmentFrame(w, payload);
    }
  }

  lemma CaptureFragmentFrame(w: Draining, payload: Bytes)
    requires |payload| >= 2
    ensures SameTracking(w, CaptureFragment(w, payload))
  {
    hide ValidNalu, FeedAll;
  }

  lemma {:induction false} CaptureNalusFrame(v: Draining, nalus: seq<Bytes>)
    ensures var w := CaptureNalus(v, nalus);
            w == v.(invalid := w.invalid, sps := w.sps, pps := w.pps)
    decreases |nalus|
  {
    if nalus != [] && ValidNalu(nalus[0]) {
      CaptureNalusFrame(if IsParameter(nalus[0]) then SetDrainParameter(v, NalType(nalus[0][0]), nalus[0]) else v, nalus[1..]);
      hide ValidNalu;
    }
  }

  lemma DrainedStep(v: Draining, s: Stream, u: seq<Packet>, k: nat, at: int)
    requires UnitShape(s.nextSequence, u) && s.haveNext && k < |u|
    requires if k == 0 then v == NewDraining(s, u[0].timestamp) else Drained(v, s, u, k)
    ensures Drained(DrainInto(v, s, u[k], at), s, u, k + 1)
    ensures DrainInto(v, s, u[k], at).lastObserved == at
  {
    hide ValidateDrained, Step, Simulates, TrackSequence, CountDrained, TotalPayload, Add16;
    Counted(v, s, u, k, at);
    var w := CountDrained(TrackSequence(v.(lastObserved := at), s, u[k].sequence), u[k].payload);
    SimulatesFresh(s, u[0].timestamp, v.lastObserved);
    SimulatesFrame(v, w, Partial(u, k));
    ValidateFrame(w, u[k].payload);
    TotalGrows(u, k + 1);
    NextPayload(w, u, k);
    assert w.timestamp == u[0].timestamp && w.anchored && !w.sequenceGap;
  }

  lemma NextPayload(w: Draining, u: seq<Packet>, k: nat)
    requires k < |u| && |u[k].payload| != 0 && Simulates(w, Partial(u, k)) && TotalPayload(u, k + 1) <= MAX_ACCESS_UNIT
    ensures Simulates(if w.invalid then w else ValidateDrained(w, u[k].payload), Partial(u, k + 1))
  {
    if Partial(u, k).Running? {
      PartialBytes(u, k);
      PayloadStep(w, Partial(u, k).d, u[k].payload);
    }
    hide Step, ValidateDrained, R.Sound, Doomed, Agrees;
  }

  // ---- The whole unit ----

  function DrainUnit(s: Stream, u: seq<Packet>, ats: seq<int>, k: nat): Stream
    requires k <= |u| && |ats| == |u|
  {
    if k == 0 then s else Drain(DrainUnit(s, u, ats, k - 1), u[k - 1], ats[k - 1])
  }

  /** No packet of the unit is observed so late after the one before it that the unit expires. */
  ghost predicate NoGaps(ats: seq<int>) {
    forall i | 0 < i < |ats| :: ats[i] - ats[i - 1] < MAX_GAP
  }

  /** Between the first packet and the last. */
  ghost predicate Streaming(st: Stream, s: Stream, u: seq<Packet>, k: nat, at: int)
    requires 1 <= k <= |u| <= MAX_PACKETS
  {
    && st.draining.Some? && st == s.(draining := st.draining)
    && Drained(st.draining.value, s, u, k)
    && st.draining.value.lastObserved == at
  }

  /** A packet of the unit goes straight to the unit being streamed, which the last one ends. */
  lemma DrainIsInto(st: Stream, p: Packet, at: int)
    requires st.pending.None? && p.timestamp !in st.completed && !Malformed(p)
    requires st.draining.Some? ==> st.draining.value.timestamp == p.timestamp && !Gap(st.draining.value.lastObserved, at)
    ensures var v := if st.draining.Some? then st.draining.value else NewDraining(st, p.timestamp);
            var next := st.(draining := Some(DrainInto(v, st, p, at)));
            Drain(st, p, at) == if p.marker then FinishDrainUnit(next, Next16(p.sequence), true) else next
  {
    hide DrainInto, FinishDrainUnit, PoisonPacket, NewDraining;
  }

  /** `DrainInto` looks only at the anchor of the stream. */
  lemma SameAnchorInto(v: Draining, st: Stream, s: Stream, p: Packet, at: int)
    requires st.haveNext == s.haveNext && st.nextSequence == s.nextSequence
    ensures DrainInto(v, st, p, at) == DrainInto(v, s, p, at)
  {
    hide ValidateDrained, CountDrained;
  }

  lemma DrainStep(st: Stream, s: Stream, u: seq<Packet>, k: nat, last: int, at: int)
    requires AnchoredUnit(s, u) && k < |u| <= MAX_PACKETS
    requires if k == 0 then st == s else Streaming(st, s, u, k, last) && at - last < MAX_GAP
    ensures exists v: Draining ::
              Drained(v, s, u, k + 1) && v.lastObserved == at
              && Drain(st, u[k], at) == (if k == |u| - 1 then FinishDrainUnit(s.(draining := Some(v)), Next16(u[k].sequence), true)
                                         else s.(draining := Some(v)))
  {
    AnchoredShape(s, u);
    assert u[k].timestamp == u[0].timestamp && !Malformed(u[k]) && u[k].marker == (k == |u| - 1);
    hide TotalPayload, Depacketized, HistoryInv, UnitShape, DrainInto, Drain, FinishDrainUnit, Add16, Simulates;
    DrainIsInto(st, u[k], at);
    var v0 := if st.draining.Some? then st.draining.value else NewDraining(st, u[k].timestamp);
    SameAnchorInto(v0, st, s, u[k], at);
    DrainedStep(v0, s, u, k, at);
    var v := DrainInto(v0, s, u[k], at);
    assert st.(draining := Some(v)) == s.(draining := Some(v));
  }

  lemma {:induction false} StreamingRun(s: Stream, u: seq<Packet>, ats: seq<int>, k: nat)
    requires AnchoredUnit(s, u) && 1 <= k < |u| <= MAX_PACKETS && |ats| == |u| && NoGaps(ats)
    ensures Streaming(DrainUnit(s, u, ats, k), s, u, k, ats[k - 1])
  {
    hide AnchoredUnit, Drain, FinishDrainUnit, Drained;
    if k > 1 {
      StreamingRun(s, u, ats, k - 1);
      DrainStep(DrainUnit(s, u, ats, k - 1), s, u, k - 1, ats[k - 2], ats[k - 1]);
    } else {
      DrainStep(s, s, u, 0, 0, ats[0]);
    }
  }

  /** Ending the streamed unit retires it as the buffered path retires the complete unit. */
  lemma EndsFinished(v: Draining, s: Stream, u: seq<Packet>, g: nat, at: int)
    requires AnchoredUnit(s, u) && |u| <= MAX_PACKETS && Drained(v, s, u, |u|)
    ensures FinishDrainUnit(s.(draining := Some(v)), Next16(u[|u| - 1].sequence), true) == Finished(s, u, g, 0, at, false).stream
  {
    AnchoredShape(s, u);
    var last := u[|u| - 1];
    assert last.sequence == Add16(s.nextSequence, |u| - 1) && last.timestamp == u[0].timestamp;
    DepacketizedIsPartial(s.nextSequence, u);
    assert s.(draining := Some(v)).(draining := None) == s;
    hide TotalPayload, Depacketized, HistoryInv, UnitShape, Add16, RememberCompleted, SetSequenceAnchor, Partial, ValidParameters, R.Sound, Latest, HasType, HasStartCode, ParametersFit, FeedAll, AnchoredUnit, FramedSize, Frame, NonParameters, Next16;
  }

  /** The streaming path leaves what the complete unit leaves, whatever its payloads. */
  lemma DrainIsFinished(s: Stream, u: seq<Packet>, ats: seq<int>, g: nat, at: int)
    requires AnchoredUnit(s, u) && |ats| == |u| && NoGaps(ats)
    ensures u != [] && DrainUnit(s, u, ats, |u|) == Finished(s, u, g, 0, at, false).stream
  {
    AnchoredShape(s, u);
    hide AnchoredUnit, Drain, FinishDrainUnit, Drained, Finished, UnitShape;
    var n := |u|;
    assert 1 <= n <= MAX_PACKETS by {
      ShapeSize(s.nextSequence, u);
    }
    if n > 1 {
      StreamingRun(s, u, ats, n - 1);
      DrainStep(DrainUnit(s, u, ats, n - 1), s, u, n - 1, ats[n - 2], ats[n - 1]);
    } else {
      DrainStep(s, s, u, 0, 0, ats[0]);
    }
    var v :| Drained(v, s, u, n) && Drain(DrainUnit(s, u, ats, n - 1), u[n - 1], ats[n - 1]) == FinishDrainUnit(s.(draining := Some(v)), Next16(u[n - 1].sequence), true);
    EndsFinished(v, s, u, g, at);
  }

  lemma ShapeSize(first: uint16, u: seq<Packet>)
    requires UnitShape(first, u)
    ensures 1 <= |u| <= MAX_PACKETS
  {
    hide TotalPayload;
  }

  /** Without a wanted candidate the moment of completion leaves no trace. */
  lemma FinishedQuietly(s: Stream, u: seq<Packet>, g: nat, watermark: nat, at: int, h: nat, bt: int)
    requires u != [] && g > watermark
    ensures Finished(s, u, g, watermark, at, false).stream == Finished(s, u, h, 0, bt, false).stream
  {
    hide Depacketized, RememberCompleted, SetSequenceAnchor;
  }

  /** The streaming path refines the buffered one: from the same state, a complete unit streamed in
      order leaves exactly what the buffered path leaves after any admissible order of the unit's
      packets that nobody waits for. */
  lemma StreamingRefinesBuffered(s: Stream, u: seq<Packet>, ats: seq<int>, arrivals: seq<Arrival>, watermark: nat)
    requires AnchoredUnit(s, u) && |ats| == |u| && NoGaps(ats) && Completable(u)
    requires Admissible(arrivals, |u|) && Covers(Received(arrivals), |u|)
    requires forall a | a in arrivals :: a.index < |u| && a.generation > watermark
    ensures DrainUnit(s, u, ats, |u|) == Deliver(s, u, arrivals, watermark, false).stream
  {
    hide AnchoredUnit, Finished, Deliver, DrainUnit, Admissible, Received, Covers, UnitShape;
    AnchoredShape(s, u);
    ShapeSize(s.nextSequence, u);
    var k := CompletedAt(arrivals, |u|);
    ReorderConfluence(s, u, arrivals, watermark, false);
    LaterGenerations(arrivals[..k], watermark);
    DrainIsFinished(s, u, ats, 0, 0);
    FinishedQuietly(s, u, MinGeneration(arrivals[..k]), watermark, arrivals[k - 1].at, 0, 0);
  }

  /** In order, the two paths leave the same state exactly when the unit lacks no part of a fragmented NAL
      unit; if it does, only the buffered path keeps waiting. */
  lemma StreamingAgreesIff(s: Stream, u: seq<Packet>, ats: seq<int>, watermark: nat, at: int)
    requires AnchoredUnit(s, u) && |ats| == |u| && NoGaps(ats)
    ensures var inOrder := InOrder(|u|, watermark + 1, at);
            (&& (forall a | a in inOrder :: a.index < |u|)
             && (DrainUnit(s, u, ats, |u|) == Deliver(s, u, inOrder, watermark, false).stream <==> !LacksPart(u)))
  {
    hide AnchoredUnit, Finished, Deliver, DrainUnit, Admissible, Received, UnitShape, LacksPart, Completable;
    AnchoredShape(s, u);
    ShapeSize(s.nextSequence, u);
    CompletableIff(s.nextSequence, u);
    var n := |u|;
    var inOrder, before := InOrder(n, watermark + 1, at), InOrder(n - 1, watermark + 1, at);
    InOrderReceived(n, watermark + 1, at);
    InOrderIsAdmissible(n, n, watermark + 1, at);
    if Completable(u) {
      StreamingRefinesBuffered(s, u, ats, inOrder, watermark);
    } else {
      InOrderReceived(n - 1, watermark + 1, at);
      assert inOrder == before + [Arrival(n - 1, watermark + 1, at)];
      assert n - 1 !in Received(before);
      IncompleteStaysPending(s, u, before, Arrival(n - 1, watermark + 1, at), watermark, false);
      DrainIsFinished(s, u, ats, 0, 0);
      FinishedShape(s, u, 0, 0, 0, false);
    }
  }
}
