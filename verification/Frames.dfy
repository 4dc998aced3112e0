/** The snapshot a frame submits, and the one place it is validated. */
module Frames {
  import opened Common
  import opened SoundState
  import opened Mixing
  import opened SoundSystems

  const MAX_OCCURRENCES := 256
  const MAX_EMITTERS := 256
  const MAX_GAIN := 4.0

  datatype FrameError = OutOfRange | UnorderedOccurrences | DuplicateEmitter | OverLimit

  datatype Checked = Accepted(frame: Frame) | Refused(error: FrameError)

  predicate GainInRange(g: real) {
    0.0 <= g <= MAX_GAIN
  }

  /** What the runtime may rely on. */
  ghost predicate Admissible(dt: real, occs: seq<Occurrence>, emitters: seq<Emitter>) {
    && 0.0 < dt <= 0.5
    && |occs| <= 256 && |emitters| <= 256
    && (forall i :: 0 <= i < |occs| ==> 0.0 <= occs[i].gain <= 4.0)
    && Increasing(occs)
    && (forall i :: 0 <= i < |emitters| ==> 0.0 <= emitters[i].gain <= 4.0)
    && (forall i, j :: 0 <= i < j < |emitters| ==> emitters[i].id != emitters[j].id)
  }

  /** What is wrong with the `i`th occurrence, seen after the ones before it. */
  function OccurrenceFault(occs: seq<Occurrence>, i: nat): Option<FrameError>
    requires i < |occs|
  {
    if !GainInRange(occs[i].gain) then Some(OutOfRange)
    else if i > 0 && occs[i].id <= occs[i - 1].id then Some(UnorderedOccurrences)
    else None
  }

  function EmitterFault(emitters: seq<Emitter>, i: nat): Option<FrameError>
    requires i < |emitters|
  {
    if !GainInRange(emitters[i].gain) then Some(OutOfRange)
    else if exists j :: 0 <= j < i && emitters[j].id == emitters[i].id then Some(DuplicateEmitter)
    else None
  }

  /** The error reported: range, limits, then the first faulty occurrence, then the first faulty emitter. */
  ghost predicate Reports(dt: real, occs: seq<Occurrence>, emitters: seq<Emitter>, e: FrameError) {
    if !(0.0 < dt <= 0.5) then e == OutOfRange
    else if |occs| > MAX_OCCURRENCES || |emitters| > MAX_EMITTERS then e == OverLimit
    else
      || (exists i :: 0 <= i < |occs| && OccurrenceFault(occs, i) == Some(e)
            && forall j :: 0 <= j < i ==> OccurrenceFault(occs, j).None?)
      || ((forall i :: 0 <= i < |occs| ==> OccurrenceFault(occs, i).None?)
          && exists i :: 0 <= i < |emitters| && EmitterFault(emitters, i) == Some(e)
               && forall j :: 0 <= j < i ==> EmitterFault(emitters, j).None?)
  }

  lemma {:induction false} NeighboursIncrease(occs: seq<Occurrence>, i: nat, j: nat)
    requires i < j < |occs| && forall k :: 0 <= k < |occs| ==> OccurrenceFault(occs, k).None?
    ensures occs[i].id < occs[j].id
  {
    assert OccurrenceFault(occs, j).None?;
    if i < j - 1 {
      NeighboursIncrease(occs, i, j - 1);
    }
  }

  /** Nothing is reported exactly of an admissible snapshot. */
  lemma FaultlessIsAdmissible(dt: real, occs: seq<Occurrence>, emitters: seq<Emitter>)
    ensures Admissible(dt, occs, emitters) <==>
      && 0.0 < dt <= 0.5 && |occs| <= MAX_OCCURRENCES && |emitters| <= MAX_EMITTERS
      && (forall i :: 0 <= i < |occs| ==> OccurrenceFault(occs, i).None?)
      && (forall i :: 0 <= i < |emitters| ==> EmitterFault(emitters, i).None?)
  {
    if forall i :: 0 <= i < |occs| ==> OccurrenceFault(occs, i).None? {
      forall i, j | 0 <= i < j < |occs| ensures occs[i].id < occs[j].id {
        NeighboursIncrease(occs, i, j);
      }
      forall i | 0 <= i < |occs| ensures GainInRange(occs[i].gain) {
        assert OccurrenceFault(occs, i).None?;
      }
    }
    if forall i :: 0 <= i < |emitters| ==> EmitterFault(emitters, i).None? {
      forall i, j | 0 <= i < j < |emitters| ensures emitters[i].id != emitters[j].id {
        assert EmitterFault(emitters, j).None?;
      }
      forall i | 0 <= i < |emitters| ensures GainInRange(emitters[i].gain) {
        assert EmitterFault(emitters, i).None?;
      }
    }
  }

  /** The sole constructor of a frame. */
  method New(dt: real, listener: Listener, occs: seq<Occurrence>, emitters: seq<Emitter>, window: Option<Window>)
    returns (r: Checked)
    ensures r.Accepted? <==> Admissible(dt, occs, emitters)
    ensures r.Accepted? ==> r.frame == Frame(dt, listener, occs, emitters, window)
    ensures r.Refused? ==> Reports(dt, occs, emitters, r.error)
  {
    FaultlessIsAdmissible(dt, occs, emitters);
    if dt <= 0.0 || dt > 0.5 {
      return Refused(OutOfRange);
    }
    if |occs| > MAX_OCCURRENCES || |emitters| > MAX_EMITTERS {
      return Refused(OverLimit);
    }
    var prev: Option<nat> := None;
    var i := 0;
    while i < |occs|
      invariant 0 <= i <= |occs|
      invariant prev == if i == 0 then None else Some(occs[i - 1].id)
      invariant forall j :: 0 <= j < i ==> OccurrenceFault(occs, j).None?
    {
      if !GainInRange(occs[i].gain) {
        assert OccurrenceFault(occs, i) == Some(OutOfRange);
        return Refused(OutOfRange);
      }
      if prev.Some? && occs[i].id <= prev.value {
        assert OccurrenceFault(occs, i) == Some(UnorderedOccurrences);
        return Refused(UnorderedOccurrences);
      }
      prev := Some(occs[i].id);
      i := i + 1;
    }
    i := 0;
    while i < |emitters|
      invariant 0 <= i <= |emitters|
      invariant forall j :: 0 <= j < i ==> EmitterFault(emitters, j).None?
    {
      if !GainInRange(emitters[i].gain) {
        assert EmitterFault(emitters, i) == Some(OutOfRange);
        return Refused(OutOfRange);
      }
      if exists j :: 0 <= j < i && emitters[j].id == emitters[i].id {
        assert EmitterFault(emitters, i) == Some(DuplicateEmitter);
        return Refused(DuplicateEmitter);
      }
      i := i + 1;
    }
    return Accepted(Frame(dt, listener, occs, emitters, window));
  }
}
