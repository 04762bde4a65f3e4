/**
 The audio worklet's re-framing buffer: input blocks of any length become frames of
 exactly 960 samples, gated by push-to-talk.
 */
module AudioTap {
  import opened Basics

  type Sample = real

  const FRAME: nat := 960

  /** The live prefix of the buffer, the frames posted so far, and the push-to-talk flag. */
  datatype Tap = Tap(live: seq<Sample>, frames: seq<seq<Sample>>, transmitting: bool)

  const OPEN: Tap := Tap([], [], true)

  /** One call of process; the flag is false when copying the leftover would overrun the new buffer. */
  function Process(t: Tap, input: Option<seq<Sample>>): (Tap, bool)
    requires |t.live| <= FRAME
  {
    if input.None? then (t, true)
    else if !t.transmitting then (t.(live := []), true)
    else
      var n := Min(|input.value|, FRAME - |t.live|);
      var filled := t.live + input.value[..n];
      if |filled| < FRAME then (t.(live := filled), true)
      else
        var posted := t.(frames := t.frames + [filled], live := []);
        var leftover := input.value[n..];
        if |leftover| > FRAME then (posted, false) else (posted.(live := leftover), true)
  }

  /** The processor: a fixed buffer filled in place and replaced once it is posted. */
  class SttTapProcessor {
    var buffer: array<Sample>
    var offset: nat
    var transmitting: bool
    /** The buffers handed over, and what each held at that moment. */
    var posted: seq<array<Sample>>
    ghost var frames: seq<seq<Sample>>

    ghost predicate Valid()
      reads this, buffer, posted
    {
      && buffer.Length == FRAME && offset <= FRAME
      && buffer !in posted
      && |frames| == |posted|
      && forall i :: 0 <= i < |posted| ==> posted[i].Length == FRAME && posted[i][..] == frames[i]
    }

    ghost function Model(): Tap
      reads this, buffer, posted
      requires Valid()
    {
      Tap(buffer[..offset], frames, transmitting)
    }

    constructor ()
      ensures Valid() && fresh(buffer) && Model() == OPEN
    {
      buffer := new Sample[FRAME](_ => 0.0);
      offset, transmitting, posted, frames := 0, true, [], [];
    }

    method PushToTalk(active: bool)
      requires Valid()
      modifies this`transmitting
      ensures Valid() && Model() == old(Model()).(transmitting := active)
    {
      transmitting := active;
    }

    /** Copy `data` into the buffer at `at`. */
    method SetAt(data: seq<Sample>, at: nat)
      requires at + |data| <= buffer.Length
      modifies buffer
      ensures buffer[..at] == old(buffer[..at])
      ensures buffer[at..at + |data|] == data
    {
      for i := 0 to |data|
        invariant buffer[..at] == old(buffer[..at])
        invariant forall j :: 0 <= j < i ==> buffer[at + j] == data[j]
      {
        buffer[at + i] := data[i];
      }
    }

    /** Post the full buffer and start an empty one; what was posted before is not touched. */
    method Post()
      requires Valid() && offset == FRAME
      modifies this`buffer, this`offset, this`posted, this`frames
      ensures Valid() && fresh(buffer) && offset == 0 && transmitting == old(transmitting)
      ensures posted == old(posted) + [old(buffer)]
      ensures frames == old(frames) + [old(buffer[..])]
    {
      posted := posted + [buffer];
      frames := frames + [buffer[..]];
      buffer := new Sample[FRAME](_ => 0.0);
      offset := 0;
    }

    method ProcessBlock(input: Option<seq<Sample>>) returns (ok: bool)
      requires Valid()
      modifies this, buffer
      ensures Valid()
      ensures (Model(), ok) == Process(old(Model()), input)
      ensures old(posted) <= posted
      ensures forall i :: 0 <= i < |old(posted)| ==> posted[i][..] == old(posted[i][..])
    {
      if input.None? {
        return true;
      }
      if !transmitting {
        offset := 0;
        return true;
      }
      var data := input.value;
      var remaining := buffer.Length - offset;
      var toCopy := if |data| <= remaining then |data| else remaining;
      ghost var live0 := buffer[..offset];
      SetAt(data[..toCopy], offset);
      offset := offset + toCopy;
      assert buffer[..offset] == live0 + data[..toCopy];
      if offset >= buffer.Length {
        assert buffer[..] == buffer[..offset];
        Post();
        if toCopy < |data| {
          var leftover := data[toCopy..];
          if |leftover| > buffer.Length {
            return false;
          }
          SetAt(leftover, 0);
          offset := |leftover|;
        }
      }
      return true;
    }
  }

  // ---- runs ----

  datatype Op = Talk(active: bool) | Audio(input: Option<seq<Sample>>)

  function Step(t: Tap, op: Op): Tap
    requires |t.live| <= FRAME
  {
    match op
    case Talk(active) => t.(transmitting := active)
    case Audio(input) => Process(t, input).0
  }

  predicate ShortInputs(ops: seq<Op>) {
    forall i :: 0 <= i < |ops| && ops[i].Audio? && ops[i].input.Some? ==> |ops[i].input.value| <= FRAME
  }

  predicate Framed(t: Tap) {
    |t.live| < FRAME && forall i :: 0 <= i < |t.frames| ==> |t.frames[i]| == FRAME
  }

  /** A call throws exactly when the block overruns the rest of this buffer and a whole new one. */
  lemma ThrowsWhen(t: Tap, input: seq<Sample>)
    requires |t.live| <= FRAME
    ensures !Process(t, Some(input)).1 <==> t.transmitting && |input| > (FRAME - |t.live|) + FRAME
  {
  }

  lemma FramedStep(t: Tap, op: Op)
    requires Framed(t)
    requires op.Audio? && op.input.Some? ==> |op.input.value| <= FRAME
    ensures Framed(Step(t, op)) && t.frames <= Step(t, op).frames
    ensures op.Audio? ==> Process(t, op.input).1
  {
  }

  function After(t: Tap, ops: seq<Op>): (r: Tap)
    requires Framed(t) && ShortInputs(ops)
    ensures Framed(r) && t.frames <= r.frames
    decreases |ops|
  {
    if ops == [] then t
    else
      FramedStep(t, ops[0]);
      After(Step(t, ops[0]), ops[1..])
  }

  function Flat(frames: seq<seq<Sample>>): seq<Sample> {
    if frames == [] then [] else Flat(frames[..|frames| - 1]) + frames[|frames| - 1]
  }

  /** The samples of the blocks, in order. */
  function Heard(ops: seq<Op>): seq<Sample> {
    if ops == [] then []
    else (if ops[0].Audio? && ops[0].input.Some? then ops[0].input.value else []) + Heard(ops[1..])
  }

  /** No block arrives while push-to-talk is released. */
  ghost predicate Ungated(t: Tap, ops: seq<Op>)
    requires Framed(t) && ShortInputs(ops)
    decreases |ops|
  {
    ops == [] ||
    (&& (ops[0].Audio? && ops[0].input.Some? ==> t.transmitting)
     && (FramedStep(t, ops[0]); Ungated(Step(t, ops[0]), ops[1..])))
  }

  lemma FlatAppend(frames: seq<seq<Sample>>, frame: seq<Sample>)
    ensures Flat(frames + [frame]) == Flat(frames) + frame
  {
    assert (frames + [frame])[..|frames|] == frames;
  }

  lemma FlatStep(t: Tap, op: Op)
    requires Framed(t) && (op.Audio? && op.input.Some? ==> |op.input.value| <= FRAME && t.transmitting)
    ensures Flat(Step(t, op).frames) + Step(t, op).live
         == Flat(t.frames) + t.live + (if op.Audio? && op.input.Some? then op.input.value else [])
  {
    if op.Audio? && op.input.Some? {
      var input := op.input.value;
      var n := Min(|input|, FRAME - |t.live|);
      var head, leftover := input[..n], input[n..];
      assert input == head + leftover;
      Assoc(Flat(t.frames), t.live, head);
      if |t.live + head| == FRAME {
        FlatAppend(t.frames, t.live + head);
        Assoc(Flat(t.frames) + t.live, head, leftover);
      } else {
        assert head == input;
      }
    } else {
      assert Flat(t.frames) + t.live + [] == Flat(t.frames) + t.live;
    }
  }

  /**
   Re-framing. Over every stretch without a gated block, what was posted followed by the live prefix is
   what was there before followed by the input, in order; every frame has 960 samples and the rest is shorter.
   */
  lemma {:induction false} Reframed(t: Tap, ops: seq<Op>)
    requires Framed(t) && ShortInputs(ops) && Ungated(t, ops)
    ensures Flat(After(t, ops).frames) + After(t, ops).live == Flat(t.frames) + t.live + Heard(ops)
    decreases |ops|
  {
    if ops == [] {
      assert Flat(t.frames) + t.live + [] == Flat(t.frames) + t.live;
    } else {
      FramedStep(t, ops[0]);
      FlatStep(t, ops[0]);
      var t1 := Step(t, ops[0]);
      Reframed(t1, ops[1..]);
      var input := if ops[0].Audio? && ops[0].input.Some? then ops[0].input.value else [];
      Assoc(Flat(t.frames) + t.live, input, Heard(ops[1..]));
    }
  }

  /** A gated block posts nothing and forgets the live prefix, so no audio crosses it. */
  lemma GatedForgets(t: Tap, input: seq<Sample>)
    requires Framed(t) && !t.transmitting
    ensures Process(t, Some(input)) == (Tap([], t.frames, false), true)
  {
  }

  /** The frames are determined by the samples: the stream cut every 960. */
  function Cut(s: seq<Sample>): seq<seq<Sample>> {
    if |s| < FRAME then [] else [s[..FRAME]] + Cut(s[FRAME..])
  }

  lemma {:induction false} CutAppend(s: seq<Sample>, k: nat, frame: seq<Sample>, rest: seq<Sample>)
    requires |s| == FRAME * k && |frame| == FRAME && |rest| < FRAME
    ensures Cut(s + frame + rest) == Cut(s) + [frame]
    decreases k
  {
    var all := s + frame + rest;
    if k == 0 {
      assert all[..FRAME] == frame && all[FRAME..] == rest;
      assert Cut(rest) == [] && Cut(s) == [];
    } else {
      var s' := s[FRAME..];
      assert all[..FRAME] == s[..FRAME];
      assert all[FRAME..] == s' + frame + rest;
      CutAppend(s', k - 1, frame, rest);
    }
  }

  lemma {:induction false} FlatLength(frames: seq<seq<Sample>>)
    requires forall i :: 0 <= i < |frames| ==> |frames[i]| == FRAME
    ensures |Flat(frames)| == FRAME * |frames|
  {
    if frames != [] {
      FlatLength(frames[..|frames| - 1]);
    }
  }

  lemma {:induction false} CutOfFlat(frames: seq<seq<Sample>>, rest: seq<Sample>)
    requires (forall i :: 0 <= i < |frames| ==> |frames[i]| == FRAME) && |rest| < FRAME
    ensures Cut(Flat(frames) + rest) == frames
  {
    if frames == [] {
      assert [] + rest == rest;
    } else {
      var init, last := frames[..|frames| - 1], frames[|frames| - 1];
      CutOfFlat(init, []);
      assert Flat(init) + [] == Flat(init);
      FlatLength(init);
      CutAppend(Flat(init), |init|, last, rest);
      assert init + [last] == frames;
    }
  }

  // ---- whole runs, gated blocks included ----

  /** The input a run hears, one sequence for each stretch between gated blocks; `heard` is the stretch so far. */
  function Stretches(transmitting: bool, heard: seq<Sample>, ops: seq<Op>): seq<seq<Sample>>
    decreases |ops|
  {
    if ops == [] then [heard]
    else
      match ops[0]
      case Talk(active) => Stretches(active, heard, ops[1..])
      case Audio(None) => Stretches(transmitting, heard, ops[1..])
      case Audio(Some(input)) =>
        if transmitting then Stretches(true, heard + input, ops[1..])
        else [heard] + Stretches(false, [], ops[1..])
  }

  function CutAll(stretches: seq<seq<Sample>>): seq<seq<Sample>> {
    if stretches == [] then [] else Cut(stretches[0]) + CutAll(stretches[1..])
  }

  /** The frames of earlier stretches, then those of the current one; the rest of it is live. */
  ghost predicate Split(t: Tap, past: seq<seq<Sample>>, heard: seq<Sample>) {
    Framed(t) && t.frames == past + Cut(heard) && Flat(Cut(heard)) + t.live == heard
  }

  /** The frames of the current stretch alone. */
  function Current(t: Tap, past: seq<seq<Sample>>): Tap
    requires past <= t.frames
  {
    t.(frames := t.frames[|past|..])
  }

  lemma StepCurrent(t: Tap, past: seq<seq<Sample>>, op: Op)
    requires past <= t.frames && |t.live| <= FRAME
    ensures past <= Step(t, op).frames && Current(Step(t, op), past) == Step(Current(t, past), op)
  {
    if op.Audio? && op.input.Some? && t.transmitting {
      var n := Min(|op.input.value|, FRAME - |t.live|);
      var filled := t.live + op.input.value[..n];
      assert (t.frames + [filled])[|past|..] == t.frames[|past|..] + [filled];
    }
  }

  lemma SplitHeard(t: Tap, past: seq<seq<Sample>>, heard: seq<Sample>, input: seq<Sample>)
    requires Split(t, past, heard) && t.transmitting && |input| <= FRAME
    ensures Split(Step(t, Audio(Some(input))), past, heard + input)
  {
    var op := Audio(Some(input));
    var u, t1 := Current(t, past), Step(t, op);
    assert u.frames == Cut(heard);
    CutFrames(heard);
    FramedStep(t, op);
    FramedStep(u, op);
    FlatStep(u, op);
    StepCurrent(t, past, op);
    var u1 := Step(u, op);
    CutOfFlat(u1.frames, u1.live);
    assert u1.frames == Cut(heard + input);
    assert t1.frames == past + u1.frames;
  }

  lemma {:induction false} CutFrames(s: seq<Sample>)
    ensures forall i :: 0 <= i < |Cut(s)| ==> |Cut(s)[i]| == FRAME
    decreases |s|
  {
    if |s| >= FRAME {
      CutFrames(s[FRAME..]);
    }
  }

  lemma SplitGated(t: Tap, past: seq<seq<Sample>>, heard: seq<Sample>, input: seq<Sample>)
    requires Split(t, past, heard) && !t.transmitting
    ensures Split(Step(t, Audio(Some(input))), past + Cut(heard), [])
  {
    GatedForgets(t, input);
    assert Cut([]) == [] && Flat([]) == [];
    assert past + Cut(heard) + [] == past + Cut(heard);
  }

  lemma CutAllHead(heard: seq<Sample>, rest: seq<seq<Sample>>, past: seq<seq<Sample>>)
    ensures past + CutAll([heard] + rest) == past + Cut(heard) + CutAll(rest)
  {
    assert ([heard] + rest)[1..] == rest;
    Assoc(past, Cut(heard), CutAll(rest));
  }

  lemma {:induction false} CutAlong(t: Tap, past: seq<seq<Sample>>, heard: seq<Sample>, ops: seq<Op>)
    requires Split(t, past, heard) && ShortInputs(ops)
    ensures After(t, ops).frames == past + CutAll(Stretches(t.transmitting, heard, ops))
    decreases |ops|
  {
    if ops == [] {
      CutAllHead(heard, [], past);
      assert [heard] + [] == [heard];
      assert past + Cut(heard) + [] == past + Cut(heard);
    } else {
      var op, rest := ops[0], ops[1..];
      FramedStep(t, op);
      var t1 := Step(t, op);
      if op.Talk? || op.input.None? {
        CutAlong(t1, past, heard, rest);
      } else if t.transmitting {
        SplitHeard(t, past, heard, op.input.value);
        CutAlong(t1, past, heard + op.input.value, rest);
      } else {
        SplitGated(t, past, heard, op.input.value);
        CutAlong(t1, past + Cut(heard), [], rest);
        CutAllHead(heard, Stretches(false, [], rest), past);
      }
    }
  }

  /**
   Over every run from an open, empty tap the frames posted are exactly the stretches of input between
   gated blocks, each cut every 960 samples; what a gated block interrupts is never sent.
   */
  lemma FramesAreTheInputCut(ops: seq<Op>)
    requires ShortInputs(ops)
    ensures After(OPEN, ops).frames == CutAll(Stretches(true, [], ops))
  {
    assert Cut([]) == [] && Flat([]) == [];
    CutAlong(OPEN, [], [], ops);
  }
}
