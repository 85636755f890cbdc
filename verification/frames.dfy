/**
 The MJPEG splitter (server/src/media/frame-source.ts): complete JPEG images are cut out of the
 stdout chunks of FFmpeg. SOI is FF D8 and EOI is FF D9 (Annex B, section B.1.1.3 of ITU-T T.81).
 */
module Frames {

  type Byte = b: int | 0 <= b < 256

  const FF: Byte := 0xFF
  const D8: Byte := 0xD8
  const D9: Byte := 0xD9
  const LIMIT: nat := 8 * 1024 * 1024

  // ---------------------------------------------------------------- searching

  predicate PairAt(s: seq<Byte>, i: int, second: Byte) {
    0 <= i && i + 1 < |s| && s[i] == FF && s[i + 1] == second
  }

  /** First position at or after `from` where FF `second` stands, or -1. */
  function IndexOf(s: seq<Byte>, second: Byte, from: nat): (r: int)
    ensures r == -1 ==> forall i :: from <= i ==> !PairAt(s, i, second)
    ensures r != -1 ==> from <= r && PairAt(s, r, second) && forall i :: from <= i < r ==> !PairAt(s, i, second)
    decreases |s| - from
  {
    if from + 1 >= |s| then -1
    else if PairAt(s, from, second) then from
    else IndexOf(s, second, from + 1)
  }

  /** The result is determined by what it is: the first match. */
  lemma {:induction false} IndexOfIs(s: seq<Byte>, second: Byte, from: nat, r: nat)
    requires from <= r && PairAt(s, r, second) && forall i :: from <= i < r ==> !PairAt(s, i, second)
    ensures IndexOf(s, second, from) == r
  {
    var q := IndexOf(s, second, from);
    assert q == -1 ==> !PairAt(s, r, second);
  }

  lemma {:induction false} NotFound(s: seq<Byte>, second: Byte, from: nat)
    requires forall i :: from <= i ==> !PairAt(s, i, second)
    ensures IndexOf(s, second, from) == -1
  {
  }

  // ---------------------------------------------------------------- what onData does to its buffer

  datatype Drained = Drained(frames: seq<seq<Byte>>, rest: seq<Byte>)

  /** Cut complete frames off the front of the buffer; reset a buffer over the limit that holds no SOI. */
  function Drain(buffer: seq<Byte>): Drained
    decreases |buffer|
  {
    var soi := IndexOf(buffer, D8, 0);
    if soi < 0 then Drained([], if |buffer| > LIMIT then [] else buffer)
    else
      var eoi := IndexOf(buffer, D9, soi + 2);
      if eoi < 0 then Drained([], buffer[soi..])
      else
        var d := Drain(buffer[eoi + 2..]);
        Drained([buffer[soi..eoi + 2]] + d.frames, d.rest)
  }

  lemma {:induction false} DrainStep(buffer: seq<Byte>, soi: nat, eoi: nat)
    requires soi == IndexOf(buffer, D8, 0) && eoi == IndexOf(buffer, D9, soi + 2)
    ensures var d := Drain(buffer[eoi + 2..]); Drain(buffer) == Drained([buffer[soi..eoi + 2]] + d.frames, d.rest)
  {
    hide IndexOf;
  }

  /** One turn of the loop moves the first frame from what is still to come to what has been emitted. */
  lemma {:induction false} DrainCut(buffer: seq<Byte>, soi: nat, eoi: nat, done: seq<seq<Byte>>)
    requires soi == IndexOf(buffer, D8, 0) && eoi == IndexOf(buffer, D9, soi + 2)
    ensures done + Drain(buffer).frames == done + [buffer[soi..eoi + 2]] + Drain(buffer[eoi + 2..]).frames
    ensures Drain(buffer).rest == Drain(buffer[eoi + 2..]).rest
  {
    hide IndexOf, Drain;
    DrainStep(buffer, soi, eoi);
    Associate(done, buffer[soi..eoi + 2], Drain(buffer[eoi + 2..]).frames);
  }

  lemma Associate(done: seq<seq<Byte>>, frame: seq<Byte>, later: seq<seq<Byte>>)
    ensures done + ([frame] + later) == done + [frame] + later
  {
  }

  /** What a start does: nothing, an 'error' event, or a new child. */
  datatype StartOutcome = Ignored | NothingConfigured | Spawned

  class FrameSource {
    const configured: bool
    var buffer: seq<Byte>
    var child: bool
    var stopped: bool

    /** Whether the options name a video file or a target is fixed at construction. */
    constructor (configured: bool)
      ensures buffer == [] && !child && !stopped && this.configured == configured
    {
      this.configured := configured;
      buffer, child, stopped := [], false, false;
    }

    /** Spawns a child unless one is there, the source was stopped, or there is nothing to read from. */
    method Start() returns (outcome: StartOutcome)
      modifies this`child
      ensures outcome == if old(child) || stopped then Ignored else if configured then Spawned else NothingConfigured
      ensures child == (old(child) || outcome == Spawned)
    {
      if child || stopped { return Ignored; }
      if !configured { return NothingConfigured; }
      child := true;
      return Spawned;
    }

    /** The exit handler: the exit is reported only when nobody asked for it. */
    method OnExit() returns (reported: bool)
      modifies this`child, this`buffer
      ensures !child && buffer == [] && reported == !stopped
    {
      child := false;
      buffer := [];
      reported := !stopped;
    }

    method Stop() returns (killed: bool)
      modifies this`child, this`stopped
      ensures stopped && !child && killed == old(child)
    {
      stopped := true;
      killed := child;
      child := false;
    }

    /** A chunk arrives; the frames emitted are returned in order. */
    method OnData(chunk: seq<Byte>) returns (frames: seq<seq<Byte>>)
      modifies this`buffer
      ensures Drained(frames, buffer) == Drain(old(buffer) + chunk)
    {
      buffer := buffer + chunk;
      frames := [];
      ghost var goal := Drain(buffer);
      while true
        invariant goal.frames == frames + Drain(buffer).frames && goal.rest == Drain(buffer).rest
        decreases |buffer|
      {
        var soi := IndexOf(buffer, D8, 0);
        if soi < 0 {
          if |buffer| > LIMIT { buffer := []; }
          return;
        }
        var eoi := IndexOf(buffer, D9, soi + 2);
        if eoi < 0 {
          if soi > 0 { buffer := buffer[soi..]; }
          return;
        }
        var frame := buffer[soi..eoi + 2];
        DrainCut(buffer, soi, eoi, frames);
        buffer := buffer[eoi + 2..];
        frames := frames + [frame];
      }
    }
  }

  // ---------------------------------------------------------------- the reference: one byte at a time

  /** Outside a frame (was the last byte an FF?) or inside one, with its bytes so far. */
  datatype Scan = Idle(ff: bool) | Open(bytes: seq<Byte>)

  datatype Scanned = Scanned(frames: seq<seq<Byte>>, scan: Scan)

  function Step(st: Scanned, b: Byte): Scanned {
    match st.scan
    case Idle(ff) =>
      st.(scan := if ff && b == D8 then Open([FF, D8]) else Idle(b == FF))
    case Open(bytes) =>
      if |bytes| >= 3 && bytes[|bytes| - 1] == FF && b == D9
      then Scanned(st.frames + [bytes + [b]], Idle(false))
      else st.(scan := Open(bytes + [b]))
  }

  function Run(st: Scanned, s: seq<Byte>): Scanned
    decreases |s|
  {
    if s == [] then st else Run(Step(st, s[0]), s[1..])
  }

  const START := Scanned([], Idle(false))

  lemma {:induction false} RunConcat(st: Scanned, s: seq<Byte>, t: seq<Byte>)
    ensures Run(st, s + t) == Run(Run(st, s), t)
    decreases |s|
  {
    if s == [] {
      assert s + t == t;
    } else {
      assert (s + t)[1..] == s[1..] + t;
      RunConcat(Step(st, s[0]), s[1..], t);
    }
  }

  lemma {:induction false} RunAppend(st: Scanned, s: seq<Byte>, b: Byte)
    ensures Run(st, s + [b]) == Step(Run(st, s), b)
  {
    RunConcat(st, s, [b]);
    assert Run(Run(st, s), [b]) == Run(Step(Run(st, s), b), [b][1..]);
  }

  /** The scanner state a retained buffer stands for. */
  function Abs(buffer: seq<Byte>): Scan {
    var soi := IndexOf(buffer, D8, 0);
    if soi >= 0 then Open(buffer[soi..])
    else Idle(|buffer| > 0 && buffer[|buffer| - 1] == FF)
  }

  predicate EndsInFF(s: seq<Byte>) {
    |s| > 0 && s[|s| - 1] == FF
  }

  /** Scanning bytes without an SOI among them stays outside. */
  lemma {:induction false} RunIdle(fs: seq<seq<Byte>>, s: seq<Byte>)
    requires forall i :: !PairAt(s, i, D8)
    ensures Run(Scanned(fs, Idle(false)), s) == Scanned(fs, Idle(EndsInFF(s)))
  {
    if s != [] {
      var n := |s| - 1;
      assert s == s[..n] + [s[n]];
      assert forall i :: PairAt(s[..n], i, D8) ==> PairAt(s, i, D8);
      RunIdle(fs, s[..n]);
      RunAppend(Scanned(fs, Idle(false)), s[..n], s[n]);
      assert !PairAt(s, n - 1, D8);
    }
  }

  /** Scanning up to and including the first SOI opens a frame. */
  lemma {:induction false} RunToSoi(fs: seq<seq<Byte>>, s: seq<Byte>, soi: nat)
    requires PairAt(s, soi, D8) && forall i :: 0 <= i < soi ==> !PairAt(s, i, D8)
    ensures Run(Scanned(fs, Idle(false)), s[..soi + 2]) == Scanned(fs, Open([FF, D8]))
  {
    var p := s[..soi + 1];
    forall i ensures !PairAt(p, i, D8) {
      if PairAt(p, i, D8) { assert PairAt(s, i, D8); }
    }
    RunIdle(fs, p);
    RunAppend(Scanned(fs, Idle(false)), p, D8);
    assert s[..soi + 2] == p + [D8];
  }

  /** From inside a frame: without an EOI the frame only grows. */
  lemma {:induction false} RunOpen(fs: seq<seq<Byte>>, s: seq<Byte>, n: nat)
    requires 2 <= n <= |s| && forall i :: 2 <= i < n - 1 ==> !PairAt(s, i, D9)
    ensures Run(Scanned(fs, Open(s[..2])), s[2..n]) == Scanned(fs, Open(s[..n]))
  {
    if n > 2 {
      RunOpen(fs, s, n - 1);
      assert s[2..n] == s[2..n - 1] + [s[n - 1]];
      RunAppend(Scanned(fs, Open(s[..2])), s[2..n - 1], s[n - 1]);
      assert n > 3 ==> !PairAt(s, n - 2, D9);
      assert s[..n - 1] + [s[n - 1]] == s[..n];
    } else {
      assert s[2..n] == [];
    }
  }

  /** The guard of the reset branch, reached after the complete frames are cut off. */
  ghost predicate ResetTail(buffer: seq<Byte>)
    decreases |buffer|
  {
    var soi := IndexOf(buffer, D8, 0);
    if soi < 0 then |buffer| > LIMIT
    else
      var eoi := IndexOf(buffer, D9, soi + 2);
      eoi >= 0 && ResetTail(buffer[eoi + 2..])
  }

  /** Did the reset throw away a last byte FF? */
  ghost predicate DropsFF(buffer: seq<Byte>) {
    ResetTail(buffer) && EndsInFF(buffer)
  }

  /** r is what a drain leaves behind, as a scanner sees it; `ends` says whether the last byte was FF. */
  ghost predicate Matches(fs: seq<seq<Byte>>, d: Drained, resets: bool, ends: bool, r: Scanned) {
    && r.frames == fs + d.frames
    && (resets ==> r.scan == Idle(ends) && d.rest == [])
    && (!resets ==> r.scan == Abs(d.rest))
  }

  /** Scanning to position n, which lies after the SOI and not past an EOI. */
  lemma {:induction false} RunPartial(fs: seq<seq<Byte>>, buffer: seq<Byte>, soi: nat, n: nat)
    requires soi == IndexOf(buffer, D8, 0) && soi + 2 <= n <= |buffer|
    requires forall i :: soi + 2 <= i < n - 1 ==> !PairAt(buffer, i, D9)
    ensures Run(Scanned(fs, Idle(false)), buffer[..n]) == Scanned(fs, Open(buffer[soi..n]))
  {
    hide IndexOf, Step;
    RunToSoi(fs, buffer, soi);
    RunConcat(Scanned(fs, Idle(false)), buffer[..soi + 2], buffer[soi + 2..n]);
    assert buffer[..soi + 2] + buffer[soi + 2..n] == buffer[..n];
    var s := buffer[soi..n];
    assert s[..2] == [FF, D8];
    forall i | 2 <= i < |s| - 1 ensures !PairAt(s, i, D9) {
      assert !PairAt(buffer, i + soi, D9);
    }
    RunOpen(fs, s, |s|);
    assert s[2..|s|] == buffer[soi + 2..n] && s[..|s|] == s;
  }

  lemma {:induction false} RunFrame(fs: seq<seq<Byte>>, buffer: seq<Byte>, soi: nat, eoi: nat)
    requires soi == IndexOf(buffer, D8, 0) && eoi == IndexOf(buffer, D9, soi + 2)
    ensures Run(Scanned(fs, Idle(false)), buffer[..eoi + 2])
         == Scanned(fs + [buffer[soi..eoi + 2]], Idle(false))
  {
    var n := eoi + 1;
    RunPartial(fs, buffer, soi, n);
    assert buffer[..eoi + 2] == buffer[..n] + [D9];
    RunAppend(Scanned(fs, Idle(false)), buffer[..n], D9);
    assert buffer[soi..n] + [D9] == buffer[soi..eoi + 2];
    assert buffer[soi..n][n - soi - 1] == FF;
  }

  /** No EOI yet: the scan is inside the frame that the buffer is cut down to. */
  lemma {:induction false} ScanUnfinished(fs: seq<seq<Byte>>, buffer: seq<Byte>, soi: nat)
    requires soi == IndexOf(buffer, D8, 0) && IndexOf(buffer, D9, soi + 2) < 0
    ensures Run(Scanned(fs, Idle(false)), buffer) == Scanned(fs, Open(buffer[soi..]))
    ensures Abs(buffer[soi..]) == Open(buffer[soi..])
  {
    RunPartial(fs, buffer, soi, |buffer|);
    assert buffer[..|buffer|] == buffer;
    IndexOfIs(buffer[soi..], D8, 0, 0);
    assert buffer[soi..][0..] == buffer[soi..];
  }

  /** A complete frame: the scan emits it and goes on from outside. */
  lemma {:induction false} ScanFinished(fs: seq<seq<Byte>>, buffer: seq<Byte>, soi: nat, eoi: nat)
    requires soi == IndexOf(buffer, D8, 0) && eoi == IndexOf(buffer, D9, soi + 2)
    ensures Run(Scanned(fs, Idle(false)), buffer)
         == Run(Scanned(fs + [buffer[soi..eoi + 2]], Idle(false)), buffer[eoi + 2..])
  {
    RunFrame(fs, buffer, soi, eoi);
    assert buffer[..eoi + 2] + buffer[eoi + 2..] == buffer;
    RunConcat(Scanned(fs, Idle(false)), buffer[..eoi + 2], buffer[eoi + 2..]);
  }

  lemma {:induction false} CutIsScan(fs: seq<seq<Byte>>, buffer: seq<Byte>, soi: nat, eoi: nat)
    requires soi == IndexOf(buffer, D8, 0) && eoi == IndexOf(buffer, D9, soi + 2)
    requires var rest, fs' := buffer[eoi + 2..], fs + [buffer[soi..eoi + 2]];
             Matches(fs', Drain(rest), ResetTail(rest), EndsInFF(rest), Run(Scanned(fs', Idle(false)), rest))
    ensures Matches(fs, Drain(buffer), ResetTail(buffer), EndsInFF(buffer), Run(Scanned(fs, Idle(false)), buffer))
  {
    hide IndexOf, Run, Drain, Abs, ResetTail;
    var rest, frame := buffer[eoi + 2..], buffer[soi..eoi + 2];
    ScanFinished(fs, buffer, soi, eoi);
    ResetStep(buffer, soi, eoi);
    DrainStep(buffer, soi, eoi);
    Associate(fs, frame, Drain(rest).frames);
  }

  lemma {:induction false} ResetStep(buffer: seq<Byte>, soi: nat, eoi: nat)
    requires soi == IndexOf(buffer, D8, 0) && eoi == IndexOf(buffer, D9, soi + 2)
    ensures var rest := buffer[eoi + 2..];
            ResetTail(buffer) == ResetTail(rest) && (ResetTail(rest) ==> EndsInFF(buffer) == EndsInFF(rest))
  {
    hide IndexOf;
    if ResetTail(buffer[eoi + 2..]) { ResetTailLong(buffer[eoi + 2..]); }
  }

  /** onData's drain is the byte scan, except that a reset forgets whether the last byte was FF. */
  lemma {:induction false} DrainIsScan(fs: seq<seq<Byte>>, buffer: seq<Byte>)
    ensures Matches(fs, Drain(buffer), ResetTail(buffer), EndsInFF(buffer), Run(Scanned(fs, Idle(false)), buffer))
    decreases |buffer|
  {
    hide IndexOf, Run;
    var soi := IndexOf(buffer, D8, 0);
    if soi < 0 {
      assert fs + [] == fs;
      RunIdle(fs, buffer);
    } else {
      var eoi := IndexOf(buffer, D9, soi + 2);
      if eoi < 0 {
        assert fs + [] == fs;
        ScanUnfinished(fs, buffer, soi);
      } else {
        DrainIsScan(fs + [buffer[soi..eoi + 2]], buffer[eoi + 2..]);
        CutIsScan(fs, buffer, soi, eoi);
      }
    }
  }

  lemma {:induction false} ResetTailLong(buffer: seq<Byte>)
    requires ResetTail(buffer)
    ensures |buffer| > LIMIT
    decreases |buffer|
  {
    var soi := IndexOf(buffer, D8, 0);
    if soi >= 0 {
      ResetTailLong(buffer[IndexOf(buffer, D9, soi + 2) + 2..]);
    }
  }

  /** A retained buffer holds no complete frame, so scanning it again just gives back its state. */
  lemma {:induction false} RestIsDrained(buffer: seq<Byte>)
    ensures var r := Drain(buffer).rest; Drain(r) == Drained([], r) && !ResetTail(r)
    decreases |buffer|
  {
    var soi := IndexOf(buffer, D8, 0);
    if soi >= 0 {
      var eoi := IndexOf(buffer, D9, soi + 2);
      if eoi < 0 {
        var s := buffer[soi..];
        IndexOfIs(s, D8, 0, 0);
        var q := IndexOf(s, D9, 2);
        if q >= 0 { assert PairAt(buffer, soi + q, D9); }
        assert s[0..] == s;
      } else {
        RestIsDrained(buffer[eoi + 2..]);
      }
    }
  }

  // ---------------------------------------------------------------- a whole run of chunks

  datatype Fed = Fed(frames: seq<seq<Byte>>, buffer: seq<Byte>)

  /** Feeding chunks one after another to a fresh source. */
  function Feed(chunks: seq<seq<Byte>>): Fed {
    if chunks == [] then Fed([], [])
    else
      var before := Feed(chunks[..|chunks| - 1]);
      var d := Drain(before.buffer + chunks[|chunks| - 1]);
      Fed(before.frames + d.frames, d.rest)
  }

  function Flatten(parts: seq<seq<Byte>>): seq<Byte> {
    if parts == [] then [] else parts[0] + Flatten(parts[1..])
  }

  lemma {:induction false} FlattenAppend(parts: seq<seq<Byte>>, last: seq<Byte>)
    ensures Flatten(parts + [last]) == Flatten(parts) + last
  {
    if parts == [] {
      assert parts + [last] == [last] && [last][1..] == [];
    } else {
      assert (parts + [last])[1..] == parts[1..] + [last];
      FlattenAppend(parts[1..], last);
    }
  }

  /** The k-th chunk ends in a reset that throws away an FF. */
  ghost predicate DropsAt(chunks: seq<seq<Byte>>, k: nat)
    requires k < |chunks|
  {
    DropsFF(Feed(chunks[..k]).buffer + chunks[k])
  }

  /** A reset falls between an FF and a D8: chunk k drops an FF and the next byte to come is D8. */
  ghost predicate MarkerLost(chunks: seq<seq<Byte>>) {
    exists k :: 0 <= k < |chunks| && DropsAt(chunks, k) && FirstIsD8(Between(chunks, k, |chunks|))
  }

  predicate FirstIsD8(s: seq<Byte>) {
    |s| > 0 && s[0] == D8
  }

  /** The frame in progress, if any: what of the buffer still matters besides a trailing FF. */
  function OpenFrame(scan: Scan): seq<Byte> {
    if scan.Open? then scan.bytes else []
  }

  // The chunked run and the reference run stay in step. `c` is the scanner state the source is in,
  // `r` that of the reference. The source may have forgotten an FF, or missed a frame's start.

  ghost predicate Suffix(s: seq<Byte>, t: seq<Byte>) {
    |s| <= |t| && s == t[|t| - |s|..]
  }

  ghost predicate InStep(c: Scan, r: Scan) {
    match (c, r)
    case (Idle(fc), Idle(fr)) => fc ==> fr
    case (Idle(fc), Open(br)) => |br| >= 2 && (fc ==> br[|br| - 1] == FF)
    case (Open(bc), Open(br)) => |bc| >= 2 && bc[..2] == [FF, D8] && Suffix(bc, br)
    case (Open(_), Idle(_)) => false
  }

  function Total(frames: seq<seq<Byte>>): nat {
    if frames == [] then 0 else Total(frames[..|frames| - 1]) + |frames[|frames| - 1]|
  }

  /** How many bytes the reference has put into frames that the source has not. */
  function Deficit(c: Scanned, r: Scanned): int {
    Total(r.frames) - Total(c.frames) +
    match (c.scan, r.scan)
    case (Idle(fc), Open(br)) => |br| - (if fc then 1 else 0)
    case (Open(bc), Open(br)) => |br| - |bc|
    case _ => 0
  }

  ghost predicate Related(c: Scanned, r: Scanned) {
    && InStep(c.scan, r.scan)
    && Deficit(c, r) >= 0
    && (Deficit(c, r) == 0 ==> c.frames == r.frames && (c.scan.Open? <==> r.scan.Open?))
  }

  lemma {:induction false} TotalAppend(fs: seq<seq<Byte>>, f: seq<Byte>)
    ensures Total(fs + [f]) == Total(fs) + |f|
  {
    assert (fs + [f])[..|fs|] == fs;
  }

  /** One byte: the deficit never shrinks, and it grows from zero exactly when D8 finds the FF forgotten. */
  lemma {:induction false} RelatedStep(c: Scanned, r: Scanned, b: Byte)
    requires Related(c, r)
    ensures Related(Step(c, b), Step(r, b))
    ensures Deficit(Step(c, b), Step(r, b)) >= Deficit(c, r)
    ensures Deficit(c, r) == 0 ==>
      (Deficit(Step(c, b), Step(r, b)) > 0 <==> b == D8 && r.scan == Idle(true) && c.scan == Idle(false))
    ensures Step(c, b).scan == Idle(true) || Step(r, b).scan != Idle(true)
  {
    if c.scan.Open? {
      BothOpenStep(c, r, b);
    } else if r.scan.Open? {
      AheadStep(c, r, b);
    }
  }

  predicate Closes(bytes: seq<Byte>, b: Byte) {
    |bytes| >= 3 && bytes[|bytes| - 1] == FF && b == D9
  }

  /** Both frames end alike, and the source's is never too short to close when the reference's is not. */
  lemma BothClose(bc: seq<Byte>, br: seq<Byte>, b: Byte)
    requires |bc| >= 2 && bc[..2] == [FF, D8] && Suffix(bc, br)
    ensures Closes(bc, b) <==> Closes(br, b)
    ensures |bc + [b]| >= 2 && (bc + [b])[..2] == [FF, D8] && Suffix(bc + [b], br + [b])
    ensures |bc| == |br| ==> bc == br
  {
    assert bc[|bc| - 1] == br[|br| - 1];
    assert bc[1] == bc[..2][1] == D8;
    assert (br + [b])[|br| - |bc|..] == bc + [b];
    assert (bc + [b])[..2] == bc[..2];
  }

  lemma BothCloseStep(c: Scanned, r: Scanned, b: Byte)
    requires Related(c, r) && c.scan.Open? && r.scan.Open? && Closes(r.scan.bytes, b) && Closes(c.scan.bytes, b)
    ensures Step(c, b) == Scanned(c.frames + [c.scan.bytes + [b]], Idle(false))
    ensures Step(r, b) == Scanned(r.frames + [r.scan.bytes + [b]], Idle(false))
    ensures Deficit(Step(c, b), Step(r, b)) == Deficit(c, r)
  {
    hide Total, InStep;
    TotalAppend(r.frames, r.scan.bytes + [b]);
    TotalAppend(c.frames, c.scan.bytes + [b]);
  }

  lemma BothGrowStep(c: Scanned, r: Scanned, b: Byte)
    requires Related(c, r) && c.scan.Open? && r.scan.Open? && !Closes(r.scan.bytes, b) && !Closes(c.scan.bytes, b)
    ensures Step(c, b) == c.(scan := Open(c.scan.bytes + [b])) && Step(r, b) == r.(scan := Open(r.scan.bytes + [b]))
    ensures Deficit(Step(c, b), Step(r, b)) == Deficit(c, r)
  {
    hide Total, InStep;
  }

  lemma BothOpenStep(c: Scanned, r: Scanned, b: Byte)
    requires Related(c, r) && c.scan.Open?
    ensures Related(Step(c, b), Step(r, b)) && Deficit(Step(c, b), Step(r, b)) == Deficit(c, r)
    ensures Step(c, b).scan.Open? <==> Step(r, b).scan.Open?
  {
    EqualIfNoDeficit(c, r);
    BothClose(c.scan.bytes, r.scan.bytes, b);
    hide Suffix, Total, Deficit, Step, Closes;
    if Closes(r.scan.bytes, b) { BothCloseStep(c, r, b); } else { BothGrowStep(c, r, b); }
  }

  lemma EqualIfNoDeficit(c: Scanned, r: Scanned)
    requires Related(c, r) && c.scan.Open?
    ensures r.scan.Open? && (Deficit(c, r) == 0 ==> c.scan.bytes == r.scan.bytes)
  {
  }

  /** The reference closes its frame while the source is outside. */
  lemma AheadCloses(c: Scanned, r: Scanned, b: Byte)
    requires Related(c, r) && c.scan.Idle? && r.scan.Open? && Closes(r.scan.bytes, b)
    ensures Step(c, b) == c.(scan := Idle(false))
    ensures Step(r, b) == Scanned(r.frames + [r.scan.bytes + [b]], Idle(false))
    ensures Deficit(Step(c, b), Step(r, b)) >= Deficit(c, r) > 0
  {
    hide Total;
    TotalAppend(r.frames, r.scan.bytes + [b]);
  }

  /** The reference's frame grows while the source is outside, or has just found a start of its own. */
  lemma AheadGrows(c: Scanned, r: Scanned, b: Byte)
    requires Related(c, r) && c.scan.Idle? && r.scan.Open? && !Closes(r.scan.bytes, b)
    ensures Step(r, b) == r.(scan := Open(r.scan.bytes + [b]))
    ensures InStep(Step(c, b).scan, Step(r, b).scan)
    ensures Deficit(Step(c, b), Step(r, b)) >= Deficit(c, r) > 0
  {
    hide Total;
    var br := r.scan.bytes;
    if c.scan.ff && b == D8 {
      assert Step(c, b).scan == Open([FF, D8]);
      assert (br + [b])[|br| - 1..] == [FF, D8];
    } else {
      assert Step(c, b).scan == Idle(b == FF);
      assert (br + [b])[|br|] == b;
    }
  }

  lemma AheadStep(c: Scanned, r: Scanned, b: Byte)
    requires Related(c, r) && c.scan.Idle? && r.scan.Open?
    ensures Related(Step(c, b), Step(r, b)) && Deficit(Step(c, b), Step(r, b)) >= Deficit(c, r) > 0
    ensures Step(c, b).scan == Idle(true) || Step(r, b).scan != Idle(true)
  {
    hide Deficit, Total, Step;
    if Closes(r.scan.bytes, b) { AheadCloses(c, r, b); } else { AheadGrows(c, r, b); }
  }

  /** A stretch of bytes: the deficit is positive afterwards iff it was before or the first byte loses a marker. */
  lemma {:induction false} RelatedRun(c: Scanned, r: Scanned, s: seq<Byte>)
    requires Related(c, r)
    ensures Related(Run(c, s), Run(r, s))
    ensures Deficit(Run(c, s), Run(r, s)) > 0
       <==> Deficit(c, r) > 0 || (FirstIsD8(s) && r.scan == Idle(true) && c.scan == Idle(false))
    ensures s != [] ==> (Run(r, s).scan == Idle(true) ==> Run(c, s).scan == Idle(true))
    decreases |s|
  {
    if s != [] {
      RelatedStep(c, r, s[0]);
      RelatedRun(Step(c, s[0]), Step(r, s[0]), s[1..]);
    }
  }

  /** The state of the source after some chunks, as a scanner state. */
  function FedScan(chunks: seq<seq<Byte>>): Scanned {
    Scanned(Feed(chunks).frames, Abs(Feed(chunks).buffer))
  }

  /** One more chunk: the source scans it from its state, then forgets a trailing FF if it resets. */
  lemma {:induction false} FeedIsScan(chunks: seq<seq<Byte>>, chunk: seq<Byte>)
    ensures var before := Feed(chunks);
            var scanned := Run(FedScan(chunks), chunk);
            && FedScan(chunks + [chunk]).frames == scanned.frames
            && (DropsFF(before.buffer + chunk) ==>
                  scanned.scan == Idle(true) && FedScan(chunks + [chunk]).scan == Idle(false))
            && (!DropsFF(before.buffer + chunk) ==> FedScan(chunks + [chunk]).scan == scanned.scan)
  {
    var before := Feed(chunks);
    assert (chunks + [chunk])[..|chunks|] == chunks;
    if chunks == [] { assert before.buffer == []; } else {
      RestIsDrained(Feed(chunks[..|chunks| - 1]).buffer + chunks[|chunks| - 1]);
    }
    assert Drain(before.buffer) == Drained([], before.buffer) && !ResetTail(before.buffer);
    DrainIsScan(before.frames, before.buffer);
    DrainIsScan(before.frames, before.buffer + chunk);
    RunConcat(Scanned(before.frames, Idle(false)), before.buffer, chunk);
    assert before.frames + [] == before.frames;
    assert Abs([]) == Idle(false);
  }

  /** The bytes of the chunks after chunk k and before chunk n. */
  function Between(chunks: seq<seq<Byte>>, k: nat, n: nat): seq<Byte>
    requires k < n <= |chunks|
  {
    Flatten(chunks[k + 1..n])
  }

  /** Chunk k has dropped an FF and D8 came next, for some k before the last one. */
  ghost predicate LostBefore(chunks: seq<seq<Byte>>, n: nat)
    requires n <= |chunks|
  {
    exists k :: 0 <= k < n && DropsAt(chunks, k) && FirstIsD8(Between(chunks, k, n))
  }

  /** The FF of a drop is still waiting for its next byte. */
  ghost predicate Pending(chunks: seq<seq<Byte>>, n: nat)
    requires n <= |chunks|
  {
    exists k :: 0 <= k < n && DropsAt(chunks, k) && Between(chunks, k, n) == []
  }

  lemma {:induction false} FeedVersusScan(chunks: seq<seq<Byte>>, n: nat)
    requires n <= |chunks|
    ensures var c, r := FedScan(chunks[..n]), Run(START, Flatten(chunks[..n]));
            && Related(c, r)
            && (Deficit(c, r) > 0 <==> LostBefore(chunks, n))
            && (Deficit(c, r) == 0 ==> (Pending(chunks, n) <==> c.scan == Idle(false) && r.scan == Idle(true)))
  {
    hide Drain, ResetTail, IndexOf, Deficit;
    if n == 0 {
      FedNothing();
      assert chunks[..0] == [];
    } else {
      var m := n - 1;
      FeedVersusScan(chunks, m);
      var chunk := chunks[m];
      assert chunks[..n] == chunks[..m] + [chunk];
      FlattenAppend(chunks[..m], chunk);
      RunConcat(START, Flatten(chunks[..m]), chunk);
      FeedIsScan(chunks[..m], chunk);
      RelatedRun(FedScan(chunks[..m]), Run(START, Flatten(chunks[..m])), chunk);
      Forget(Run(FedScan(chunks[..m]), chunk), Run(START, Flatten(chunks[..n])));
      TailSteps(chunks, n);
    }
  }

  /** Forgetting a trailing FF keeps the source and the reference in step. */
  lemma Forget(c: Scanned, r: Scanned)
    requires Related(c, r)
    ensures c.scan == Idle(true) ==>
      var c' := c.(scan := Idle(false)); Related(c', r) && (Deficit(c', r) > 0 <==> Deficit(c, r) > 0)
  {
  }

  lemma FedNothing()
    ensures FedScan([]) == START && Run(START, Flatten([])) == START && Deficit(START, START) == 0
  {
    NotFound([], D8, 0);
  }

  /** How a waiting drop changes when one more chunk is taken in. */
  lemma {:induction false} TailSteps(chunks: seq<seq<Byte>>, n: nat)
    requires 0 < n <= |chunks|
    ensures LostBefore(chunks, n) <==>
      LostBefore(chunks, n - 1) || (Pending(chunks, n - 1) && FirstIsD8(chunks[n - 1]))
    ensures Pending(chunks, n) <==>
      DropsAt(chunks, n - 1) || (Pending(chunks, n - 1) && chunks[n - 1] == [])
  {
    hide DropsFF, Feed;
    var m := n - 1;
    forall k | 0 <= k < m
      ensures Between(chunks, k, n) == Between(chunks, k, m) + chunks[m]
    {
      assert chunks[k + 1..n] == chunks[k + 1..m] + [chunks[m]];
      FlattenAppend(chunks[k + 1..m], chunks[m]);
    }
    assert chunks[m + 1..n] == [];
    assert Between(chunks, m, n) == [];
  }

  /** Chunk independence: for every way of cutting a stream into chunks, the frames emitted and the frame in
      progress are those of one scan of the whole stream, if and only if no reset fell between an FF and a D8. */
  lemma {:induction false} ChunkIndependence(chunks: seq<seq<Byte>>)
    ensures var whole := Run(START, Flatten(chunks));
            (Feed(chunks).frames == whole.frames && OpenFrame(Abs(Feed(chunks).buffer)) == OpenFrame(whole.scan))
            <==> !MarkerLost(chunks)
  {
    var n := |chunks|;
    assert chunks[..n] == chunks;
    FeedVersusScan(chunks, n);
  }

  // The three branches of the drain, each on its own.

  lemma {:induction false} DrainNoSoi(b: seq<Byte>)
    requires IndexOf(b, D8, 0) < 0
    ensures Drain(b) == Drained([], if |b| > LIMIT then [] else b) && (ResetTail(b) <==> |b| > LIMIT)
  {
  }

  lemma {:induction false} DrainUnfinished(b: seq<Byte>)
    requires IndexOf(b, D8, 0) >= 0 && IndexOf(b, D9, IndexOf(b, D8, 0) + 2) < 0
    ensures Drain(b) == Drained([], b[IndexOf(b, D8, 0)..]) && !ResetTail(b)
  {
  }

  lemma {:induction false} DrainFinished(b: seq<Byte>)
    requires IndexOf(b, D8, 0) >= 0 && IndexOf(b, D9, IndexOf(b, D8, 0) + 2) >= 0
    ensures var soi := IndexOf(b, D8, 0);
            var eoi := IndexOf(b, D9, soi + 2);
            var d := Drain(b[eoi + 2..]);
            Drain(b) == Drained([b[soi..eoi + 2]] + d.frames, d.rest) && (ResetTail(b) <==> ResetTail(b[eoi + 2..]))
  {
    hide IndexOf;
    var soi := IndexOf(b, D8, 0);
    DrainStep(b, soi, IndexOf(b, D9, soi + 2));
  }

  /** Cutting the bytes before the first SOI shifts both searches. */
  lemma {:induction false} IndexShift(buffer: seq<Byte>, soi: nat)
    requires soi == IndexOf(buffer, D8, 0)
    ensures IndexOf(buffer[soi..], D8, 0) == 0
    ensures var eoi := IndexOf(buffer, D9, soi + 2);
            IndexOf(buffer[soi..], D9, 2) == if eoi < 0 then -1 else eoi - soi
  {
    var s := buffer[soi..];
    IndexOfIs(s, D8, 0, 0);
    var eoi := IndexOf(buffer, D9, soi + 2);
    if eoi < 0 {
      forall i | 2 <= i ensures !PairAt(s, i, D9) { assert !PairAt(buffer, i + soi, D9); }
      NotFound(s, D9, 2);
    } else {
      forall i | 2 <= i < eoi - soi ensures !PairAt(s, i, D9) { assert !PairAt(buffer, i + soi, D9); }
      IndexOfIs(s, D9, 2, eoi - soi);
    }
  }

  /** Bytes before the first SOI do not matter once there is one. */
  lemma {:induction false} DrainFromSoi(buffer: seq<Byte>, soi: nat)
    requires soi == IndexOf(buffer, D8, 0)
    ensures Drain(buffer[soi..]) == Drain(buffer)
    ensures ResetTail(buffer[soi..]) <==> ResetTail(buffer)
  {
    hide Drain, ResetTail, IndexOf;
    IndexShift(buffer, soi);
    var s := buffer[soi..];
    var eoi := IndexOf(buffer, D9, soi + 2);
    if eoi < 0 {
      DrainUnfinished(buffer);
      DrainUnfinished(s);
      assert s[0..] == s;
    } else {
      DrainFinished(buffer);
      DrainFinished(s);
      assert s[0..eoi - soi + 2] == buffer[soi..eoi + 2];
      assert s[eoi - soi + 2..] == buffer[eoi + 2..];
    }
  }

  /** More bytes after a complete frame do not move it. */
  lemma {:induction false} DrainFirst(b: seq<Byte>, c: seq<Byte>, soi: nat, eoi: nat)
    requires soi == IndexOf(b, D8, 0) && eoi == IndexOf(b, D9, soi + 2)
    ensures var d := Drain(b[eoi + 2..] + c); Drain(b + c) == Drained([b[soi..eoi + 2]] + d.frames, d.rest)
    ensures ResetTail(b + c) <==> ResetTail(b[eoi + 2..] + c)
  {
    forall i | 0 <= i < soi ensures !PairAt(b + c, i, D8) { assert !PairAt(b, i, D8); }
    IndexOfIs(b + c, D8, 0, soi);
    forall i | soi + 2 <= i < eoi ensures !PairAt(b + c, i, D9) { assert !PairAt(b, i, D9); }
    IndexOfIs(b + c, D9, soi + 2, eoi);
    assert (b + c)[soi..eoi + 2] == b[soi..eoi + 2];
    assert (b + c)[eoi + 2..] == b[eoi + 2..] + c;
  }

  /** Draining may stop after any prefix that is not thrown away, and go on from what was kept. */
  lemma {:induction false} DrainResumes(b: seq<Byte>, c: seq<Byte>)
    requires !ResetTail(b)
    ensures var d, later := Drain(b), Drain(Drain(b).rest + c);
            Drain(b + c) == Drained(d.frames + later.frames, later.rest)
    ensures ResetTail(b + c) <==> ResetTail(Drain(b).rest + c)
    decreases |b|
  {
    hide Drain, ResetTail, IndexOf;
    var soi := IndexOf(b, D8, 0);
    if soi < 0 {
      DrainNoSoi(b);
      assert [] + Drain(b + c).frames == Drain(b + c).frames;
    } else {
      var eoi := IndexOf(b, D9, soi + 2);
      if eoi < 0 {
        DrainUnfinished(b);
        forall i | 0 <= i < soi ensures !PairAt(b + c, i, D8) { assert !PairAt(b, i, D8); }
        IndexOfIs(b + c, D8, 0, soi);
        DrainFromSoi(b + c, soi);
        assert (b + c)[soi..] == b[soi..] + c;
        assert [] + Drain(b + c).frames == Drain(b + c).frames;
      } else {
        DrainFinished(b);
        DrainFirst(b, c, soi, eoi);
        DrainResumes(b[eoi + 2..], c);
        var d, later := Drain(b[eoi + 2..]), Drain(Drain(b[eoi + 2..]).rest + c);
        assert [b[soi..eoi + 2]] + (d.frames + later.frames) == [b[soi..eoi + 2]] + d.frames + later.frames;
      }
    }
  }

  /** Without a reset the chunked run and one pass over the whole stream agree to the last byte kept. */
  lemma {:induction false} FeedIsOneDrain(chunks: seq<seq<Byte>>)
    requires forall k :: 0 <= k < |chunks| ==> !ResetTail(Feed(chunks[..k]).buffer + chunks[k])
    ensures var d := Drain(Flatten(chunks)); Feed(chunks) == Fed(d.frames, d.rest)
    ensures !ResetTail(Flatten(chunks))
    decreases |chunks|
  {
    hide Drain, ResetTail, IndexOf;
    if chunks == [] {
      DrainNothing();
    } else {
      var n := |chunks| - 1;
      var init := chunks[..n];
      forall k | 0 <= k < n ensures init[..k] == chunks[..k] && init[k] == chunks[k] { }
      FeedIsOneDrain(init);
      assert chunks == init + [chunks[n]];
      FlattenAppend(init, chunks[n]);
      DrainResumes(Flatten(init), chunks[n]);
    }
  }

  const TAIL: seq<Byte> := [D8, FF, D9]

  /** D8 FF D9 after an FF completes a frame. */
  lemma TailCompletes()
    ensures Run(Scanned([], Idle(true)), TAIL).frames == [[FF, D8, FF, D9]]
  {
    var st := Scanned([], Idle(true));
    RunAppend(st, [], D8);
    RunAppend(st, [D8], FF);
    RunAppend(st, [D8, FF], D9);
    assert [] + [D8] == [D8] && [D8] + [FF] == [D8, FF] && [D8, FF] + [D9] == TAIL;
    assert Run(st, [D8, FF]) == Scanned([], Open([FF, D8] + [FF]));
    assert [FF, D8] + [FF] + [D9] == [FF, D8, FF, D9];
  }

  /** A stream that loses a marker: noise just over the limit that ends in FF, then D8 FF D9. */
  lemma {:induction false} LostMarkerExample(noise: seq<Byte>)
    requires |noise| > LIMIT && EndsInFF(noise) && forall i :: !PairAt(noise, i, D8)
    ensures MarkerLost([noise, TAIL])
    ensures Feed([noise, TAIL]).frames == []
    ensures Run(START, Flatten([noise, TAIL])).frames == [[FF, D8, FF, D9]]
  {
    var chunks := [noise, TAIL];
    LostMarkerFed(noise);
    assert DropsFF(noise);
    assert chunks[..0] == [] && [] + noise == noise;
    assert DropsAt(chunks, 0);
    assert chunks[1..2] == [TAIL];
    FlattenTwo(noise, TAIL);
    assert FirstIsD8(Between(chunks, 0, 2));
    RunIdle([], noise);
    RunConcat(START, noise, TAIL);
    TailCompletes();
  }

  lemma FlattenTwo(a: seq<Byte>, b: seq<Byte>)
    ensures Flatten([b]) == b && Flatten([a, b]) == a + b
  {
    assert [b][1..] == [] && [a, b][1..] == [b];
    assert b + [] == b;
  }

  lemma {:induction false} LostMarkerFed(noise: seq<Byte>)
    requires |noise| > LIMIT && forall i :: !PairAt(noise, i, D8)
    ensures ResetTail(noise) && Feed([]) == Fed([], []) && Feed([noise, TAIL]).frames == []
  {
    NotFound(noise, D8, 0);
    NotFound(TAIL, D8, 0);
    assert [noise, TAIL][..1] == [noise] && [noise][..0] == [] && [] + noise == noise && [] + TAIL == TAIL;
    assert Feed([noise]) == Fed([], []);
  }

  // ---------------------------------------------------------------- whole images come back

  /** A complete image: SOI, EOI at the very end, and no earlier EOI after the SOI. */
  predicate IsImage(f: seq<Byte>) {
    && |f| >= 4 && PairAt(f, 0, D8) && PairAt(f, |f| - 2, D9)
    && forall i :: 2 <= i < |f| - 2 ==> !PairAt(f, i, D9)
  }

  /** In bytes: 255 216 in front, 255 217 at the end, and no earlier 255 217 after the first two. */
  lemma ImagesAre(f: seq<Byte>)
    ensures IsImage(f)
       <==> && |f| >= 4 && f[0] == 255 && f[1] == 216 && f[|f| - 2] == 255 && f[|f| - 1] == 217
            && forall i, j :: 2 <= i && j == i + 1 < |f| - 1 ==> !(f[i] == 255 && f[j] == 217)
  {
    if |f| >= 4 {
      forall i | 2 <= i < |f| - 2 ensures PairAt(f, i, D9) <==> f[i] == 255 && f[i + 1] == 217 { }
    }
  }

  /** Bytes without a start marker are kept up to 8 MiB, since the last of them may be half of one, and dropped
      beyond. */
  lemma {:induction false} NoiseIsKeptOrDropped(noise: seq<Byte>)
    requires forall i, j :: 0 <= i && j == i + 1 < |noise| ==> !(noise[i] == 255 && noise[j] == 216)
    ensures Drain(noise) == Drained([], if |noise| <= 8_388_608 then noise else [])
  {
    forall i ensures !PairAt(noise, i, D8) { }
    NotFound(noise, D8, 0);
  }

  /** A proper prefix of one image is kept as it is. */
  lemma {:induction false} DrainPart(f: seq<Byte>, n: nat)
    requires IsImage(f) && n < |f|
    ensures Drain(f[..n]) == Drained([], f[..n])
  {
    var b := f[..n];
    if n >= 2 {
      IndexOfIs(b, D8, 0, 0);
      forall i | 2 <= i ensures !PairAt(b, i, D9) { assert i < |f| - 2 ==> !PairAt(f, i, D9); }
      NotFound(b, D9, 2);
      assert b[0..] == b;
    } else {
      NotFound(b, D8, 0);
    }
  }

  /** An image at the front is cut off whole. */
  lemma {:induction false} DrainWhole(f: seq<Byte>, b: seq<Byte>)
    requires IsImage(f)
    ensures Drain(f + b) == Drained([f] + Drain(b).frames, Drain(b).rest)
  {
    var s, n := f + b, |f|;
    IndexOfIs(s, D8, 0, 0);
    forall i | 2 <= i < n - 2 ensures !PairAt(s, i, D9) { assert !PairAt(f, i, D9); }
    IndexOfIs(s, D9, 2, n - 2);
    assert s[0..n] == f && s[n..] == b;
  }

  /** Draining a prefix of a sequence of images gives the images that lie wholly inside it. */
  lemma {:induction false} DrainImages(b: seq<Byte>, t: seq<Byte>, images: seq<seq<Byte>>) returns (k: nat)
    requires b + t == Flatten(images) && forall f :: f in images ==> IsImage(f)
    ensures k <= |images| && Drain(b).frames == images[..k] && Drain(b).rest + t == Flatten(images[k..])
    ensures t == [] ==> k == |images|
    decreases |images|
  {
    hide Drain, IndexOf;
    if images == [] {
      k := 0;
      DrainNothing();
      assert b == [];
    } else {
      var f := images[0];
      assert f in images;
      Peel(b, t, f, Flatten(images[1..]));
      if |b| < |f| {
        k := 0;
        DrainPart(f, |b|);
        assert images[0..] == images;
      } else {
        DrainWhole(f, b[|f|..]);
        var m := DrainImages(b[|f|..], t, images[1..]);
        k := m + 1;
        assert images[..k] == [f] + images[1..][..m];
        assert images[k..] == images[1..][m..];
      }
    }
  }

  lemma DrainNothing()
    ensures Drain([]) == Drained([], []) && !ResetTail([])
  {
  }

  /** Two ways to cut the same bytes: at the end of b, and after the first image f. */
  lemma Peel(b: seq<Byte>, t: seq<Byte>, f: seq<Byte>, later: seq<Byte>)
    requires b + t == f + later
    ensures |b| < |f| ==> f[..|b|] == b && (t == [] ==> later == [] && f == b)
    ensures |b| >= |f| ==> b == f + b[|f|..] && b[|f|..] + t == later
  {
    if |b| < |f| {
      assert f[..|b|] == (f + later)[..|b|] == (b + t)[..|b|];
    } else {
      assert b[..|f|] == (b + t)[..|f|] == (f + later)[..|f|] == f;
      assert b[|f|..] + t == (b + t)[|f|..] == (f + later)[|f|..] == later;
    }
  }

  lemma {:induction false} FeedImages(done: seq<seq<Byte>>, t: seq<Byte>, images: seq<seq<Byte>>) returns (k: nat)
    requires Flatten(done) + t == Flatten(images) && forall f :: f in images ==> IsImage(f)
    ensures k <= |images| && Feed(done).frames == images[..k]
    ensures Feed(done).buffer + t == Flatten(images[k..])
    ensures done != [] && t == [] ==> k == |images|
  {
    if done == [] {
      k := 0;
      assert images[0..] == images;
    } else {
      var n := |done| - 1;
      var init, chunk := done[..n], done[n];
      assert done == init + [chunk];
      FlattenAppend(init, chunk);
      Regroup(Flatten(init), chunk, t);
      var j := FeedImages(init, chunk + t, images);
      k := FeedImagesStep(Feed(init), chunk, t, images, j);
    }
  }

  lemma FeedImagesStep(before: Fed, chunk: seq<Byte>, t: seq<Byte>, images: seq<seq<Byte>>, j: nat) returns (k: nat)
    requires j <= |images| && before.frames == images[..j]
    requires before.buffer + (chunk + t) == Flatten(images[j..]) && forall f :: f in images ==> IsImage(f)
    ensures var d := Drain(before.buffer + chunk);
            && k <= |images| && before.frames + d.frames == images[..k] && d.rest + t == Flatten(images[k..])
            && (t == [] ==> k == |images|)
  {
    Regroup(before.buffer, chunk, t);
    var m := DrainImages(before.buffer + chunk, t, images[j..]);
    k := j + m;
    assert images[..j] + images[j..][..m] == images[..k];
    assert images[j..][m..] == images[k..];
  }

  lemma Regroup(a: seq<Byte>, b: seq<Byte>, c: seq<Byte>)
    ensures a + (b + c) == a + b + c
  {
  }

  /** However a concatenation of images is cut into chunks, exactly those images are emitted and nothing is kept. */
  lemma {:induction false} ImagesComeBack(chunks: seq<seq<Byte>>, images: seq<seq<Byte>>)
    requires Flatten(chunks) == Flatten(images) && forall f :: f in images ==> IsImage(f)
    ensures Feed(chunks) == Fed(images, [])
  {
    assert Flatten(chunks) + [] == Flatten(chunks);
    var k := FeedImages(chunks, [], images);
    assert images != [] ==> IsImage(images[0]) && |Flatten(images)| >= |images[0]|;
    assert chunks == [] ==> images == [];
    assert k == |images| && images[..k] == images && images[k..] == [];
    assert Feed(chunks).buffer + [] == Feed(chunks).buffer;
  }
}
