/**
 The session tracker (server/src/ai/tracker.ts): greedy matching of detections to tracks by
 intersection over union, with expiry and dwell times. Each call carries its time and the
 random id suffixes it would draw, one per detection.
 */
module Tracker {
  import opened Wrappers
  import opened Zone
  import Keys

  const THRESHOLD := 0.3
  const TRACK_TTL_MS := 10_000

  // ---------------------------------------------------------------- intersection over union

  function Min(a: real, b: real): real { if a < b then a else b }
  function Max(a: real, b: real): real { if a > b then a else b }

  /** Length of the overlap of [x, x + w] and [x', x' + w']. */
  function Overlap(x: real, w: real, x': real, w': real): real {
    Max(0.0, Min(x + w, x' + w') - Max(x, x'))
  }

  function Inter(a: BBox, b: BBox): real {
    Overlap(a.x, a.w, b.x, b.w) * Overlap(a.y, a.h, b.y, b.h)
  }

  function Area(a: BBox): real {
    a.w * a.h
  }

  /** Intersection over union, from the two areas and the intersection. */
  function Score(areaA: real, areaB: real, inter: real): real {
    var union := areaA + areaB - inter;
    if union <= 0.0 then 0.0 else inter / union
  }

  function Iou(a: BBox, b: BBox): real {
    Score(Area(a), Area(b), Inter(a, b))
  }

  lemma {:induction false} IouSymmetric(a: BBox, b: BBox)
    ensures Iou(a, b) == Iou(b, a)
  {
    assert Inter(a, b) == Inter(b, a) by {
      assert Overlap(a.x, a.w, b.x, b.w) == Overlap(b.x, b.w, a.x, a.w);
      assert Overlap(a.y, a.h, b.y, b.h) == Overlap(b.y, b.h, a.y, a.h);
    }
    hide Inter, Area;
  }

  lemma Positive(p: real, q: real)
    requires p > 0.0 && q > 0.0
    ensures p * q > 0.0
  {
  }

  lemma StrictLeft(p: real, p': real, q: real)
    requires p < p' && 0.0 < q
    ensures p * q < p' * q && q * p < q * p'
  {
    Positive(p' - p, q);
    Distribute(p, p' - p, q);
  }

  lemma Distribute(a: real, b: real, c: real)
    ensures (a + b) * c == a * c + b * c && c * (a + b) == c * a + c * b
  {
  }

  lemma ProductStrict(p: real, q: real, p': real, q': real)
    requires 0.0 < p <= p' && 0.0 < q <= q' && (p < p' || q < q')
    ensures p * q < p' * q'
  {
    if p < p' { StrictLeft(p, p', q); }
    if q < q' { StrictLeft(q, q', p'); }
  }

  lemma ProductWithin(p: real, q: real, p': real, q': real)
    requires 0.0 < p <= p' && 0.0 < q <= q'
    ensures 0.0 < p * q <= p' * q' && (p * q == p' * q' ==> p == p' && q == q')
  {
    Positive(p, q);
    if p < p' || q < q' { ProductStrict(p, q, p', q'); }
  }

  lemma OverlapWithin(x: real, w: real, x': real, w': real)
    ensures Overlap(x, w, x', w') >= 0.0
    ensures Overlap(x, w, x', w') > 0.0 ==> Overlap(x, w, x', w') <= w && Overlap(x, w, x', w') <= w'
  {
  }

  /** The intersection is nothing, or a positive part of both areas; it is a whole area only if the overlap is
      as wide and as high as that box. */
  lemma {:induction false} InterWithin(a: BBox, b: BBox)
    ensures var ix, iy := Overlap(a.x, a.w, b.x, b.w), Overlap(a.y, a.h, b.y, b.h);
            && Inter(a, b) >= 0.0
            && (Inter(a, b) > 0.0 ==> ix > 0.0 && iy > 0.0 && Inter(a, b) <= Area(a) && Inter(a, b) <= Area(b))
            && (Inter(a, b) > 0.0 && Inter(a, b) == Area(a) ==> ix == a.w && iy == a.h)
            && (Inter(a, b) > 0.0 && Inter(a, b) == Area(b) ==> ix == b.w && iy == b.h)
  {
    var ix, iy := Overlap(a.x, a.w, b.x, b.w), Overlap(a.y, a.h, b.y, b.h);
    hide Overlap;
    OverlapWithin(a.x, a.w, b.x, b.w);
    OverlapWithin(a.y, a.h, b.y, b.h);
    if ix > 0.0 && iy > 0.0 {
      ProductWithin(ix, iy, a.w, a.h);
      ProductWithin(ix, iy, b.w, b.h);
    }
  }

  lemma ScoreRange(areaA: real, areaB: real, inter: real)
    requires inter >= 0.0 && (inter > 0.0 ==> inter <= areaA && inter <= areaB)
    ensures 0.0 <= Score(areaA, areaB, inter) <= 1.0
    ensures Score(areaA, areaB, inter) == 1.0 <==> inter > 0.0 && inter == areaA && inter == areaB
  {
    var union := areaA + areaB - inter;
    if union > 0.0 { Quotient(inter, union); }
  }

  lemma Quotient(n: real, d: real)
    requires 0.0 <= n && 0.0 < d
    ensures n / d >= 0.0 && (n <= d ==> n / d <= 1.0) && (n / d == 1.0 <==> n == d)
  {
    var r := n / d;
    assert r * d == n;
    if r < 0.0 { StrictLeft(r, 0.0, d); }
    if r > 1.0 { StrictLeft(1.0, r, d); }
  }

  /** For all boxes, of any sign: the score lies in [0, 1]. */
  lemma {:induction false} IouRange(a: BBox, b: BBox)
    ensures 0.0 <= Iou(a, b) <= 1.0
  {
    InterWithin(a, b);
    hide Inter, Area, Score;
    ScoreRange(Area(a), Area(b), Inter(a, b));
  }

  /** The score is 1 only for equal boxes of positive size. */
  lemma {:induction false} IouOne(a: BBox, b: BBox)
    ensures Iou(a, b) == 1.0 <==> a == b && a.w > 0.0 && a.h > 0.0
  {
    InterWithin(a, b);
    if a == b && a.w > 0.0 && a.h > 0.0 {
      assert Overlap(a.x, a.w, b.x, b.w) == a.w && Overlap(a.y, a.h, b.y, b.h) == a.h;
      Positive(a.w, a.h);
    }
    hide Inter, Area, Score;
    ScoreRange(Area(a), Area(b), Inter(a, b));
  }

  // ---------------------------------------------------------------- what the score measures

  /** The point lies in the box, its lower ends included. */
  predicate Covers(b: BBox, p: Point) {
    b.x <= p.x < b.x + b.w && b.y <= p.y < b.y + b.h
  }

  /** The box c holds exactly the points that a and b have in common. */
  ghost predicate CommonPart(a: BBox, b: BBox, c: BBox) {
    forall p :: Covers(c, p) <==> Covers(a, p) && Covers(b, p)
  }

  /** m is the area of what the two boxes have in common: of the box of their common points, or 0 if there is none. */
  ghost predicate CommonArea(a: BBox, b: BBox, m: real) {
    || ((forall p :: !(Covers(a, p) && Covers(b, p))) && m == 0.0)
    || exists c: BBox :: c.w > 0.0 && c.h > 0.0 && CommonPart(a, b, c) && m == c.w * c.h
  }

  /** Two boxes of positive size with the same points are the same box. */
  lemma SamePoints(c: BBox, d: BBox)
    requires c.w > 0.0 && c.h > 0.0 && forall p :: Covers(c, p) <==> Covers(d, p)
    ensures c == d
  {
    assert Covers(c, Point(c.x, c.y));
    assert d.w > 0.0 && d.h > 0.0;
    Reaches(c, d);
    Reaches(d, c);
  }

  /** A box whose points all lie in d lies within it. */
  lemma Reaches(c: BBox, d: BBox)
    requires c.w > 0.0 && c.h > 0.0 && forall p :: Covers(c, p) ==> Covers(d, p)
    ensures d.x <= c.x && c.x + c.w <= d.x + d.w && d.y <= c.y && c.y + c.h <= d.y + d.h
  {
    assert Covers(c, Point(c.x, c.y));
    if c.x + c.w > d.x + d.w { assert Covers(c, Point(d.x + d.w, c.y)); }
    if c.y + c.h > d.y + d.h { assert Covers(c, Point(c.x, d.y + d.h)); }
  }

  /** The box spanned by the two overlaps. */
  function Meet(a: BBox, b: BBox): BBox {
    BBox(Max(a.x, b.x), Max(a.y, b.y), Overlap(a.x, a.w, b.x, b.w), Overlap(a.y, a.h, b.y, b.h))
  }

  lemma MeetIsCommon(a: BBox, b: BBox)
    ensures CommonPart(a, b, Meet(a, b)) && Inter(a, b) == Meet(a, b).w * Meet(a, b).h
    ensures Meet(a, b).w >= 0.0 && Meet(a, b).h >= 0.0
  {
  }

  /** Whatever the boxes, the intersection term is the area of what they have in common. */
  lemma InterIsCommon(a: BBox, b: BBox, m: real)
    ensures CommonArea(a, b, m) <==> m == Inter(a, b)
  {
    MeetIsCommon(a, b);
    var c := Meet(a, b);
    hide Meet, Inter;
    if c.w > 0.0 && c.h > 0.0 {
      assert Covers(c, Point(c.x, c.y));
      hide Covers;
      forall d: BBox | d.w > 0.0 && d.h > 0.0 && CommonPart(a, b, d) ensures d == c { SamePoints(d, c); }
    } else {
      assert c.w * c.h == 0.0 && forall p :: !Covers(c, p);
      forall d: BBox | d.w > 0.0 && d.h > 0.0 ensures !CommonPart(a, b, d) {
        assert Covers(d, Point(d.x, d.y)) && !Covers(c, Point(d.x, d.y));
      }
    }
  }

  lemma ScoreIs(areaA: real, areaB: real, inter: real)
    requires inter >= 0.0 && (inter > 0.0 ==> inter <= areaA && inter <= areaB)
    ensures inter == 0.0 ==> Score(areaA, areaB, inter) == 0.0
    ensures inter > 0.0 ==> areaA + areaB - inter > 0.0 && Score(areaA, areaB, inter) * (areaA + areaB - inter) == inter
  {
    var union := areaA + areaB - inter;
    if union > 0.0 { assert inter / union * union == inter; }
  }

  /** What the score is, in terms of the three areas: the common one over that of the two together. */
  lemma {:induction false} IouIs(a: BBox, b: BBox, m: real)
    requires CommonArea(a, b, m)
    ensures m == 0.0 ==> Iou(a, b) == 0.0
    ensures m > 0.0 ==> a.w * a.h + b.w * b.h - m > 0.0 && Iou(a, b) * (a.w * a.h + b.w * b.h - m) == m
    ensures m >= 0.0
  {
    InterIsCommon(a, b, m);
    InterWithin(a, b);
    hide CommonArea, Inter, Overlap, Score;
    ScoreIs(Area(a), Area(b), Inter(a, b));
  }

  /** Two boxes belong together: 13 times what they have in common is at least 3 times their areas' sum. */
  ghost predicate Near(a: BBox, b: BBox) {
    exists m :: CommonArea(a, b, m) && m > 0.0 && 13.0 * m >= 3.0 * (a.w * a.h + b.w * b.h)
  }

  lemma {:induction false} NearMeans(a: BBox, b: BBox)
    ensures Iou(a, b) >= THRESHOLD <==> Near(a, b)
  {
    hide Iou, Inter, CommonArea;
    var m, sum := Inter(a, b), a.w * a.h + b.w * b.h;
    InterIsCommon(a, b, m);
    IouIs(a, b, m);
    forall n | CommonArea(a, b, n) ensures n == m { InterIsCommon(a, b, n); }
    if m > 0.0 { AtLeastThreeTenths(Iou(a, b), sum, m); }
  }

  lemma AtLeastThreeTenths(score: real, sum: real, m: real)
    requires m > 0.0 && sum - m > 0.0 && score * (sum - m) == m
    ensures score >= 0.3 <==> 13.0 * m >= 3.0 * sum
  {
    var u := sum - m;
    Distribute(score - 0.3, 0.3, u);
    if score < 0.3 { Positive(0.3 - score, u); }
    if score > 0.3 { Positive(score - 0.3, u); }
  }

  /** A box and the same box moved sideways by d within its width score (w - d) / (w + d). */
  lemma {:induction false} ShiftedBox(b: BBox, d: real)
    requires b.w > 0.0 && b.h > 0.0 && 0.0 <= d <= b.w
    ensures Iou(b, b.(x := b.x + d)) * (b.w + d) == b.w - d
  {
    var m := (b.w - d) * b.h;
    assert Overlap(b.x, b.w, b.x + d, b.w) == b.w - d && Overlap(b.y, b.h, b.y, b.h) == b.h;
    var union := 2.0 * (b.w * b.h) - m;
    assert union == (b.w + d) * b.h;
    Positive(b.w + d, b.h);
    var q := m / union;
    assert q * union == m;
    assert (q * (b.w + d) - (b.w - d)) * b.h == 0.0;
    if q * (b.w + d) != b.w - d { Nonzero(q * (b.w + d) - (b.w - d), b.h); }
  }

  lemma Nonzero(p: real, q: real)
    requires p != 0.0 && q > 0.0
    ensures p * q != 0.0
  {
    if p > 0.0 { Positive(p, q); } else { Positive(-p, q); }
  }

  // ---------------------------------------------------------------- tracks

  datatype Track = Track(id: string, tag: string, bbox: BBox, firstSeen: int, lastSeen: int)

  /** The Map of tracks keeps insertion order. */
  datatype CameraState = CameraState(tracks: seq<Track>, counter: nat)

  datatype Observation = Observation(tag: string, bbox: BBox)

  datatype Tracked = Tracked(trackId: string, tag: string, bbox: BBox, dwellMs: int, isNew: bool)

  const NO_TRACKS := CameraState([], 0)

  function Lower(s: string): (r: string)
    ensures |r| == |s|
  {
    seq(|s|, i requires 0 <= i < |s| => Keys.Lower(s[i]))
  }

  /** The six hexadecimal characters cut from a random UUID. */
  predicate IsSuffix(token: string) {
    |token| == 6 && '-' !in token
  }

  function TrackId(tag: string, counter: nat, token: string): string {
    Lower(tag) + "-track-" + Keys.Decimal(counter) + "-" + token
  }

  /** Two ids made with different counter values differ, whatever the labels and suffixes. */
  lemma {:induction false} TrackIdInjective(l: string, m: nat, s: string, l': string, n: nat, s': string)
    requires IsSuffix(s) && IsSuffix(s') && TrackId(l, m, s) == TrackId(l', n, s')
    ensures m == n
  {
    var p, q := Lower(l) + "-track", Lower(l') + "-track";
    var d, e := Keys.Decimal(m), Keys.Decimal(n);
    var x, y := p + "-" + d, q + "-" + e;
    assert TrackId(l, m, s) == x + ("-" + s) && TrackId(l', n, s') == y + ("-" + s');
    assert |"-" + s| == |"-" + s'| == 7;
    CutEqual(x, "-" + s, y, "-" + s');
    LastDash(p, d, q, e);
    Keys.DecimalInjective(m, n);
  }

  lemma CutEqual(x: string, s: string, y: string, t: string)
    requires x + s == y + t && |s| == |t|
    ensures x == y
  {
    assert x == (x + s)[..|x|] && y == (y + t)[..|y|];
  }

  lemma LastDash(p: string, d: string, q: string, e: string)
    requires p + "-" + d == q + "-" + e
    requires '-' !in d && '-' !in e
    ensures d == e
  {
    var x, y := p + "-" + d, q + "-" + e;
    assert x[|p|] == '-' && y[|q|] == '-';
    NotInTail(p, d, |q|);
    NotInTail(q, e, |p|);
    assert d == x[|p| + 1..] && e == y[|q| + 1..];
  }

  lemma NotInTail(p: string, d: string, k: nat)
    requires '-' !in d && k < |p + "-" + d| && (p + "-" + d)[k] == '-'
    ensures k <= |p|
  {
    var x := p + "-" + d;
    assert forall i :: |p| < i < |x| ==> x[i] == d[i - |p| - 1];
  }

  // ---------------------------------------------------------------- one update

  predicate Fresh(t: Track, now: int) {
    now - t.lastSeen <= TRACK_TTL_MS
  }

  function Expire(tracks: seq<Track>, now: int): seq<Track> {
    if tracks == [] then []
    else
      var n := |tracks| - 1;
      Expire(tracks[..n], now) + if Fresh(tracks[n], now) then [tracks[n]] else []
  }

  predicate Candidate(t: Track, det: Observation, claimed: set<string>) {
    t.tag == det.tag && t.id !in claimed
  }

  /** Best position so far and the score to reach, after looking at the first n tracks: later ties win. */
  function Best(tracks: seq<Track>, det: Observation, claimed: set<string>, n: nat): (Option<nat>, real)
    requires n <= |tracks|
  {
    if n == 0 then (None, THRESHOLD)
    else
      var (best, score) := Best(tracks, det, claimed, n - 1);
      var t := tracks[n - 1];
      if Candidate(t, det, claimed) && Iou(t.bbox, det.bbox) >= score then (Some(n - 1), Iou(t.bbox, det.bbox))
      else (best, score)
  }

  datatype Work = Work(state: CameraState, claimed: set<string>, out: seq<Tracked>)

  function Assign(w: Work, det: Observation, token: string, now: int): Work {
    var tracks := w.state.tracks;
    var best := Best(tracks, det, w.claimed, |tracks|).0;
    if best.Some? && best.value < |tracks| then
      var t := tracks[best.value];
      Work(w.state.(tracks := tracks[best.value := t.(bbox := det.bbox, lastSeen := now)]),
           w.claimed + {t.id},
           w.out + [Tracked(t.id, det.tag, det.bbox, now - t.firstSeen, false)])
    else
      var id := TrackId(det.tag, w.state.counter + 1, token);
      Work(CameraState(tracks + [Track(id, det.tag, det.bbox, now, now)], w.state.counter + 1),
           w.claimed + {id},
           w.out + [Tracked(id, det.tag, det.bbox, 0, true)])
  }

  /** The work done after the first n detections of a frame. */
  function Process(state: CameraState, dets: seq<Observation>, tokens: seq<string>, now: int, n: nat): Work
    requires n <= |dets| == |tokens|
  {
    if n == 0 then Work(state.(tracks := Expire(state.tracks, now)), {}, [])
    else Assign(Process(state, dets, tokens, now, n - 1), dets[n - 1], tokens[n - 1], now)
  }

  class SessionTracker {
    var state: map<string, CameraState>

    constructor ()
      ensures state == map[]
    {
      state := map[];
    }

    method Update(org: string, camera: string, dets: seq<Observation>, tokens: seq<string>, now: int)
      returns (out: seq<Tracked>)
      requires |dets| == |tokens|
      modifies this
      ensures var key := Keys.Join(org, camera);
              var w := Process(if key in old(state) then old(state)[key] else NO_TRACKS, dets, tokens, now, |dets|);
              state == old(state)[key := w.state] && out == w.out
    {
      var key := Keys.Join(org, camera);
      if key !in state { state := state[key := NO_TRACKS]; }
      ghost var before, initial := state[key], state;
      hide Assign, Expire, Keys.Join;

      var tracks := ExpireStale(state[key].tracks, now);
      var counter := state[key].counter;
      out := [];
      var claimed: set<string> := {};
      var k := 0;
      while k < |dets|
        invariant 0 <= k <= |dets|
        invariant state == initial
        invariant Work(CameraState(tracks, counter), claimed, out) == Process(before, dets, tokens, now, k)
      {
        var r: Tracked;
        tracks, counter, claimed, r := MatchOne(tracks, counter, claimed, out, dets[k], tokens[k], now);
        out := out + [r];
        k := k + 1;
      }
      state := state[key := CameraState(tracks, counter)];
    }

    /** The body of the loop over detections. */
    static method MatchOne(tracks: seq<Track>, counter: nat, claimed: set<string>, ghost out: seq<Tracked>,
                           det: Observation, token: string, now: int)
      returns (tracks': seq<Track>, counter': nat, claimed': set<string>, r: Tracked)
      ensures Work(CameraState(tracks', counter'), claimed', out + [r])
           == Assign(Work(CameraState(tracks, counter), claimed, out), det, token, now)
    {
      hide Best, TrackId;
      var best := FindBest(tracks, det, claimed);
      if best.Some? && best.value < |tracks| {
        var t := tracks[best.value];
        tracks' := tracks[best.value := t.(bbox := det.bbox, lastSeen := now)];
        counter' := counter;
        claimed' := claimed + {t.id};
        r := Tracked(t.id, det.tag, det.bbox, now - t.firstSeen, false);
      } else {
        counter' := counter + 1;
        var id := TrackId(det.tag, counter', token);
        tracks' := tracks + [Track(id, det.tag, det.bbox, now, now)];
        claimed' := claimed + {id};
        r := Tracked(id, det.tag, det.bbox, 0, true);
      }
    }

    /** The loop that deletes tracks not seen for longer than the time to live. */
    static method ExpireStale(before: seq<Track>, now: int) returns (tracks: seq<Track>)
      ensures tracks == Expire(before, now)
    {
      tracks := [];
      var i := 0;
      while i < |before|
        invariant 0 <= i <= |before|
        invariant tracks == Expire(before[..i], now)
      {
        assert before[..i + 1][..i] == before[..i];
        if !(now - before[i].lastSeen > TRACK_TTL_MS) { tracks := tracks + [before[i]]; }
        i := i + 1;
      }
      assert before[..i] == before;
    }

    /** The loop that looks for the best match of one detection. */
    static method FindBest(tracks: seq<Track>, det: Observation, claimed: set<string>) returns (best: Option<nat>)
      ensures best == Best(tracks, det, claimed, |tracks|).0
    {
      var bestIou := THRESHOLD;
      best := None;
      var j := 0;
      while j < |tracks|
        invariant 0 <= j <= |tracks|
        invariant (best, bestIou) == Best(tracks, det, claimed, j)
      {
        var t := tracks[j];
        if t.tag == det.tag && t.id !in claimed {
          var score := Iou(t.bbox, det.bbox);
          if score >= bestIou { bestIou := score; best := Some(j); }
        }
        j := j + 1;
      }
    }

    method PresentLabels(org: string, camera: string, now: int) returns (labels: set<string>)
      ensures var key := Keys.Join(org, camera);
              var tracks := if key in state then state[key].tracks else [];
              forall l :: l in labels <==> exists t :: t in tracks && Fresh(t, now) && t.tag == l
    {
      labels := {};
      var key := Keys.Join(org, camera);
      if key !in state { return; }
      var tracks := state[key].tracks;
      var i := 0;
      while i < |tracks|
        invariant 0 <= i <= |tracks|
        invariant forall l :: l in labels <==> exists j :: 0 <= j < i && Fresh(tracks[j], now) && tracks[j].tag == l
      {
        if Fresh(tracks[i], now) { labels := labels + {tracks[i].tag}; }
        i := i + 1;
      }
    }
  }

  // ---------------------------------------------------------------- what one update matches

  /** k is the last of the candidates with the greatest score, and that reaches the threshold. */
  ghost predicate IsBest(tracks: seq<Track>, det: Observation, claimed: set<string>, k: nat) {
    && k < |tracks| && Candidate(tracks[k], det, claimed) && Iou(tracks[k].bbox, det.bbox) >= THRESHOLD
    && forall j :: 0 <= j < |tracks| && Candidate(tracks[j], det, claimed) ==>
         Iou(tracks[j].bbox, det.bbox) <= Iou(tracks[k].bbox, det.bbox)
         && (k < j ==> Iou(tracks[j].bbox, det.bbox) < Iou(tracks[k].bbox, det.bbox))
  }

  ghost predicate NoneReaches(tracks: seq<Track>, det: Observation, claimed: set<string>) {
    forall j :: 0 <= j < |tracks| && Candidate(tracks[j], det, claimed) ==> Iou(tracks[j].bbox, det.bbox) < THRESHOLD
  }

  /** The scan finds the best candidate, if any reaches the threshold. */
  lemma {:induction false} BestIsBest(tracks: seq<Track>, det: Observation, claimed: set<string>, n: nat)
    requires n <= |tracks|
    ensures var (best, score) := Best(tracks, det, claimed, n);
            && (best.None? ==> score == THRESHOLD && NoneReaches(tracks[..n], det, claimed))
            && (best.Some? ==> IsBest(tracks[..n], det, claimed, best.value) &&
                               score == Iou(tracks[best.value].bbox, det.bbox))
  {
    if n > 0 {
      BestIsBest(tracks, det, claimed, n - 1);
      assert forall j :: 0 <= j < n - 1 ==> tracks[..n - 1][j] == tracks[..n][j];
    }
  }

  /** Every id in use was made with a counter value between 1 and the current one. */
  ghost predicate Issued(id: string, counter: nat) {
    exists l, m, s :: 1 <= m <= counter && IsSuffix(s) && id == TrackId(l, m, s)
  }

  ghost predicate Valid(state: CameraState) {
    && (forall i, j :: 0 <= i < j < |state.tracks| ==> state.tracks[i].id != state.tracks[j].id)
    && (forall i :: 0 <= i < |state.tracks| ==> Issued(state.tracks[i].id, state.counter))
  }

  lemma {:induction false} NextIdIsNew(tag: string, counter: nat, token: string, id: string)
    requires IsSuffix(token) && Issued(id, counter)
    ensures id != TrackId(tag, counter + 1, token)
  {
    var l, m, s :| 1 <= m <= counter && IsSuffix(s) && id == TrackId(l, m, s);
    if id == TrackId(tag, counter + 1, token) { TrackIdInjective(l, m, s, tag, counter + 1, token); }
  }

  function IdsOf(out: seq<Tracked>): set<string> {
    set i | 0 <= i < |out| :: out[i].trackId
  }

  /** After n detections: the first |live| positions are the live tracks of the frame's start, the unclaimed ones
      untouched; the rest are new and claimed. */
  ghost predicate InFrame(live: seq<Track>, w: Work, now: int) {
    && Valid(w.state)
    && |live| <= |w.state.tracks|
    && (forall i :: 0 <= i < |live| ==>
          && w.state.tracks[i].id == live[i].id && w.state.tracks[i].tag == live[i].tag
          && w.state.tracks[i].firstSeen == live[i].firstSeen
          && (live[i].id !in w.claimed ==> w.state.tracks[i] == live[i]))
    && (forall i :: |live| <= i < |w.state.tracks| ==> w.state.tracks[i].id in w.claimed)
    && (forall i :: 0 <= i < |w.state.tracks| && w.state.tracks[i].id in w.claimed ==>
        w.state.tracks[i].lastSeen == now)
    && (forall id :: id in w.claimed ==> exists i :: 0 <= i < |w.state.tracks| && w.state.tracks[i].id == id)
    && w.claimed == IdsOf(w.out)
  }

  /** What the result for a detection says: the best unclaimed live track of its tag, or a new track if none will do. */
  ghost predicate Matched(live: seq<Track>, claimed: set<string>, det: Observation, r: Tracked, now: int) {
    && r.tag == det.tag && r.bbox == det.bbox && r.trackId !in claimed
    && (r.isNew <==> NoneReaches(live, det, claimed))
    && (r.isNew ==> r.dwellMs == 0 && forall i :: 0 <= i < |live| ==> live[i].id != r.trackId)
    && (!r.isNew ==> exists k: nat :: IsBest(live, det, claimed, k)
                       && r.trackId == live[k].id && r.dwellMs == now - live[k].firstSeen)
  }

  lemma {:induction false} ExpireKeeps(state: CameraState, now: int)
    requires Valid(state)
    ensures Valid(state.(tracks := Expire(state.tracks, now)))
    ensures forall t :: t in Expire(state.tracks, now) <==> t in state.tracks && Fresh(t, now)
    decreases |state.tracks|
  {
    if state.tracks != [] {
      var n := |state.tracks| - 1;
      var init := state.(tracks := state.tracks[..n]);
      ExpireKeeps(init, now);
      assert state.tracks == init.tracks + [state.tracks[n]];
      var e := Expire(init.tracks, now);
      forall i | 0 <= i < |e| ensures e[i].id != state.tracks[n].id {
        assert e[i] in init.tracks;
      }
      forall i | 0 <= i < |e| ensures Issued(e[i].id, state.counter) { }
    }
  }

  lemma {:induction false} AssignStep(live: seq<Track>, w: Work, det: Observation, token: string, now: int)
    requires InFrame(live, w, now) && IsSuffix(token)
    ensures var w' := Assign(w, det, token, now);
            && InFrame(live, w', now) && |w'.out| == |w.out| + 1 && w'.out[..|w.out|] == w.out
            && Matched(live, w.claimed, det, w'.out[|w.out|], now)
  {
    var tracks := w.state.tracks;
    BestIsBest(tracks, det, w.claimed, |tracks|);
    assert tracks[..|tracks|] == tracks;
    CandidatesAreLive(live, w, det, now);
    var best := Best(tracks, det, w.claimed, |tracks|).0;
    var w' := Assign(w, det, token, now);
    IdsAppend(w.out, w'.out[|w.out|]);
    if best.Some? {
      MatchedStep(live, w, det, token, now);
    } else {
      NewStep(live, w, det, token, now);
    }
  }

  lemma IdsAppend(out: seq<Tracked>, r: Tracked)
    ensures IdsOf(out + [r]) == IdsOf(out) + {r.trackId}
  {
    var o := out + [r];
    assert o[|out|] == r && forall i :: 0 <= i < |out| ==> o[i] == out[i];
  }

  /** The unclaimed tracks are exactly the unclaimed live ones. */
  lemma CandidatesAreLive(live: seq<Track>, w: Work, det: Observation, now: int)
    requires InFrame(live, w, now)
    ensures NoneReaches(w.state.tracks, det, w.claimed) <==> NoneReaches(live, det, w.claimed)
    ensures forall k: nat :: IsBest(w.state.tracks, det, w.claimed, k) ==> k < |live| && IsBest(live, det, w.claimed, k)
  {
    hide Iou, Valid;
    var tracks := w.state.tracks;
    forall k | 0 <= k < |tracks|
      ensures Candidate(tracks[k], det, w.claimed) <==> k < |live| && Candidate(live[k], det, w.claimed)
      ensures Candidate(tracks[k], det, w.claimed) ==> tracks[k] == live[k]
    {
    }
    assert forall k :: 0 <= k < |live| && Candidate(live[k], det, w.claimed) ==> Candidate(tracks[k], det, w.claimed);
  }

  lemma {:induction false} MatchedStep(live: seq<Track>, w: Work, det: Observation, token: string, now: int)
    requires InFrame(live, w, now)
    requires Best(w.state.tracks, det, w.claimed, |w.state.tracks|).0.Some?
    requires IsBest(w.state.tracks, det, w.claimed, Best(w.state.tracks, det, w.claimed, |w.state.tracks|).0.value)
    requires forall k: nat :: IsBest(w.state.tracks, det, w.claimed, k) ==>
        k < |live| && IsBest(live, det, w.claimed, k)
    requires IdsOf(Assign(w, det, token, now).out) == w.claimed + {Assign(w, det, token, now).out[|w.out|].trackId}
    ensures InFrame(live, Assign(w, det, token, now), now)
    ensures Matched(live, w.claimed, det, Assign(w, det, token, now).out[|w.out|], now)
  {
    hide Iou, Best, Issued, TrackId, IdsOf;
    SameIds(w, Assign(w, det, token, now));
  }

  /** Claimed ids stay present when tracks keep their positions. */
  lemma SameIds(w: Work, w': Work)
    requires |w.state.tracks| <= |w'.state.tracks|
    requires forall i :: 0 <= i < |w.state.tracks| ==> w'.state.tracks[i].id == w.state.tracks[i].id
    requires forall id :: id in w.claimed ==> exists i :: 0 <= i < |w.state.tracks| && w.state.tracks[i].id == id
    ensures forall id :: id in w.claimed ==> exists i :: 0 <= i < |w'.state.tracks| && w'.state.tracks[i].id == id
  {
    forall id | id in w.claimed ensures exists i :: 0 <= i < |w'.state.tracks| && w'.state.tracks[i].id == id {
      var i :| 0 <= i < |w.state.tracks| && w.state.tracks[i].id == id;
      assert w'.state.tracks[i].id == id;
    }
  }

  lemma {:induction false} NewStep(live: seq<Track>, w: Work, det: Observation, token: string, now: int)
    requires InFrame(live, w, now) && IsSuffix(token)
    requires Best(w.state.tracks, det, w.claimed, |w.state.tracks|).0.None? && NoneReaches(live, det, w.claimed)
    requires IdsOf(Assign(w, det, token, now).out) == w.claimed + {Assign(w, det, token, now).out[|w.out|].trackId}
    ensures InFrame(live, Assign(w, det, token, now), now)
    ensures Matched(live, w.claimed, det, Assign(w, det, token, now).out[|w.out|], now)
  {
    hide Iou, Best, TrackId, IdsOf, IsSuffix;
    SameIds(w, Assign(w, det, token, now));
    assert Assign(w, det, token, now).state.tracks[|w.state.tracks|].id == TrackId(det.tag, w.state.counter + 1, token);
    var id := TrackId(det.tag, w.state.counter + 1, token);
    forall i | 0 <= i < |w.state.tracks|
      ensures w.state.tracks[i].id != id && Issued(w.state.tracks[i].id, w.state.counter + 1)
    {
      NextIdIsNew(det.tag, w.state.counter, token, w.state.tracks[i].id);
      var l, m, s :| 1 <= m <= w.state.counter && IsSuffix(s) && w.state.tracks[i].id == TrackId(l, m, s);
    }
    assert Issued(id, w.state.counter + 1);
  }

  /** Matching: one result per detection, pairwise distinct track ids, and each result the best live track of its
      label that no earlier detection of the frame has claimed, or a new track exactly when none reaches 0.3. */
  lemma {:induction false} Matching(state: CameraState, dets: seq<Observation>, tokens: seq<string>, now: int, n: nat)
    requires Valid(state) && n <= |dets| == |tokens| && forall t :: t in tokens ==> IsSuffix(t)
    ensures var live, w := Expire(state.tracks, now), Process(state, dets, tokens, now, n);
            && InFrame(live, w, now) && |w.out| == n
            && (forall k :: 0 <= k < n ==> Matched(live, IdsOf(w.out[..k]), dets[k], w.out[k], now))
            && (forall i, k :: 0 <= i < k < n ==> w.out[i].trackId != w.out[k].trackId)
  {
    hide Matched, InFrame, Assign, Expire, Valid, IsSuffix;
    if n == 0 {
      FrameStart(state, dets, tokens, now);
    } else {
      Matching(state, dets, tokens, now, n - 1);
      var live, w := Expire(state.tracks, now), Process(state, dets, tokens, now, n - 1);
      var w' := Process(state, dets, tokens, now, n);
      AssignStep(live, w, dets[n - 1], tokens[n - 1], now);
      assert w'.out[..n - 1] == w.out;
      forall k | 0 <= k < n ensures Matched(live, IdsOf(w'.out[..k]), dets[k], w'.out[k], now) {
        if k < n - 1 {
          assert w'.out[..k] == w.out[..k] && w'.out[k] == w.out[k];
        } else {
          ClaimedIds(live, w, now);
        }
      }
      forall i, k | 0 <= i < k < n ensures w'.out[i].trackId != w'.out[k].trackId {
        assert w'.out[i] == w.out[i];
        if k < n - 1 { assert w'.out[k] == w.out[k]; }
        else { Unclaimed(live, w, dets[k], w'.out[k], now, i); }
      }
    }
  }

  lemma ClaimedIds(live: seq<Track>, w: Work, now: int)
    requires InFrame(live, w, now)
    ensures w.claimed == IdsOf(w.out)
  {
  }

  lemma Unclaimed(live: seq<Track>, w: Work, det: Observation, r: Tracked, now: int, i: nat)
    requires InFrame(live, w, now) && Matched(live, w.claimed, det, r, now) && i < |w.out|
    ensures w.out[i].trackId != r.trackId
  {
    assert w.out[i].trackId in IdsOf(w.out);
  }

  lemma {:induction false} FrameStart(state: CameraState, dets: seq<Observation>, tokens: seq<string>, now: int)
    requires Valid(state) && |dets| == |tokens|
    ensures InFrame(Expire(state.tracks, now), Process(state, dets, tokens, now, 0), now)
    ensures Process(state, dets, tokens, now, 0).out == []
  {
    ExpireKeeps(state, now);
    assert IdsOf([]) == {};
  }

  /** The live tracks a detection may continue: seen in the last 10 s, of its label, not taken in this frame. */
  ghost predicate MayContinue(state: CameraState, det: Observation, taken: set<string>, now: int, t: Track) {
    t in state.tracks && now - t.lastSeen <= 10_000 && t.tag == det.tag && t.id !in taken
  }

  /** A detection starts a new track exactly when no such track is near; otherwise it continues a near one, with the
      time since that one was first seen as its dwell. */
  lemma {:induction false} NewExactlyIf(state: CameraState, dets: seq<Observation>, tokens: seq<string>, now: int,
                                        k: nat)
    requires Valid(state) && k < |dets| == |tokens| && forall t :: t in tokens ==> IsSuffix(t)
    ensures var out := Process(state, dets, tokens, now, |dets|).out;
            && |out| == |dets|
            && var det, taken := dets[k], IdsOf(out[..k]);
               && (out[k].isNew <==>
                     forall t :: MayContinue(state, det, taken, now, t) ==> !Near(t.bbox, det.bbox))
               && (!out[k].isNew ==>
                     exists t :: MayContinue(state, det, taken, now, t) && Near(t.bbox, det.bbox)
                                 && out[k].trackId == t.id && out[k].dwellMs == now - t.firstSeen)
  {
    Matching(state, dets, tokens, now, |dets|);
    ExpireKeeps(state, now);
    var live, out := Expire(state.tracks, now), Process(state, dets, tokens, now, |dets|).out;
    var det, taken := dets[k], IdsOf(out[..k]);
    assert Matched(live, taken, det, out[k], now);
    hide Process, Expire, Near, Iou, Valid, InFrame, IdsOf, Issued, IsSuffix;
    forall t ensures MayContinue(state, det, taken, now, t) <==> t in live && Candidate(t, det, taken) { }
    forall t: Track ensures Iou(t.bbox, det.bbox) >= THRESHOLD <==> Near(t.bbox, det.bbox) {
      NearMeans(t.bbox, det.bbox);
    }
  }

  // ---------------------------------------------------------------- runs of updates

  datatype Call = Call(org: string, camera: string, dets: seq<Observation>, tokens: seq<string>, now: int)

  ghost predicate LegalCall(c: Call) {
    |c.tokens| == |c.dets| && (forall t :: t in c.tokens ==> IsSuffix(t)) && ':' !in c.org
  }

  ghost predicate Legal(run: seq<Call>) {
    forall i :: 0 <= i < |run| ==> LegalCall(run[i])
  }

  /** The state of one camera after a run. */
  ghost function StateOf(run: seq<Call>, key: string): CameraState
    requires Legal(run)
  {
    if run == [] then NO_TRACKS
    else
      var n := |run| - 1;
      var before := StateOf(run[..n], key);
      if Keys.Join(run[n].org, run[n].camera) == key then FrameOf(before, run[n]).state else before
  }

  ghost function FrameOf(state: CameraState, c: Call): Work
    requires LegalCall(c)
  {
    Process(state, c.dets, c.tokens, c.now, |c.dets|)
  }

  /** What the last call of a run returns. */
  ghost function LastResult(run: seq<Call>): seq<Tracked>
    requires Legal(run) && run != []
  {
    var n := |run| - 1;
    FrameOf(StateOf(run[..n], Keys.Join(run[n].org, run[n].camera)), run[n]).out
  }

  lemma {:induction false} StateValid(run: seq<Call>, key: string)
    requires Legal(run)
    ensures Valid(StateOf(run, key))
  {
    if run != [] {
      var n := |run| - 1;
      StateValid(run[..n], key);
      if Keys.Join(run[n].org, run[n].camera) == key {
        var c := run[n];
        Matching(StateOf(run[..n], key), c.dets, c.tokens, c.now, |c.dets|);
      }
    }
  }

  /** One detection of one call: (call, position in it). */
  type Seen = (nat, nat)

  ghost predicate SeenIn(run: seq<Call>, key: string, tag: string, o: Seen) {
    && o.0 < |run| && o.1 < |run[o.0].dets|
    && Keys.Join(run[o.0].org, run[o.0].camera) == key && run[o.0].dets[o.1].tag == tag
  }

  /** Two consecutive sightings of one track: at most 10 s apart and overlapping by at least 0.3. */
  ghost predicate Linked(run: seq<Call>, o: Seen, p: Seen)
    requires o.0 < |run| && p.0 < |run| && o.1 < |run[o.0].dets| && p.1 < |run[p.0].dets|
  {
    && o.0 < p.0
    && run[p.0].now - run[o.0].now <= TRACK_TTL_MS
    && Iou(run[o.0].dets[o.1].bbox, run[p.0].dets[p.1].bbox) >= THRESHOLD
  }

  ghost predicate IsChain(run: seq<Call>, key: string, tag: string, chain: seq<Seen>) {
    && |chain| > 0
    && (forall m :: 0 <= m < |chain| ==> SeenIn(run, key, tag, chain[m]))
    && (forall m :: 0 < m < |chain| ==> Linked(run, chain[m - 1], chain[m]))
  }

  /** The chain is the history of the track. */
  ghost predicate Witnesses(run: seq<Call>, key: string, chain: seq<Seen>, t: Track) {
    && IsChain(run, key, t.tag, chain)
    && run[chain[0].0].now == t.firstSeen
    && run[Last(chain).0].now == t.lastSeen && run[Last(chain).0].dets[Last(chain).1].bbox == t.bbox
  }

  function Last(chain: seq<Seen>): Seen {
    if chain == [] then (0, 0) else chain[|chain| - 1]
  }

  /** One chain per track, and no two tracks were last seen in the same detection. */
  ghost predicate Histories(run: seq<Call>, key: string, chains: seq<seq<Seen>>, tracks: seq<Track>) {
    && |chains| == |tracks|
    && (forall i :: 0 <= i < |tracks| ==> Witnesses(run, key, chains[i], tracks[i]))
    && (forall i, j :: 0 <= i < j < |tracks| ==> Last(chains[i]) != Last(chains[j]))
  }

  /** Chains stay chains when the run goes on. */
  lemma {:induction false} WitnessesExtend(run: seq<Call>, c: Call, key: string, chain: seq<Seen>, t: Track)
    requires Witnesses(run, key, chain, t)
    ensures Witnesses(run + [c], key, chain, t)
  {
    var r := run + [c];
    hide Iou;
    assert forall i :: 0 <= i < |run| ==> r[i] == run[i];
    forall m | 0 < m < |chain| ensures Linked(r, chain[m - 1], chain[m]) {
      assert SeenIn(run, key, t.tag, chain[m - 1]) && SeenIn(run, key, t.tag, chain[m]);
      assert Linked(run, chain[m - 1], chain[m]);
    }
    forall m | 0 <= m < |chain| ensures SeenIn(r, key, t.tag, chain[m]) {
      assert SeenIn(run, key, t.tag, chain[m]);
    }
  }

  /** The tracks that survive expiry keep their chains. */
  lemma {:induction false} ExpireHistories(run: seq<Call>, key: string, chains: seq<seq<Seen>>, tracks: seq<Track>,
                                              now: int)
    returns (kept: seq<seq<Seen>>)
    requires Histories(run, key, chains, tracks)
    ensures Histories(run, key, kept, Expire(tracks, now))
    ensures forall c :: c in kept ==> c in chains
  {
    hide Witnesses;
    if tracks == [] {
      kept := [];
    } else {
      var n := |tracks| - 1;
      kept := ExpireHistories(run, key, chains[..n], tracks[..n], now);
      if Fresh(tracks[n], now) {
        forall i | 0 <= i < |kept| ensures Last(kept[i]) != Last(chains[n]) {
          assert kept[i] in chains[..n];
        }
        kept := kept + [chains[n]];
      }
    }
  }

  // While the last call of a run is being processed: claimed tracks were last seen in it, at an earlier
  // detection; the others were last seen in an earlier call, and not too long ago.

  ghost predicate Midway(run: seq<Call>, key: string, chains: seq<seq<Seen>>, w: Work, n: nat)
    requires run != []
  {
    var last := |run| - 1;
    && Histories(run, key, chains, w.state.tracks)
    && (forall i :: 0 <= i < |chains| ==>
          if w.state.tracks[i].id in w.claimed then Last(chains[i]).0 == last && Last(chains[i]).1 < n
          else Last(chains[i]).0 < last && Fresh(w.state.tracks[i], run[last].now))
  }

  /** One detection matched or opened: its chain grows by this sighting, or starts with it. */
  lemma {:induction false} MidwayStep(run: seq<Call>, key: string, chains: seq<seq<Seen>>, live: seq<Track>,
                                         w: Work, n: nat)
    returns (chains': seq<seq<Seen>>, at: nat)
    requires Legal(run) && run != [] && Midway(run, key, chains, w, n)
    requires var c := run[|run| - 1]; Keys.Join(c.org, c.camera) == key && n < |c.dets| && InFrame(live, w, c.now)
    ensures var c := run[|run| - 1];
            var w' := Assign(w, c.dets[n], c.tokens[n], c.now);
            && Midway(run, key, chains', w', n + 1)
            && Sighted(run, chains', w', n, at)
  {
    var c, o := run[|run| - 1], (|run| - 1, n);
    var tracks := w.state.tracks;
    BestIsBest(tracks, c.dets[n], w.claimed, |tracks|);
    assert tracks[..|tracks|] == tracks;
    var best := Best(tracks, c.dets[n], w.claimed, |tracks|).0;
    assert best.Some? ==> IsBest(tracks, c.dets[n], w.claimed, best.value);
    assert Valid(w.state);
    hide Best, Iou, InFrame, Midway, Valid;
    if best.Some? {
      at := best.value;
      chains' := MidwayMatched(run, key, chains, w, n, at);
    } else {
      at := |tracks|;
      chains' := MidwayNew(run, key, chains, live, w, n);
    }
  }

  lemma {:induction false} ChainGrows(run: seq<Call>, key: string, tag: string, chain: seq<Seen>, o: Seen, t: Track)
    requires Witnesses(run, key, chain, t) && t.tag == tag && SeenIn(run, key, tag, o)
    requires Last(chain).0 < o.0 && run[o.0].now - t.lastSeen <= TRACK_TTL_MS
    requires Iou(t.bbox, run[o.0].dets[o.1].bbox) >= THRESHOLD
    ensures Witnesses(run, key, chain + [o], t.(bbox := run[o.0].dets[o.1].bbox, lastSeen := run[o.0].now))
  {
    hide Iou;
    var g := chain + [o];
    forall m | 0 < m < |g| ensures Linked(run, g[m - 1], g[m]) {
      if m < |chain| { assert Linked(run, chain[m - 1], chain[m]); } else { assert g[m - 1] == Last(chain); }
    }
  }

  /** Sighting n of the last call, added at position `at`, carries the dwell time that is reported. */
  ghost predicate Sighted(run: seq<Call>, chains: seq<seq<Seen>>, w': Work, n: nat, at: nat)
    requires run != []
  {
    && at < |chains| == |w'.state.tracks| && Last(chains[at]) == (|run| - 1, n) && w'.out != []
    && w'.out[|w'.out| - 1].dwellMs == run[|run| - 1].now - w'.state.tracks[at].firstSeen
  }

  lemma MidwayMatched(run: seq<Call>, key: string, chains: seq<seq<Seen>>, w: Work, n: nat, b: nat)
    returns (chains': seq<seq<Seen>>)
    requires Legal(run) && run != [] && Midway(run, key, chains, w, n) && Valid(w.state)
    requires var c := run[|run| - 1]; Keys.Join(c.org, c.camera) == key && n < |c.dets|
    requires Best(w.state.tracks, run[|run| - 1].dets[n], w.claimed, |w.state.tracks|).0 == Some(b)
    requires IsBest(w.state.tracks, run[|run| - 1].dets[n], w.claimed, b)
    ensures var c := run[|run| - 1];
            var w' := Assign(w, c.dets[n], c.tokens[n], c.now);
            Midway(run, key, chains', w', n + 1) && Sighted(run, chains', w', n, b)
  {
    hide Best, Iou, Issued;
    var c, o := run[|run| - 1], (|run| - 1, n);
    assert SeenIn(run, key, c.dets[n].tag, o);
    ChainGrows(run, key, c.dets[n].tag, chains[b], o, w.state.tracks[b]);
    chains' := chains[b := chains[b] + [o]];
    hide Witnesses;
  }

  lemma MidwayNew(run: seq<Call>, key: string, chains: seq<seq<Seen>>, live: seq<Track>, w: Work, n: nat)
    returns (chains': seq<seq<Seen>>)
    requires Legal(run) && run != [] && Midway(run, key, chains, w, n)
    requires var c := run[|run| - 1]; Keys.Join(c.org, c.camera) == key && n < |c.dets| && InFrame(live, w, c.now)
    requires Best(w.state.tracks, run[|run| - 1].dets[n], w.claimed, |w.state.tracks|).0.None?
    ensures var c := run[|run| - 1];
            var w' := Assign(w, c.dets[n], c.tokens[n], c.now);
            Midway(run, key, chains', w', n + 1) && Sighted(run, chains', w', n, |w.state.tracks|)
  {
    hide Best, Iou, Matched;
    var c := run[|run| - 1];
    var id := TrackId(c.dets[n].tag, w.state.counter + 1, c.tokens[n]);
    IdIsNew(live, w, c, n);
    hide TrackId, InFrame;
    chains' := chains + [[(|run| - 1, n)]];
    assert Witnesses(run, key, [(|run| - 1, n)], Track(id, c.dets[n].tag, c.dets[n].bbox, c.now, c.now));
    hide Witnesses;
  }

  lemma IdIsNew(live: seq<Track>, w: Work, c: Call, n: nat)
    requires LegalCall(c) && InFrame(live, w, c.now) && n < |c.dets|
    ensures forall i :: 0 <= i < |w.state.tracks| ==>
      w.state.tracks[i].id != TrackId(c.dets[n].tag, w.state.counter + 1, c.tokens[n])
    ensures TrackId(c.dets[n].tag, w.state.counter + 1, c.tokens[n]) !in w.claimed
  {
    hide TrackId, Issued;
    assert c.tokens[n] in c.tokens;
    forall i | 0 <= i < |w.state.tracks|
      ensures w.state.tracks[i].id != TrackId(c.dets[n].tag, w.state.counter + 1, c.tokens[n])
    {
      NextIdIsNew(c.dets[n].tag, w.state.counter, c.tokens[n], w.state.tracks[i].id);
    }
  }

  /** Before the first detection of the last call is looked at. */
  lemma {:induction false} MidwayStart(run: seq<Call>, key: string, earlier: seq<seq<Seen>>)
    returns (chains: seq<seq<Seen>>)
    requires Legal(run) && run != []
    requires var n := |run| - 1; Histories(run[..n], key, earlier, StateOf(run[..n], key).tracks)
    ensures var c, n := run[|run| - 1], |run| - 1;
            Midway(run, key, chains, Process(StateOf(run[..n], key), c.dets, c.tokens, c.now, 0), 0)
  {
    var n := |run| - 1;
    var c := run[n];
    var state := StateOf(run[..n], key);
    StateValid(run[..n], key);
    chains := ExpireHistories(run[..n], key, earlier, state.tracks, c.now);
    ExpireKeeps(state, c.now);
    var tracks := Expire(state.tracks, c.now);
    assert run == run[..n] + [c];
    forall i | 0 <= i < |tracks|
      ensures Witnesses(run, key, chains[i], tracks[i]) && Last(chains[i]).0 < n && Fresh(tracks[i], c.now)
    {
      assert Witnesses(run[..n], key, chains[i], tracks[i]);
      WitnessesExtend(run[..n], c, key, chains[i], tracks[i]);
      assert SeenIn(run[..n], key, tracks[i].tag, Last(chains[i]));
      assert tracks[i] in tracks;
    }
  }

  /** The k-th result of the last call is backed by a chain of sightings that began `dwellMs` ago. */
  ghost predicate DwellWitnessed(run: seq<Call>, key: string, k: nat, r: Tracked, chain: seq<Seen>)
    requires run != []
  {
    && IsChain(run, key, r.tag, chain) && Last(chain) == (|run| - 1, k)
    && run[chain[0].0].now == run[|run| - 1].now - r.dwellMs
  }

  ghost predicate HasHistory(run: seq<Call>, key: string, k: nat, r: Tracked)
    requires run != []
  {
    exists chain :: DwellWitnessed(run, key, k, r, chain)
  }

  lemma {:induction false} FrameHistories(run: seq<Call>, key: string, earlier: seq<seq<Seen>>, k: nat)
    returns (chains: seq<seq<Seen>>)
    requires Legal(run) && run != []
    requires var c, n := run[|run| - 1], |run| - 1;
             && Keys.Join(c.org, c.camera) == key && k <= |c.dets|
             && Histories(run[..n], key, earlier, StateOf(run[..n], key).tracks)
    ensures var c, n := run[|run| - 1], |run| - 1;
            var w := Process(StateOf(run[..n], key), c.dets, c.tokens, c.now, k);
            && Midway(run, key, chains, w, k) && |w.out| == k
            && (k > 0 ==> HasHistory(run, key, k - 1, w.out[k - 1]))
  {
    hide Midway, InFrame, Assign, Histories, Best, Expire, Matched;
    var c, n := run[|run| - 1], |run| - 1;
    var state := StateOf(run[..n], key);
    StateValid(run[..n], key);
    assert LegalCall(c);
    if k == 0 {
      chains := MidwayStart(run, key, earlier);
    } else {
      var before := FrameHistories(run, key, earlier, k - 1);
      var w := Process(state, c.dets, c.tokens, c.now, k - 1);
      Matching(state, c.dets, c.tokens, c.now, k - 1);
      Matching(state, c.dets, c.tokens, c.now, k);
      var at;
      chains, at := MidwayStep(run, key, before, Expire(state.tracks, c.now), w, k - 1);
      DwellStep(run, key, chains, at, w, k - 1);
    }
  }

  lemma DwellStep(run: seq<Call>, key: string, chains: seq<seq<Seen>>, at: nat, w: Work, n: nat)
    requires Legal(run) && run != [] && n < |run[|run| - 1].dets|
    requires var c := run[|run| - 1];
             var w' := Assign(w, c.dets[n], c.tokens[n], c.now);
             && Midway(run, key, chains, w', n + 1)
             && Sighted(run, chains, w', n, at)
    ensures var c := run[|run| - 1];
            HasHistory(run, key, n, Assign(w, c.dets[n], c.tokens[n], c.now).out[|w.out|])
  {
    hide Best, Iou, TrackId;
    var c := run[|run| - 1];
    var w' := Assign(w, c.dets[n], c.tokens[n], c.now);
    assert Witnesses(run, key, chains[at], w'.state.tracks[at]);
    assert SeenIn(run, key, w'.state.tracks[at].tag, chains[at][|chains[at]| - 1]);
    assert DwellWitnessed(run, key, n, w'.out[|w.out|], chains[at]);
  }

  /** Every reachable track has its history in the run. */
  lemma {:induction false} RunHistories(run: seq<Call>, key: string) returns (chains: seq<seq<Seen>>)
    requires Legal(run)
    ensures Histories(run, key, chains, StateOf(run, key).tracks)
  {
    if run == [] {
      chains := [];
    } else {
      var c, n := run[|run| - 1], |run| - 1;
      chains := RunHistories(run[..n], key);
      if Keys.Join(c.org, c.camera) == key {
        assert LegalCall(c);
        chains := FrameHistories(run, key, chains, |c.dets|);
      } else {
        HistoriesExtend(run[..n], c, key, chains, StateOf(run[..n], key).tracks);
        assert run == run[..n] + [c];
      }
    }
  }

  lemma HistoriesExtend(run: seq<Call>, c: Call, key: string, chains: seq<seq<Seen>>, tracks: seq<Track>)
    requires Histories(run, key, chains, tracks)
    ensures Histories(run + [c], key, chains, tracks)
  {
    forall i | 0 <= i < |tracks| ensures Witnesses(run + [c], key, chains[i], tracks[i]) {
      WitnessesExtend(run, c, key, chains[i], tracks[i]);
    }
  }

  ghost predicate SameCamera(run: seq<Call>, chain: seq<Seen>, org: string, camera: string) {
    forall m :: 0 <= m < |chain| ==>
      chain[m].0 < |run| && run[chain[m].0].org == org && run[chain[m].0].camera == camera
  }

  /** Dwell is witnessed: behind every reported dwell time d stands a chain of detections of the same organization,
      camera and label that ends with the reported one and began exactly d ms ago, each at most 10 s after the one
      before and overlapping it by at least 0.3. */
  lemma {:induction false} DwellIsWitnessed(run: seq<Call>, k: nat)
    requires Legal(run) && run != [] && k < |run[|run| - 1].dets|
    ensures var c := run[|run| - 1];
            && k < |LastResult(run)|
            && exists chain :: DwellWitnessed(run, Keys.Join(c.org, c.camera), k, LastResult(run)[k], chain)
                 && SameCamera(run, chain, c.org, c.camera)
  {
    hide Midway, InFrame, Histories, Matched, Assign, Iou;
    var c, n := run[|run| - 1], |run| - 1;
    var key := Keys.Join(c.org, c.camera);
    assert LegalCall(c);
    var earlier := RunHistories(run[..n], key);
    var chains := FrameHistories(run, key, earlier, k + 1);
    var state := StateOf(run[..n], key);
    StateValid(run[..n], key);
    OutPrefix(state, c, k + 1, |c.dets|);
    var r := Process(state, c.dets, c.tokens, c.now, k + 1).out[k];
    var chain: seq<Seen> :| DwellWitnessed(run, key, k, r, chain);
    forall m | 0 <= m < |chain|
      ensures chain[m].0 < |run| && run[chain[m].0].org == c.org && run[chain[m].0].camera == c.camera
    {
      assert SeenIn(run, key, r.tag, chain[m]);
      assert LegalCall(run[chain[m].0]);
      Keys.JoinInjective(run[chain[m].0].org, run[chain[m].0].camera, c.org, c.camera);
    }
  }

  lemma {:induction false} OutPrefix(state: CameraState, c: Call, m: nat, n: nat)
    requires LegalCall(c) && m <= n <= |c.dets|
    ensures Process(state, c.dets, c.tokens, c.now, m).out <= Process(state, c.dets, c.tokens, c.now, n).out
  {
    hide Best, TrackId;
    if m < n { OutPrefix(state, c, m, n - 1); }
  }

  /** The detections of one camera received in the last 10 s before `now`. */
  ghost function Recent(run: seq<Call>, key: string, now: int): set<Seen> {
    set i: nat, d: nat | i < |run| && d < |run[i].dets|
      && Keys.Join(run[i].org, run[i].camera) == key && now - run[i].now <= TRACK_TTL_MS :: (i, d)
  }

  /** After an update a camera has no more tracks than detections were received in the last 10 s. */
  lemma {:induction false} LiveTracksBounded(run: seq<Call>)
    requires Legal(run) && run != []
    ensures var c := run[|run| - 1];
            var key := Keys.Join(c.org, c.camera);
            |StateOf(run, key).tracks| <= |Recent(run, key, c.now)|
  {
    var c, n := run[|run| - 1], |run| - 1;
    var key := Keys.Join(c.org, c.camera);
    assert LegalCall(c);
    var earlier := RunHistories(run[..n], key);
    var chains := FrameHistories(run, key, earlier, |c.dets|);
    StateValid(run[..n], key);
    Matching(StateOf(run[..n], key), c.dets, c.tokens, c.now, |c.dets|);
    hide Process, Histories, Midway, InFrame, Witnesses;
    LastSightings(run, key, chains, Expire(StateOf(run[..n], key).tracks, c.now), FrameOf(StateOf(run[..n], key), c));
    DistinctFit(chains, Recent(run, key, c.now));
  }

  lemma LastSightings(run: seq<Call>, key: string, chains: seq<seq<Seen>>, live: seq<Track>, w: Work)
    requires run != [] && Midway(run, key, chains, w, |run[|run| - 1].dets|) && InFrame(live, w, run[|run| - 1].now)
    ensures |chains| == |w.state.tracks|
    ensures forall i :: 0 <= i < |chains| ==> Last(chains[i]) in Recent(run, key, run[|run| - 1].now)
    ensures forall i, j :: 0 <= i < j < |chains| ==> Last(chains[i]) != Last(chains[j])
  {
    hide Iou, Valid, IdsOf;
    forall i | 0 <= i < |chains| ensures Last(chains[i]) in Recent(run, key, run[|run| - 1].now) {
      assert Witnesses(run, key, chains[i], w.state.tracks[i]);
      assert SeenIn(run, key, w.state.tracks[i].tag, chains[i][|chains[i]| - 1]);
    }
  }

  lemma {:induction false} DistinctFit(chains: seq<seq<Seen>>, s: set<Seen>)
    requires forall i :: 0 <= i < |chains| ==> Last(chains[i]) in s
    requires forall i, j :: 0 <= i < j < |chains| ==> Last(chains[i]) != Last(chains[j])
    ensures |chains| <= |s|
  {
    if chains != [] {
      var n := |chains| - 1;
      DistinctFit(chains[..n], s - {Last(chains[n])});
    }
  }
}
