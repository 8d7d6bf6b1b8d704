/**
  Rendering remote cars between buffered snapshots. Fractions are exact; rounding is half away from zero.
  */
module Interpolation {
  import opened Messages
  import opened Clients

  /** `lround`. */
  function Round(r: real): int {
    if r >= 0.0 then (r + 0.5).Floor else -((-r + 0.5).Floor)
  }

  /** The delay in microseconds: 50 ms plus twice the jitter, at most 100 ms. */
  function Delay(jitter: real): int {
    var ms := 50.0 + 2.0 * jitter;
    ((if ms < 50.0 then 50.0 else if ms > 100.0 then 100.0 else ms) * 1000.0).Floor
  }

  lemma DelayBounds(jitter: real)
    ensures 50_000 <= Delay(jitter) <= 100_000
    ensures 0.0 <= jitter <= 25.0 ==> Delay(jitter) == 50_000 + (2000.0 * jitter).Floor
    ensures jitter < 0.0 ==> Delay(jitter) == 50_000
    ensures jitter > 25.0 ==> Delay(jitter) == 100_000
  {
  }

  /** The whole number nearest to a value; of two that are equally near, the one farther from zero. */
  predicate Nearest(n: int, v: real) {
    && -0.5 <= n as real - v <= 0.5
    && (n as real - v == 0.5 ==> v > 0.0)
    && (n as real - v == -0.5 ==> v < 0.0)
  }

  lemma RoundIsNearest(v: real)
    ensures Nearest(Round(v), v)
  {
  }

  /** There is only one, and it follows the value up and down. */
  lemma NearestFollows(n: int, v: real, m: int, w: real)
    requires Nearest(n, v) && Nearest(m, w) && v <= w
    ensures n <= m
  {
  }

  // Blending.

  function Scaled(d: int, f: real): real {
    d as real * f
  }

  /** A whole number moved by a fraction of a whole distance, and rounded. */
  function Along(a: int, d: int, f: real): int {
    Round(a as real + Scaled(d, f))
  }

  lemma ScaledBounds(d: int, f: real)
    requires 0.0 <= f <= 1.0
    ensures d >= 0 ==> 0.0 <= Scaled(d, f) <= d as real
    ensures d <= 0 ==> d as real <= Scaled(d, f) <= 0.0
    ensures f == 1.0 ==> Scaled(d, f) == d as real
    ensures f == 0.0 ==> Scaled(d, f) == 0.0
  {
    ProductWithin(d as real, f);
  }

  lemma ProductWithin(x: real, f: real)
    requires 0.0 <= f <= 1.0
    ensures x >= 0.0 ==> 0.0 <= x * f <= x
    ensures x <= 0.0 ==> x <= x * f <= 0.0
    ensures f == 1.0 ==> x * f == x
    ensures f == 0.0 ==> x * f == 0.0
  {
    var rest := 1.0 - f;
    assert x * f + x * rest == x;
    if x >= 0.0 {
      SameSign(x, f);
      SameSign(x, rest);
    } else {
      OppositeSign(x, f);
      OppositeSign(x, rest);
    }
  }

  lemma SameSign(x: real, f: real)
    requires x >= 0.0 && f >= 0.0
    ensures x * f >= 0.0
  {
  }

  lemma OppositeSign(x: real, f: real)
    requires x <= 0.0 && f >= 0.0
    ensures x * f <= 0.0
  {
  }

  lemma AlongBetween(a: int, d: int, f: real)
    requires 0.0 <= f <= 1.0
    ensures d >= 0 ==> a <= Along(a, d, f) <= a + d
    ensures d <= 0 ==> a + d <= Along(a, d, f) <= a
    ensures f == 1.0 ==> Along(a, d, f) == a + d
    ensures f == 0.0 ==> Along(a, d, f) == a
  {
    hide Round, Scaled;
    ScaledBounds(d, f);
    BetweenRounds(a, d, Scaled(d, f));
  }

  lemma BetweenRounds(a: int, d: int, step: real)
    requires d >= 0 ==> 0.0 <= step <= d as real
    requires d <= 0 ==> d as real <= step <= 0.0
    ensures d >= 0 ==> a <= Round(a as real + step) <= a + d
    ensures d <= 0 ==> a + d <= Round(a as real + step) <= a
    ensures step == d as real ==> Round(a as real + step) == a + d
    ensures step == 0.0 ==> Round(a as real + step) == a
  {
  }

  function Blend(a: nat, b: nat, f: real): int {
    Along(a, b - a, f)
  }

  /** A blended coordinate lies between the two samples and reaches the later one exactly. */
  lemma BlendBetween(a: nat, b: nat, f: real)
    requires 0.0 <= f <= 1.0
    ensures if a <= b then a <= Blend(a, b, f) <= b else b <= Blend(a, b, f) <= a
    ensures f == 1.0 ==> Blend(a, b, f) == b
    ensures f == 0.0 ==> Blend(a, b, f) == a
  {
    hide Along;
    AlongBetween(a, b - a, f);
  }

  /** The point at a fraction of a distance from a start. */
  function Point(a: int, d: int, f: real): real {
    a as real + d as real * f
  }

  lemma AlongNearest(a: int, d: int, f: real)
    ensures Nearest(Along(a, d, f), Point(a, d, f))
  {
    hide Round, Nearest;
    RoundIsNearest(Point(a, d, f));
  }

  /** Between the samples, a blended coordinate is the whole number nearest to the point on the line. */
  lemma BlendOnLine(a: nat, b: nat, f: real)
    ensures Nearest(Blend(a, b, f), Point(a, b - a, f))
  {
    hide Along, Nearest, Point;
    AlongNearest(a, b - a, f);
  }

  lemma PointSteady(a: int, d: int, f: real, g: real)
    requires f <= g
    ensures if d >= 0 then Point(a, d, f) <= Point(a, d, g) else Point(a, d, g) <= Point(a, d, f)
  {
    ScaleSteady(d as real, f, g);
  }

  lemma ScaleSteady(x: real, f: real, g: real)
    requires f <= g
    ensures if x >= 0.0 then x * f <= x * g else x * g <= x * f
  {
    var rest := g - f;
    assert x * f + x * rest == x * g;
    if x >= 0.0 {
      SameSign(x, rest);
    } else {
      OppositeSign(x, rest);
    }
  }

  /** It moves steadily from the one sample to the other. */
  lemma BlendSteady(a: nat, b: nat, f: real, g: real)
    requires f <= g
    ensures if a <= b then Blend(a, b, f) <= Blend(a, b, g) else Blend(a, b, g) <= Blend(a, b, f)
  {
    hide Blend, Nearest, Point;
    BlendOnLine(a, b, f);
    BlendOnLine(a, b, g);
    PointSteady(a, b - a, f, g);
    if a <= b {
      NearestFollows(Blend(a, b, f), Point(a, b - a, f), Blend(a, b, g), Point(a, b - a, g));
    } else {
      NearestFollows(Blend(a, b, g), Point(a, b - a, g), Blend(a, b, f), Point(a, b - a, f));
    }
  }

  /** The signed turn from one orientation to another along the shorter arc. */
  function Turn(a: nat, b: nat): int {
    var t := b - a;
    if t > 127 then t - 256 else if t < -128 then t + 256 else t
  }

  function Rotate(a: nat, b: nat, f: real): nat {
    Along(a, Turn(a, b), f) % 256
  }

  /** The turn is the only representative of the difference in -128..127, so no arc is shorter. */
  lemma TurnIsShortest(a: nat, b: nat, t: int)
    requires a < 256 && b < 256
    ensures -128 <= Turn(a, b) <= 127 && (a + Turn(a, b)) % 256 == b
    ensures (a + t) % 256 == b && -128 <= t <= 127 ==> t == Turn(a, b)
  {
  }

  /** A number of steps taken from an orientation, on the arc given by a signed turn. */
  predicate OnArc(a: nat, turn: int, steps: int, r: nat) {
    (if turn >= 0 then 0 <= steps <= turn else turn <= steps <= 0) && r == (a + steps) % 256
  }

  /** A blended orientation lies on that arc, at most 128 steps from the earlier sample, and ends at the later one. */
  lemma RotateOnArc(a: nat, b: nat, f: real)
    requires a < 256 && b < 256 && 0.0 <= f <= 1.0
    ensures exists steps :: -128 <= steps <= 127 && OnArc(a, Turn(a, b), steps, Rotate(a, b, f))
    ensures f == 1.0 ==> Rotate(a, b, f) == b
    ensures f == 0.0 ==> Rotate(a, b, f) == a
  {
    hide Along;
    var t := Turn(a, b);
    TurnIsShortest(a, b, 0);
    AlongBetween(a, t, f);
    var steps := Along(a, t, f) - a;
    assert a + steps == Along(a, t, f);
    assert OnArc(a, t, steps, Rotate(a, b, f));
  }

  /** A blended orientation is, modulo 256, the whole number nearest to the point on the arc. */
  lemma RotateOnLine(a: nat, b: nat, f: real)
    ensures exists n :: Nearest(n, Point(a, Turn(a, b), f)) && Rotate(a, b, f) == n % 256
  {
    hide Along, Nearest, Point;
    AlongNearest(a, Turn(a, b), f);
  }

  /** The orientation, too, moves steadily along its arc before it is reduced. */
  lemma TurnSteady(a: nat, b: nat, f: real, g: real, n: int, m: int)
    requires f <= g && Nearest(n, Point(a, Turn(a, b), f)) && Nearest(m, Point(a, Turn(a, b), g))
    ensures if Turn(a, b) >= 0 then n <= m else m <= n
  {
    hide Nearest, Point, Turn;
    PointSteady(a, Turn(a, b), f, g);
    if Turn(a, b) >= 0 {
      NearestFollows(n, Point(a, Turn(a, b), f), m, Point(a, Turn(a, b), g));
    } else {
      NearestFollows(m, Point(a, Turn(a, b), g), n, Point(a, Turn(a, b), f));
    }
  }

  // Rendering.

  predicate WellFormed(s: Sample) {
    |s.peers| == 4 && forall i :: 0 <= i < 4 ==> s.peers[i].orientation < 256
  }

  function Fraction(before: nat, after: nat, time: nat): real
    requires before < after
  {
    (time - before) as real / (after - before) as real
  }

  lemma BothPositive(x: real, y: real)
    requires x > 0.0 && y > 0.0
    ensures x * y > 0.0
  {
  }

  /** Scaling a positive number compares as the factor does with one. */
  lemma ScalingCompares(f: real, y: real)
    requires y > 0.0
    ensures f <= 0.0 ==> f * y <= 0.0
    ensures f > 1.0 ==> f * y > y
    ensures f < 1.0 ==> f * y < y
  {
    assert (f - 1.0) * y == f * y - y && (1.0 - f) * y == y - f * y;
    if f <= 0.0 {
      OppositeSign(f, y);
    }
    if f > 1.0 {
      BothPositive(f - 1.0, y);
    }
    if f < 1.0 {
      BothPositive(1.0 - f, y);
    }
  }

  /** Of two positive numbers, the smaller divided by the larger lies in (0, 1]. */
  lemma Quotient(x: real, y: real)
    requires 0.0 < x <= y
    ensures 0.0 < x / y <= 1.0
    ensures x == y ==> x / y == 1.0
  {
    ScalingCompares(x / y, y);
    assert (x / y) * y == x;
  }

  lemma FractionInRange(before: nat, after: nat, time: nat)
    requires before < time <= after
    ensures 0.0 < Fraction(before, after, time) <= 1.0
    ensures time == after ==> Fraction(before, after, time) == 1.0
  {
    Quotient((time - before) as real, (after - before) as real);
  }

  function BlendPeer(p: Peer, q: Peer, f: real): Peer
    requires 0.0 <= f <= 1.0
  {
    BlendBetween(p.x, q.x, f);
    BlendBetween(p.y, q.y, f);
    p.(x := Blend(p.x, q.x, f), y := Blend(p.y, q.y, f), orientation := Rotate(p.orientation, q.orientation, f))
  }

  function BlendPeers(ps: seq<Peer>, qs: seq<Peer>, f: real): (r: seq<Peer>)
    requires |ps| == |qs| == 4 && 0.0 <= f <= 1.0
    ensures |r| == 4 && forall i :: 0 <= i < 4 ==> r[i] == BlendPeer(ps[i], qs[i], f)
  {
    seq(4, i requires 0 <= i < 4 => BlendPeer(ps[i], qs[i], f))
  }

  /** The pair of neighbours that the scan settles on: the first sample at or after the time, and the one before it. */
  ghost predicate Brackets(buffer: seq<Sample>, time: nat, k: nat) {
    && 0 < k < |buffer|
    && buffer[k - 1].time < time <= buffer[k].time
    && forall j :: 0 <= j < k ==> buffer[j].time < time
  }

  /** The peers drawn strictly between the ends of the buffer. */
  ghost predicate DrawnBetween(buffer: seq<Sample>, time: nat, k: nat, r: seq<Peer>)
    requires forall j :: 0 <= j < |buffer| ==> WellFormed(buffer[j])
  {
    && Brackets(buffer, time, k)
    && WellFormed(buffer[k - 1]) && WellFormed(buffer[k])
    && r == BlendPeers(buffer[k - 1].peers, buffer[k].peers, FractionAt(buffer, time, k))
  }

  /** The fraction of the way from one sample's time to the next at which the render time lies. */
  function Way(before: Sample, after: Sample, time: nat): real
    requires before.time < after.time
  {
    (time - before.time) as real / (after.time - before.time) as real
  }

  /** The car is drawn on the line through its two positions, at the render time, to the nearest whole numbers, and
      on the shorter arc between its two orientations; everything else is as in the earlier sample. */
  ghost predicate OnLine(before: Sample, after: Sample, time: nat, i: nat, drawn: Peer)
    requires before.time < after.time && i < |before.peers| && i < |after.peers|
  {
    var p, q, f := before.peers[i], after.peers[i], Way(before, after, time);
    && Nearest(drawn.x, Point(p.x, q.x - p.x, f))
    && Nearest(drawn.y, Point(p.y, q.y - p.y, f))
    && (exists n :: Nearest(n, Point(p.orientation, Turn(p.orientation, q.orientation), f))
                    && drawn.orientation == n % 256)
    && drawn.status == p.status && drawn.car == p.car && drawn.movement == p.movement && drawn.age == p.age
  }

  lemma BlendedOnLine(before: Sample, after: Sample, time: nat, i: nat)
    requires before.time < time <= after.time && WellFormed(before) && WellFormed(after) && i < 4
    requires 0.0 <= Way(before, after, time) <= 1.0
    ensures OnLine(before, after, time, i, BlendPeer(before.peers[i], after.peers[i], Way(before, after, time)))
  {
    hide Blend, Rotate, Nearest, Way, Point;
    var p, q, f := before.peers[i], after.peers[i], Way(before, after, time);
    BlendOnLine(p.x, q.x, f);
    BlendOnLine(p.y, q.y, f);
    RotateOnLine(p.orientation, q.orientation, f);
    BlendBetween(p.x, q.x, f);
    BlendBetween(p.y, q.y, f);
  }

  /** Every car between the ends of the buffer is drawn on its line. */
  ghost predicate AllOnLine(buffer: seq<Sample>, time: nat, k: nat, r: seq<Peer>)
    requires forall j :: 0 <= j < |buffer| ==> WellFormed(buffer[j])
  {
    && Brackets(buffer, time, k) && |r| == 4 && WellFormed(buffer[k - 1]) && WellFormed(buffer[k])
    && forall i :: 0 <= i < 4 ==> OnLine(buffer[k - 1], buffer[k], time, i, r[i])
  }

  lemma DrawnOnLine(buffer: seq<Sample>, time: nat, k: nat, r: seq<Peer>)
    requires forall j :: 0 <= j < |buffer| ==> WellFormed(buffer[j])
    requires DrawnBetween(buffer, time, k, r)
    ensures AllOnLine(buffer, time, k, r)
  {
    hide BlendPeer, OnLine;
    var before, after := buffer[k - 1], buffer[k];
    var f := FractionAt(buffer, time, k);
    assert f == Way(before, after, time);
    assert WellFormed(before) && WellFormed(after);
    forall i | 0 <= i < 4 ensures OnLine(before, after, time, i, r[i]) {
      BlendedOnLine(before, after, time, i);
      assert r[i] == BlendPeer(before.peers[i], after.peers[i], f);
    }
  }

  method BlendSamples(before: Sample, after: Sample, fraction: real) returns (result: seq<Peer>)
    requires WellFormed(before) && WellFormed(after) && 0.0 <= fraction <= 1.0
    ensures result == BlendPeers(before.peers, after.peers, fraction)
  {
    hide Along, Round;
    result := before.peers;
    for peer := 0 to 4
      invariant |result| == 4
      invariant forall j :: 0 <= j < peer ==> result[j] == BlendPeer(before.peers[j], after.peers[j], fraction)
      invariant forall j :: peer <= j < 4 ==> result[j] == before.peers[j]
    {
      var p, q := before.peers[peer], after.peers[peer];
      BlendBetween(p.x, q.x, fraction);
      BlendBetween(p.y, q.y, fraction);
      var turn := q.orientation - p.orientation;
      if turn > 127 {
        turn := turn - 256;
      } else if turn < -128 {
        turn := turn + 256;
      }
      result := result[peer := p.(x := Along(p.x, q.x - p.x, fraction), y := Along(p.y, q.y - p.y, fraction),
                                  orientation := Along(p.orientation, turn, fraction) % 256)];
    }
  }

  /** `renderedPeers`, for any buffer, sorted or not: outside the buffered times an end is held; strictly between
      them the scan always finds neighbours and blends them. */
  method Rendered(buffer: seq<Sample>, peers: seq<Peer>, serverTime: nat, delay: nat) returns (r: seq<Peer>)
    requires forall k :: 0 <= k < |buffer| ==> WellFormed(buffer[k])
    ensures var time := if serverTime > delay then serverTime - delay else 0;
      if buffer == [] then r == peers
      else if time <= buffer[0].time then r == buffer[0].peers
      else if time >= buffer[|buffer| - 1].time then r == buffer[|buffer| - 1].peers
      else exists k: nat :: DrawnBetween(buffer, time, k, r) && AllOnLine(buffer, time, k, r)
  {
    hide BlendPeers, Fraction;
    if buffer == [] {
      return peers;
    }
    var time := if serverTime > delay then serverTime - delay else 0;
    if time <= buffer[0].time {
      return buffer[0].peers;
    }
    if time >= buffer[|buffer| - 1].time {
      return buffer[|buffer| - 1].peers;
    }
    var i := 1;
    while time > buffer[i].time
      invariant 1 <= i < |buffer|
      invariant forall j :: 0 <= j < i ==> buffer[j].time < time
      decreases |buffer| - i
    {
      i := i + 1;
    }
    assert Brackets(buffer, time, i);
    var fraction := ComputeFraction(buffer[i - 1].time, buffer[i].time, time);
    r := BlendSamples(buffer[i - 1], buffer[i], fraction);
    assert DrawnBetween(buffer, time, i, r);
    DrawnOnLine(buffer, time, i, r);
  }

  method ComputeFraction(before: nat, after: nat, time: nat) returns (f: real)
    requires before < time <= after
    ensures f == Fraction(before, after, time) && 0.0 < f <= 1.0
  {
    FractionInRange(before, after, time);
    f := (time - before) as real / (after - before) as real;
  }

  ghost function FractionAt(buffer: seq<Sample>, time: nat, k: nat): (f: real)
    requires Brackets(buffer, time, k)
    ensures 0.0 < f <= 1.0
  {
    FractionInRange(buffer[k - 1].time, buffer[k].time, time);
    Fraction(buffer[k - 1].time, buffer[k].time, time)
  }

  /** What is drawn between two samples: every car keeps the earlier sample's status and machine, stays inside the
      box spanned by its two positions, and at the later sample's time stands exactly at the later position. */
  lemma BlendedPeersFaithful(ps: seq<Peer>, qs: seq<Peer>, f: real, i: nat)
    requires |ps| == |qs| == 4 && 0.0 < f <= 1.0 && i < 4
    requires ps[i].orientation < 256 && qs[i].orientation < 256
    ensures var p, q, r := ps[i], qs[i], BlendPeers(ps, qs, f)[i];
      && r.status == p.status && r.car == p.car
      && (if p.x <= q.x then p.x <= r.x <= q.x else q.x <= r.x <= p.x)
      && (if p.y <= q.y then p.y <= r.y <= q.y else q.y <= r.y <= p.y)
      && (f == 1.0 ==> r.x == q.x && r.y == q.y && r.orientation == q.orientation)
  {
    BlendBetween(ps[i].x, qs[i].x, f);
    BlendBetween(ps[i].y, qs[i].y, f);
    RotateOnArc(ps[i].orientation, qs[i].orientation, f);
  }
}
