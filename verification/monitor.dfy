/**
 * The per-frame state update of the status monitor (`animate`,
 * statusmon.py lines 382-517): the arrays it keeps between frames and the
 * steps that rewrite them in place. Drawing, text and the shared-memory
 * reads that refresh `data` are not modelled; their outcome reaches the model
 * as the current contents of `data` and as parameters.
 */
module Monitor {
  import opened Quaternions

  /** Bands of the target readings (depth of each camera target, confidence). */
  const ForwardDepthLo: real := -10.0
  const ForwardDepthHi: real := 0.0
  const DownDepthLo: real := -10.0
  const DownDepthHi: real := 10.0
  const ConfidenceLo: real := 0.0
  const ConfidenceHi: real := 255.0

  /** Number of series in the movement history and samples kept per series. */
  const Series: nat := 11
  const Window: nat := 50

  /** `x` forced into the band [lo, hi]. */
  function Clamp(x: real, lo: real, hi: real): (r: real)
    requires lo <= hi
    ensures lo <= r <= hi
    ensures lo <= x <= hi ==> r == x
    ensures x < lo ==> r == lo
    ensures hi < x ==> r == hi
  {
    if x > hi then hi else if x < lo then lo else x
  }

  /** The points of a wireframe, given its rows of x, y and z coordinates. */
  function Columns(xs: seq<real>, ys: seq<real>, zs: seq<real>): (ps: seq<Vec3>)
    requires |xs| == |ys| == |zs|
    ensures |ps| == |xs|
    ensures forall j :: 0 <= j < |xs| ==> ps[j] == Vec3(xs[j], ys[j], zs[j])
  {
    seq(|xs|, j requires 0 <= j < |xs| => Vec3(xs[j], ys[j], zs[j]))
  }

  /** The unit cube drawn as one 16-point polyline. */
  const CubeShape: seq<Vec3> := Columns(
    [-1.0, -1.0, -1.0, 1.0,  1.0, -1.0, -1.0,  1.0,  1.0, -1.0, -1.0, -1.0,  1.0,  1.0,  1.0,  1.0],
    [-1.0, -1.0,  1.0, 1.0,  1.0,  1.0, -1.0, -1.0, -1.0, -1.0,  1.0,  1.0,  1.0, -1.0, -1.0,  1.0],
    [-1.0,  1.0,  1.0, 1.0, -1.0, -1.0, -1.0, -1.0,  1.0,  1.0,  1.0, -1.0, -1.0, -1.0,  1.0,  1.0])

  /** The arrow that marks the front face, an 8-point polyline. */
  const ArrowShape: seq<Vec3> := Columns(
    [0.0, 2.0, 1.75,  1.75, 2.0, 1.75,  1.75, 2.0],
    [0.0, 0.0, 0.25, -0.25, 0.0,  0.0,   0.0, 0.0],
    [0.0, 0.0,  0.0,   0.0, 0.0, 0.25, -0.25, 0.0])

  /** Every point of a shape rotated by q. */
  function RotateAll(q: Quaternion, ps: seq<Vec3>): (rs: seq<Vec3>)
    ensures |rs| == |ps|
    ensures forall j :: 0 <= j < |ps| ==> rs[j] == Rotate(q, ps[j])
  {
    seq(|ps|, j requires 0 <= j < |ps| => Rotate(q, ps[j]))
  }

  /** Rotating a shape by the identity leaves it where it is. */
  lemma RotateAllIdentity(ps: seq<Vec3>)
    ensures RotateAll(Identity, ps) == ps
  {
    RotateIdentityEach(ps);
    var rs := RotateAll(Identity, ps);
    assert forall j :: 0 <= j < |ps| ==> rs[j] == ps[j];
  }

  lemma RotateIdentityAll()
    ensures forall v :: Rotate(Identity, v) == v
  {
    forall v {
      RotateIdentity(v);
    }
  }

  lemma RotateIdentityEach(ps: seq<Vec3>)
    ensures forall j :: 0 <= j < |ps| ==> Rotate(Identity, ps[j]) == ps[j]
  {
    forall j | 0 <= j < |ps|
      ensures Rotate(Identity, ps[j]) == ps[j]
    {
      RotateIdentity(ps[j]);
    }
  }

  /** A unit quaternion moves a shape rigidly: every pairwise distance is kept. */
  lemma RotateAllRigid(q: Quaternion, ps: seq<Vec3>, i: nat, j: nat)
    requires NormSq(q) == 1.0
    requires i < |ps| && j < |ps|
    ensures LengthSq(Sub(RotateAll(q, ps)[i], RotateAll(q, ps)[j])) == LengthSq(Sub(ps[i], ps[j]))
  {
    RotateKeepsDistance(q, ps[i], ps[j]);
  }

  /** The cell of the 3 x 4 thruster heatmap that shows motor m: motors 4-7
      fill the left half of the two upper rows, motors 0-3 the bottom row. */
  function HeatCell(m: nat): (cell: (nat, nat))
    requires m < 8
    ensures cell.0 < 3 && cell.1 < 4
    ensures m < 4 <==> cell.0 == 2
    ensures cell.0 < 2 ==> cell.1 < 2
  {
    if m < 4 then (2, m) else ((m - 4) / 2, (m - 4) % 2)
  }

  /** No two motors share a heatmap cell. */
  lemma HeatCellInjective(m: nat, m': nat)
    requires m < 8 && m' < 8 && m != m'
    ensures HeatCell(m) != HeatCell(m')
  {
  }

  /** Every cell outside the padding shows some motor. */
  lemma HeatCellOnto(r: nat, c: nat)
    requires r < 3 && c < 4 && (r == 2 || c < 2)
    ensures exists m :: m < 8 && HeatCell(m) == (r, c)
  {
    var m := if r == 2 then c else 4 + 2 * r + c;
    assert HeatCell(m) == (r, c);
  }

  /** One step of a series: the oldest sample drops out, x comes in last. */
  function Slide(series: seq<real>, x: real): (r: seq<real>)
    requires |series| > 0
    ensures |r| == |series|
    ensures r[|r| - 1] == x
    ensures forall k :: 0 <= k < |r| - 1 ==> r[k] == series[k + 1]
  {
    series[1..] + [x]
  }

  /** Sliding several samples through a series, oldest first. */
  function SlideAll(series: seq<real>, xs: seq<real>): (r: seq<real>)
    requires |series| > 0
    ensures |r| == |series|
    decreases |xs|
  {
    if xs == [] then series else SlideAll(Slide(series, xs[0]), xs[1..])
  }

  /** After n <= |series| samples the series holds its own last |series| - n
      samples followed by the n new ones, in arrival order. */
  lemma {:induction false} SlideAllWindow(series: seq<real>, xs: seq<real>)
    requires 0 < |series| && |xs| <= |series|
    ensures SlideAll(series, xs) == series[|xs|..] + xs
    decreases |xs|
  {
    if xs != [] {
      var s := Slide(series, xs[0]);
      assert s == series[1..] + [xs[0]];
      SlideAllWindow(s, xs[1..]);
      calc {
        SlideAll(series, xs);
        SlideAll(s, xs[1..]);
        s[|xs| - 1..] + xs[1..];
        { assert s[|xs| - 1..] == series[|xs|..] + [xs[0]]; }
        series[|xs|..] + [xs[0]] + xs[1..];
        { assert [xs[0]] + xs[1..] == xs; }
        series[|xs|..] + xs;
      }
    }
  }

  /** Once a full window of samples has arrived, the series is exactly those
      samples: nothing older survives. */
  lemma FullWindowForgets(series: seq<real>, xs: seq<real>)
    requires 0 < |series| == |xs|
    ensures SlideAll(series, xs) == xs
  {
    SlideAllWindow(series, xs);
    assert series[|xs|..] == [];
  }

  /** The whole history window advanced by one sample per series. */
  function Push(window: seq<seq<real>>, sample: seq<real>): (r: seq<seq<real>>)
    requires |sample| == |window|
    requires forall j :: 0 <= j < |window| ==> |window[j]| > 0
    ensures |r| == |window|
    ensures forall j :: 0 <= j < |window| ==> r[j] == Slide(window[j], sample[j])
  {
    seq(|window|, j requires 0 <= j < |window| => Slide(window[j], sample[j]))
  }

  /** The 11 values written at the newest slot: position, velocity, speed,
      acceleration and its magnitude. */
  function Sample(pos: Vec3, vel: Vec3, speed: real, acc: Vec3, accMagn: real): (s: seq<real>)
    ensures |s| == Series
  {
    [pos.x, pos.y, pos.z, vel.x, vel.y, vel.z, speed, acc.x, acc.y, acc.z, accMagn]
  }

  /** v is the non-negative square root of the squared length of a. */
  predicate IsLength(v: real, a: Vec3) {
    v >= 0.0 && v * v == LengthSq(a)
  }

  class Monitor {
    /** Latest readings, 9 x 4: rows 0 and 1 the forward and downward camera
        targets (x, y, depth, confidence), row 2 the attitude quaternion,
        rows 3 and 4 the eight motor outputs, rows 5-7 position, velocity and
        acceleration, row 8 motor health. */
    const data: array2<real>
    /** The cube and the arrow of the orientation viewer, 3 x 16 and 3 x 8:
        row i holds coordinate i of every point. */
    const cube: array2<real>
    const ca: array2<real>
    /** The movement history, 11 series of 50 samples, oldest first. */
    const dataHist: array2<real>

    ghost predicate Valid()
      reads this
    {
      && data.Length0 == 9 && data.Length1 == 4
      && cube.Length0 == 3 && cube.Length1 == |CubeShape|
      && ca.Length0 == 3 && ca.Length1 == |ArrowShape|
      && dataHist.Length0 == Series && dataHist.Length1 == Window
      && data != cube && data != ca && data != dataHist
      && cube != ca && cube != dataHist && ca != dataHist
    }

    constructor ()
      ensures Valid()
      ensures fresh(data) && fresh(cube) && fresh(ca) && fresh(dataHist)
      ensures Points(cube) == CubeShape && Points(ca) == ArrowShape
      ensures forall i, j :: 0 <= i < 9 && 0 <= j < 4 ==> data[i, j] == 0.0
      ensures forall j, k :: 0 <= j < Series && 0 <= k < Window ==> dataHist[j, k] == 0.0
    {
      data := new real[9, 4]((i, j) => 0.0);
      dataHist := new real[Series, Window]((j, k) => 0.0);
      cube := new real[3, |CubeShape|];
      ca := new real[3, |ArrowShape|];
      new;
      LoadShape(cube, CubeShape);
      LoadShape(ca, ArrowShape);
    }

    /** The points stored in a 3-row coordinate array, column by column. */
    static ghost function Points(m: array2<real>): (ps: seq<Vec3>)
      reads m
      requires m.Length0 == 3
      ensures |ps| == m.Length1
      ensures forall j :: 0 <= j < m.Length1 ==> ps[j] == Vec3(m[0, j], m[1, j], m[2, j])
    {
      seq(m.Length1, j requires 0 <= j < m.Length1 reads m => Vec3(m[0, j], m[1, j], m[2, j]))
    }

    /** Resets a wireframe to its template, one coordinate row at a time. */
    static method LoadShape(m: array2<real>, shape: seq<Vec3>)
      requires m.Length0 == 3 && m.Length1 == |shape|
      modifies m
      ensures Points(m) == shape
    {
      forall j | 0 <= j < |shape| {
        m[0, j] := shape[j].x;
      }
      forall j | 0 <= j < |shape| {
        m[1, j] := shape[j].y;
      }
      forall j | 0 <= j < |shape| {
        m[2, j] := shape[j].z;
      }
    }

    /** Rotates every column of a wireframe by q, in place. */
    static method RotatePoints(m: array2<real>, q: Quaternion)
      requires m.Length0 == 3
      modifies m
      ensures Points(m) == RotateAll(q, old(Points(m)))
    {
      ghost var before := Points(m);
      for j := 0 to m.Length1
        invariant forall i :: 0 <= i < j ==> Vec3(m[0, i], m[1, i], m[2, i]) == Rotate(q, before[i])
        invariant forall i :: j <= i < m.Length1 ==> Vec3(m[0, i], m[1, i], m[2, i]) == before[i]
      {
        var v := Rotate(q, Vec3(m[0, j], m[1, j], m[2, j]));
        m[0, j] := v.x;
        m[1, j] := v.y;
        m[2, j] := v.z;
      }
    }

    /** Forces the camera targets' depth and confidence into their bands,
        testing the bounds in the order the display code does. */
    method ClampTargets()
      requires Valid()
      modifies data
      ensures data[0, 2] == Clamp(old(data[0, 2]), ForwardDepthLo, ForwardDepthHi)
      ensures data[1, 2] == Clamp(old(data[1, 2]), DownDepthLo, DownDepthHi)
      ensures data[0, 3] == Clamp(old(data[0, 3]), ConfidenceLo, ConfidenceHi)
      ensures data[1, 3] == Clamp(old(data[1, 3]), ConfidenceLo, ConfidenceHi)
      ensures forall i, j :: 0 <= i < 9 && 0 <= j < 4 && !(i < 2 && 2 <= j) ==>
                data[i, j] == old(data[i, j])
    {
      if data[0, 2] > ForwardDepthHi {
        data[0, 2] := ForwardDepthHi;
      } else if data[0, 2] < ForwardDepthLo {
        data[0, 2] := ForwardDepthLo;
      }

      if data[1, 2] > DownDepthHi {
        data[1, 2] := DownDepthHi;
      } else if data[1, 2] < DownDepthLo {
        data[1, 2] := DownDepthLo;
      }

      if data[0, 3] < ConfidenceLo {
        data[0, 3] := ConfidenceLo;
      } else if data[0, 3] > ConfidenceHi {
        data[0, 3] := ConfidenceHi;
      }

      if data[1, 3] < ConfidenceLo {
        data[1, 3] := ConfidenceLo;
      } else if data[1, 3] > ConfidenceHi {
        data[1, 3] := ConfidenceHi;
      }
    }

    /** The attitude shown: the reported quaternion while the angular sensor
        link is up; otherwise a fallback that turns no point at all. */
    function Attitude(angularUp: bool): (q: Quaternion)
      reads this, data
      requires Valid()
      ensures !angularUp ==> forall v :: Rotate(q, v) == v
      ensures angularUp ==> q == Quaternion(data[2, 0], data[2, 1], data[2, 2], data[2, 3])
    {
      if angularUp then Quaternion(data[2, 0], data[2, 1], data[2, 2], data[2, 3])
      else RotateIdentityAll(); Identity
    }

    /** Redraws the orientation viewer: both wireframes are reset to their
        templates and then turned by the current attitude. */
    method UpdateOrientation(angularUp: bool)
      requires Valid()
      modifies cube, ca
      ensures Points(cube) == RotateAll(Attitude(angularUp), CubeShape)
      ensures Points(ca) == RotateAll(Attitude(angularUp), ArrowShape)
      ensures !angularUp ==> Points(cube) == CubeShape && Points(ca) == ArrowShape
    {
      var q := Attitude(angularUp);
      LoadShape(cube, CubeShape);
      LoadShape(ca, ArrowShape);
      RotatePoints(cube, q);
      RotatePoints(ca, q);
      if !angularUp {
        RotateAllIdentity(CubeShape);
        RotateAllIdentity(ArrowShape);
      }
    }

    /** The motor outputs as received: motors 0-3 in row 3, 4-7 in row 4. */
    function Motor(m: nat): real
      reads this, data
      requires Valid() && m < 8
    {
      if m < 4 then data[3, m] else data[4, m - 4]
    }

    /** The 3 x 4 thruster heatmap: each motor in its own cell, the four cells
        right of motors 4-7 left at zero. */
    function Heatmap(): (h: seq<seq<real>>)
      reads this, data
      requires Valid()
      ensures |h| == 3 && forall r :: 0 <= r < 3 ==> |h[r]| == 4
      ensures forall m :: 0 <= m < 8 ==> h[HeatCell(m).0][HeatCell(m).1] == Motor(m)
      ensures forall r, c :: 0 <= r < 2 && 2 <= c < 4 ==> h[r][c] == 0.0
    {
      [[data[4, 0], data[4, 1], 0.0, 0.0],
       [data[4, 2], data[4, 3], 0.0, 0.0],
       [data[3, 0], data[3, 1], data[3, 2], data[3, 3]]]
    }

    /** The history window as 11 series of 50 samples. */
    ghost function History(): (w: seq<seq<real>>)
      reads this, dataHist
      requires Valid()
      ensures |w| == Series
      ensures forall j :: 0 <= j < Series ==> |w[j]| == Window
      ensures forall j, k :: 0 <= j < Series && 0 <= k < Window ==> w[j][k] == dataHist[j, k]
    {
      seq(Series, j requires 0 <= j < Series reads this, dataHist =>
        seq(Window, k requires 0 <= k < Window reads this, dataHist => dataHist[j, k]))
    }

    function Row(i: nat): (v: Vec3)
      reads this, data
      requires Valid() && i < 9
    {
      Vec3(data[i, 0], data[i, 1], data[i, 2])
    }

    /** Moves every series one slot towards the past; the newest slot keeps
        its old value until the new sample is written. */
    method ShiftHistory()
      requires Valid()
      modifies dataHist
      ensures forall j, k :: 0 <= j < Series && 0 <= k < Window ==>
                dataHist[j, k] == if k < Window - 1 then old(dataHist[j, k + 1]) else old(dataHist[j, k])
    {
      for j := 0 to Series
        invariant forall j', k :: 0 <= j' < Series && 0 <= k < Window ==>
          dataHist[j', k] == if j' < j && k < Window - 1 then old(dataHist[j', k + 1]) else old(dataHist[j', k])
      {
        for k := 0 to Window - 1
          invariant forall j', k' :: 0 <= j' < Series && 0 <= k' < Window ==>
            dataHist[j', k'] ==
              if (j' < j && k' < Window - 1) || (j' == j && k' < k) then old(dataHist[j', k' + 1])
              else old(dataHist[j', k'])
        {
          dataHist[j, k] := dataHist[j, k + 1];
        }
      }
    }

    /** Writes a sample into the newest slot of every series: position,
        velocity and acceleration coordinate by coordinate, then the two
        magnitudes. */
    method WriteNewest(speed: real, accMagn: real)
      requires Valid()
      modifies dataHist
      ensures forall j, k :: 0 <= j < Series && 0 <= k < Window ==>
                dataHist[j, k] == if k == Window - 1 then Sample(Row(5), Row(6), speed, Row(7), accMagn)[j]
                                  else old(dataHist[j, k])
    {
      for j := 0 to 3
        invariant forall j', k :: 0 <= j' < Series && 0 <= k < Window ==>
          dataHist[j', k] == if j' < j && k == Window - 1 then data[5, j'] else old(dataHist[j', k])
      {
        dataHist[j, Window - 1] := data[5, j];
      }
      for j := 0 to 3
        invariant forall j', k :: 0 <= j' < Series && 0 <= k < Window ==>
          dataHist[j', k] ==
            if j' < 3 && k == Window - 1 then data[5, j']
            else if 3 <= j' < j + 3 && k == Window - 1 then data[6, j' - 3]
            else old(dataHist[j', k])
      {
        dataHist[j + 3, Window - 1] := data[6, j];
      }
      for j := 0 to 3
        invariant forall j', k :: 0 <= j' < Series && 0 <= k < Window ==>
          dataHist[j', k] ==
            if j' < 3 && k == Window - 1 then data[5, j']
            else if 3 <= j' < 6 && k == Window - 1 then data[6, j' - 3]
            else if 7 <= j' < j + 7 && k == Window - 1 then data[7, j' - 7]
            else old(dataHist[j', k])
      {
        dataHist[j + 7, Window - 1] := data[7, j];
      }
      dataHist[6, Window - 1] := speed;
      dataHist[10, Window - 1] := accMagn;
    }

    /** Advances the movement history by one frame. Every series moves one
        slot towards the past; the newest slot receives position (series 0-2),
        velocity (3-5), speed (6), acceleration (7-9) and the acceleration's
        magnitude (10). The two magnitudes are the square roots of the sums of
        squares, passed in as `speed` and `accMagn`. */
    method PushHistory(speed: real, accMagn: real)
      requires Valid()
      requires IsLength(speed, Row(6)) && IsLength(accMagn, Row(7))
      modifies dataHist
      ensures History() == Push(old(History()), Sample(Row(5), Row(6), speed, Row(7), accMagn))
      ensures forall j, k :: 0 <= j < Series && 1 <= k < Window ==>
                dataHist[j, k - 1] == old(dataHist[j, k])
      ensures IsLength(dataHist[6, Window - 1], Row(6)) && IsLength(dataHist[10, Window - 1], Row(7))
    {
      ShiftHistory();
      WriteNewest(speed, accMagn);
      ghost var sample := Sample(Row(5), Row(6), speed, Row(7), accMagn);
      forall j | 0 <= j < Series
        ensures History()[j] == Slide(old(History())[j], sample[j])
      {
        assert History()[j] == old(History())[j][1..] + [sample[j]];
      }
    }

    /** Scans the whole history for its least and greatest sample. */
    method AxisRange() returns (ymin: real, ymax: real)
      requires Valid()
      ensures forall j, k :: 0 <= j < Series && 0 <= k < Window ==> ymin <= dataHist[j, k] <= ymax
      ensures exists j, k :: 0 <= j < Series && 0 <= k < Window && dataHist[j, k] == ymin
      ensures exists j, k :: 0 <= j < Series && 0 <= k < Window && dataHist[j, k] == ymax
    {
      ymax := dataHist[0, 0];
      ymin := dataHist[0, 0];
      ghost var minAt: (nat, nat), maxAt: (nat, nat) := (0, 0), (0, 0);
      for j := 0 to Series
        invariant ymin <= dataHist[0, 0] <= ymax
        invariant minAt.0 < Series && minAt.1 < Window && dataHist[minAt.0, minAt.1] == ymin
        invariant maxAt.0 < Series && maxAt.1 < Window && dataHist[maxAt.0, maxAt.1] == ymax
        invariant forall j', k :: 0 <= j' < j && 0 <= k < Window ==> ymin <= dataHist[j', k] <= ymax
      {
        for k := 0 to Window
          invariant ymin <= dataHist[0, 0] <= ymax
          invariant minAt.0 < Series && minAt.1 < Window && dataHist[minAt.0, minAt.1] == ymin
          invariant maxAt.0 < Series && maxAt.1 < Window && dataHist[maxAt.0, maxAt.1] == ymax
          invariant forall j', k' :: 0 <= j' < j && 0 <= k' < Window ==> ymin <= dataHist[j', k'] <= ymax
          invariant forall k' :: 0 <= k' < k ==> ymin <= dataHist[j, k'] <= ymax
        {
          if dataHist[j, k] > ymax {
            ymax := dataHist[j, k];
            maxAt := (j, k);
          } else if dataHist[j, k] < ymin {
            ymin := dataHist[j, k];
            minAt := (j, k);
          }
        }
      }
    }

    /** y is the least sample of the history. */
    ghost predicate IsLeast(y: real)
      reads this, dataHist
      requires Valid()
    {
      && (forall j, k :: 0 <= j < Series && 0 <= k < Window ==> y <= dataHist[j, k])
      && exists j, k :: 0 <= j < Series && 0 <= k < Window && dataHist[j, k] == y
    }

    /** y is the greatest sample of the history. */
    ghost predicate IsGreatest(y: real)
      reads this, dataHist
      requires Valid()
    {
      && (forall j, k :: 0 <= j < Series && 0 <= k < Window ==> dataHist[j, k] <= y)
      && exists j, k :: 0 <= j < Series && 0 <= k < Window && dataHist[j, k] == y
    }

    /** The plot limits the history calls for: from its least sample to its
        greatest plus a fifth of the span. */
    ghost predicate AxisLimits(bottom: real, top: real)
      reads this, dataHist
      requires Valid()
    {
      IsLeast(bottom) && exists y :: IsGreatest(y) && top == y + (y - bottom) / 5.0
    }

    /** The vertical limits of the movement plot: from the least sample to the
        greatest plus a fifth of the span. Tick marks are recomputed only when
        the history is not constant, since a constant history has zero span. */
    method ScaleAxis() returns (bottom: real, top: real, ticks: bool)
      requires Valid()
      ensures AxisLimits(bottom, top)
      ensures forall j, k :: 0 <= j < Series && 0 <= k < Window ==> bottom <= dataHist[j, k] <= top
      ensures ticks <==> exists j, k :: 0 <= j < Series && 0 <= k < Window && dataHist[j, k] != dataHist[0, 0]
      ensures bottom == top <==> !ticks
    {
      var ymin, ymax := AxisRange();
      bottom, top := ymin, ymax + (ymax - ymin) / 5.0;
      assert IsGreatest(ymax);
      ticks := ymin != ymax;
      if ticks {
        if dataHist[0, 0] == ymin {
          ghost var j, k :| 0 <= j < Series && 0 <= k < Window && dataHist[j, k] == ymax;
        } else {
          ghost var j, k :| 0 <= j < Series && 0 <= k < Window && dataHist[j, k] == ymin;
        }
      }
    }

    /** The readings and viewer part of a frame: clamp the targets, redraw
        the orientation viewer and lay out the thruster heatmap. */
    method UpdateReadings(angularUp: bool) returns (heat: seq<seq<real>>)
      requires Valid()
      modifies data, cube, ca
      ensures data[0, 2] == Clamp(old(data[0, 2]), ForwardDepthLo, ForwardDepthHi)
      ensures data[1, 2] == Clamp(old(data[1, 2]), DownDepthLo, DownDepthHi)
      ensures data[0, 3] == Clamp(old(data[0, 3]), ConfidenceLo, ConfidenceHi)
      ensures data[1, 3] == Clamp(old(data[1, 3]), ConfidenceLo, ConfidenceHi)
      ensures forall i, j :: 0 <= i < 9 && 0 <= j < 4 && !(i < 2 && 2 <= j) ==>
                data[i, j] == old(data[i, j])
      ensures Points(cube) == RotateAll(Attitude(angularUp), CubeShape)
      ensures Points(ca) == RotateAll(Attitude(angularUp), ArrowShape)
      ensures heat == Heatmap()
    {
      ClampTargets();
      UpdateOrientation(angularUp);
      heat := Heatmap();
    }

    /** The movement part of a frame: advance the history and rescale its
        axis. */
    method UpdateMovement(speed: real, accMagn: real) returns (bottom: real, top: real, ticks: bool)
      requires Valid()
      requires IsLength(speed, Row(6)) && IsLength(accMagn, Row(7))
      modifies dataHist
      ensures History() == Push(old(History()), Sample(Row(5), Row(6), speed, Row(7), accMagn))
      ensures AxisLimits(bottom, top)
      ensures ticks <==> exists j, k :: 0 <= j < Series && 0 <= k < Window && dataHist[j, k] != dataHist[0, 0]
    {
      PushHistory(speed, accMagn);
      ghost var pushed := History();
      bottom, top, ticks := ScaleAxis();
      assert History() == pushed;
    }

    /** One frame of the display: clamp the targets, redraw the orientation
        viewer, compute the heatmap, advance the history and rescale its axis. */
    method Animate(angularUp: bool, speed: real, accMagn: real)
      returns (heat: seq<seq<real>>, bottom: real, top: real, ticks: bool)
      requires Valid()
      requires IsLength(speed, Row(6)) && IsLength(accMagn, Row(7))
      modifies data, cube, ca, dataHist
      ensures data[0, 2] == Clamp(old(data[0, 2]), ForwardDepthLo, ForwardDepthHi)
      ensures data[1, 2] == Clamp(old(data[1, 2]), DownDepthLo, DownDepthHi)
      ensures data[0, 3] == Clamp(old(data[0, 3]), ConfidenceLo, ConfidenceHi)
      ensures data[1, 3] == Clamp(old(data[1, 3]), ConfidenceLo, ConfidenceHi)
      ensures forall i, j :: 0 <= i < 9 && 0 <= j < 4 && !(i < 2 && 2 <= j) ==>
                data[i, j] == old(data[i, j])
      ensures Points(cube) == RotateAll(Attitude(angularUp), CubeShape)
      ensures Points(ca) == RotateAll(Attitude(angularUp), ArrowShape)
      ensures heat == Heatmap()
      ensures History() == Push(old(History()), Sample(Row(5), Row(6), speed, Row(7), accMagn))
      ensures AxisLimits(bottom, top)
      ensures ticks <==> exists j, k :: 0 <= j < Series && 0 <= k < Window && dataHist[j, k] != dataHist[0, 0]
    {
      ghost var before := History();
      heat := UpdateReadings(angularUp);
      assert History() == before;
      bottom, top, ticks := UpdateMovement(speed, accMagn);
    }
  }
}
