/** The numbers of `renderPipelineChart`: how many leads sit at each of the
    five pipeline stages, and the donut slices drawn for the stages that
    hold any. Angles are measured in turns (a full circle is 1); the canvas
    uses radians, which is the same figure times 2 pi. */
module Pipeline {
  import opened JsCore
  import opened Seqs
  import opened Leads

  /** The pipeline stages in drawing order. */
  const Stages: seq<string> := ["New Lead", "Contacted", "Negotiation", "Closed Won", "Closed Lost"]

  /** The slice colour of each stage. */
  const Colors: seq<string> := ["#667eea", "#4facfe", "#43e97b", "#38f9d7", "#fa709a"]

  /** One stage with the number of leads at it. */
  datatype StageCount = StageCount(stage: string, count: nat, color: string)

  /** A donut slice: it starts at `start` turns and spans `sweep` turns. */
  datatype Slice = Slice(stage: string, count: nat, color: string, start: real, sweep: real)

  /** What the canvas ends up showing. `ArcFails` is a canvas under 40
      pixels in either direction: the outer radius comes out negative and
      the first `ctx.arc` call throws instead of drawing. */
  datatype PipelineChart =
    | NoLeadData
    | ArcFails
    | Donut(centerX: real, centerY: real, radius: real, innerRadius: real, total: nat, slices: seq<Slice>)

  /** The drawing starts at the top of the circle, a quarter turn before
      angle zero (`-Math.PI / 2`). */
  const StartAngle: real := -0.25

  /** `l.stage === s`. */
  function AtStage(s: string): Lead -> bool
  {
    l => HasStage(l, s)
  }

  /** The lead's stage is one of `stages`. */
  function AtOneOf(stages: seq<string>): Lead -> bool
  {
    (l: Lead) => l.stage.Some? && l.stage.value in stages
  }

  ghost predicate Distinct<T>(s: seq<T>)
  {
    forall i, j | 0 <= i < j < |s| :: s[i] != s[j]
  }

  /** `stages.map((stage, index) => ({ stage, count, color: colors[index] }))`. */
  function Tallies(leads: seq<Lead>, stages: seq<string>, colors: seq<string>): (r: seq<StageCount>)
    requires |stages| == |colors|
    ensures |r| == |stages|
    ensures forall i | 0 <= i < |r| ::
              r[i] == StageCount(stages[i], Count(leads, AtStage(stages[i])), colors[i])
  {
    if stages == [] then []
    else [StageCount(stages[0], Count(leads, AtStage(stages[0])), colors[0])]
         + Tallies(leads, stages[1..], colors[1..])
  }

  function NonEmpty(): StageCount -> bool
  {
    (s: StageCount) => s.count > 0
  }

  /** `stageData`: the stages holding at least one lead, in stage order. */
  function StageData(leads: seq<Lead>): (r: seq<StageCount>)
    ensures forall s | s in r :: s.count > 0
    ensures forall i | 0 <= i < |Stages| && Count(leads, AtStage(Stages[i])) > 0 ::
              StageCount(Stages[i], Count(leads, AtStage(Stages[i])), Colors[i]) in r
  {
    Filter(Tallies(leads, Stages, Colors), NonEmpty())
  }

  /** `stageData.reduce((sum, d) => sum + d.count, 0)`. */
  function Total(sc: seq<StageCount>): nat
  {
    if sc == [] then 0 else sc[0].count + Total(sc[1..])
  }

  /** Slice `s` draws stage `c` and spans its share `count / total` of the
      circle. */
  ghost predicate SliceOf(s: Slice, c: StageCount, total: nat)
    requires total > 0
  {
    && s.stage == c.stage && s.count == c.count && s.color == c.color
    && s.sweep == c.count as real / total as real
  }

  /** Each slice starts where the one before it ends. */
  ghost predicate Contiguous(r: seq<Slice>)
  {
    forall i | 0 <= i < |r| - 1 :: r[i + 1].start == r[i].start + r[i].sweep
  }

  /** The slices of `sc` laid end to end from `start`, each spanning its
      share `count / total` of the circle. */
  function Slices(sc: seq<StageCount>, total: nat, start: real): (r: seq<Slice>)
    requires total > 0
    ensures |r| == |sc|
    ensures forall i | 0 <= i < |r| :: SliceOf(r[i], sc[i], total)
    ensures |r| > 0 ==> r[0].start == start
    ensures Contiguous(r)
  {
    if sc == [] then []
    else
      var sweep := sc[0].count as real / total as real;
      var rest := Slices(sc[1..], total, start + sweep);
      var r := [Slice(sc[0].stage, sc[0].count, sc[0].color, start, sweep)] + rest;
      assert forall i | 0 < i < |r| :: r[i] == rest[i - 1] && sc[i] == sc[1..][i - 1];
      r
  }

  /** The sum of the slices' sweeps. */
  function Sweep(r: seq<Slice>): real
  {
    if r == [] then 0.0 else r[0].sweep + Sweep(r[1..])
  }

  /** `renderPipelineChart()` for a canvas of `width` by `height` pixels,
      over every cached lead. */
  function PipelineChartOf(width: nat, height: nat, leads: seq<Lead>): (c: PipelineChart)
    ensures c.NoLeadData? <==> Total(StageData(leads)) == 0
    ensures c.ArcFails? <==> Total(StageData(leads)) > 0 && (width < 40 || height < 40)
    ensures c.Donut? ==>
              && c.radius == (if width <= height then width else height) as real / 2.0 - 20.0
              && 0.0 <= c.innerRadius <= c.radius
              && c.total == Total(StageData(leads))
              && |c.slices| == |StageData(leads)|
              && c.centerX == width as real / 2.0 && c.centerY == height as real / 2.0
              && c.innerRadius == c.radius * 0.6
              && c.slices == Slices(StageData(leads), c.total, StartAngle)
  {
    var data := StageData(leads);
    var total := Total(data);
    if total == 0 then NoLeadData
    else
      var centerX := width as real / 2.0;
      var centerY := height as real / 2.0;
      var radius := (if centerX <= centerY then centerX else centerY) - 20.0;
      if radius < 0.0 then ArcFails
      else Donut(centerX, centerY, radius, radius * 0.6, total, Slices(data, total, StartAngle))
  }

  // ---------------------------------------------------------------------
  // Properties

  /** Dropping the empty stages does not change the total. */
  lemma {:induction false} TotalIgnoresEmpty(sc: seq<StageCount>)
    ensures Total(Filter(sc, NonEmpty())) == Total(sc)
  {
    if sc != [] {
      TotalIgnoresEmpty(sc[1..]);
      var head := if sc[0].count > 0 then [sc[0]] else [];
      assert Filter(sc, NonEmpty()) == head + Filter(sc[1..], NonEmpty());
      TotalAppend(head, Filter(sc[1..], NonEmpty()));
    }
  }

  lemma {:induction false} TotalAppend(a: seq<StageCount>, b: seq<StageCount>)
    ensures Total(a + b) == Total(a) + Total(b)
  {
    if a != [] {
      assert (a + b)[1..] == a[1..] + b;
      TotalAppend(a[1..], b);
    } else {
      assert a + b == b;
    }
  }

  /** Over distinct stages, the per-stage counts add up to the number of
      leads at any of them. */
  lemma {:induction false} TalliesTotal(leads: seq<Lead>, stages: seq<string>, colors: seq<string>)
    requires |stages| == |colors| && Distinct(stages)
    ensures Total(Tallies(leads, stages, colors)) == Count(leads, AtOneOf(stages))
  {
    if stages == [] {
      CountNone(leads, AtOneOf(stages));
    } else {
      var t := Tallies(leads, stages, colors);
      assert t[1..] == Tallies(leads, stages[1..], colors[1..]);
      TalliesTotal(leads, stages[1..], colors[1..]);
      forall l: Lead ensures AtOneOf(stages)(l) == (AtStage(stages[0])(l) || AtOneOf(stages[1..])(l)) {
        if l.stage.Some? && l.stage.value in stages {
          var i :| 0 <= i < |stages| && stages[i] == l.stage.value;
          if i > 0 {
            assert stages[1..][i - 1] == stages[i];
          }
        }
      }
      assert stages[0] !in stages[1..] by {
        forall j | 0 <= j < |stages[1..]| ensures stages[1..][j] != stages[0] {
          assert stages[1..][j] == stages[j + 1];
        }
      }
      CountSplit(leads, AtOneOf(stages), AtStage(stages[0]), AtOneOf(stages[1..]));
    }
  }

  /** The donut's total is the number of leads whose stage is one of the
      five pipeline stages; a lead at any other stage (such as "Won") or
      with no stage is not drawn. */
  lemma PipelineTotal(leads: seq<Lead>)
    ensures Total(StageData(leads)) == Count(leads, AtOneOf(Stages))
    ensures forall l: Lead | l.stage == Some("Won") :: !AtOneOf(Stages)(l)
  {
    TotalIgnoresEmpty(Tallies(leads, Stages, Colors));
    StagesDistinct();
    TalliesTotal(leads, Stages, Colors);
  }

  /** The five stage names differ: no two share both length and initial. */
  lemma StagesDistinct()
    ensures Distinct(Stages)
  {
    assert |Stages[0]| == 8 && Stages[0][0] == 'N';
    assert |Stages[1]| == 9 && Stages[1][0] == 'C';
    assert |Stages[2]| == 11 && Stages[2][0] == 'N';
    assert |Stages[3]| == 10 && Stages[3][0] == 'C';
    assert |Stages[4]| == 11 && Stages[4][0] == 'C';
  }

  /** "No lead data" is shown exactly when no lead is at a pipeline stage. */
  lemma NoDataIffNoPipelineLead(width: nat, height: nat, leads: seq<Lead>)
    ensures PipelineChartOf(width, height, leads).NoLeadData?
        <==> forall l | l in leads :: !AtOneOf(Stages)(l)
  {
    PipelineTotal(leads);
    if Count(leads, AtOneOf(Stages)) == 0 {
      forall l | l in leads ensures !AtOneOf(Stages)(l) {
        var i :| 0 <= i < |leads| && leads[i] == l;
      }
    } else {
      var l := Filter(leads, AtOneOf(Stages))[0];
      assert l in leads && AtOneOf(Stages)(l);
    }
  }

  lemma {:induction false} SweepShares(r: seq<Slice>, sc: seq<StageCount>, total: nat)
    requires total > 0 && |r| == |sc|
    requires forall i | 0 <= i < |r| :: SliceOf(r[i], sc[i], total)
    ensures Sweep(r) == Total(sc) as real / total as real
  {
    if r != [] {
      forall i | 0 <= i < |r| - 1 ensures SliceOf(r[1..][i], sc[1..][i], total) {
        assert r[1..][i] == r[i + 1] && sc[1..][i] == sc[i + 1];
      }
      SweepShares(r[1..], sc[1..], total);
      AddShares(sc[0].count as real, Total(sc[1..]) as real, total as real);
    }
  }

  lemma AddShares(a: real, b: real, t: real)
    requires t > 0.0
    ensures a / t + b / t == (a + b) / t
  {
  }

  /** The slices cover the whole circle exactly once: their sweeps add up
      to one turn. */
  lemma SlicesFillCircle(sc: seq<StageCount>, start: real)
    requires Total(sc) > 0
    ensures Sweep(Slices(sc, Total(sc), start)) == 1.0
  {
    var total := Total(sc);
    SweepShares(Slices(sc, total, start), sc, total);
    WholeShare(total as real);
  }

  lemma WholeShare(t: real)
    requires t > 0.0
    ensures t / t == 1.0
  {
  }

  /** The drawn slices are the non-empty stages, in pipeline order, each
      with its own colour and the number of leads at it. */
  lemma SlicesFollowStages(width: nat, height: nat, leads: seq<Lead>, i: nat, j: nat)
    requires PipelineChartOf(width, height, leads).Donut?
    requires i < j < |PipelineChartOf(width, height, leads).slices|
    ensures var c := PipelineChartOf(width, height, leads);
            exists a, b | 0 <= a < b < |Stages| ::
              && c.slices[i].stage == Stages[a] && c.slices[j].stage == Stages[b]
              && c.slices[i].color == Colors[a] && c.slices[j].color == Colors[b]
              && c.slices[i].count == Count(leads, AtStage(Stages[a])) > 0
              && c.slices[j].count == Count(leads, AtStage(Stages[b])) > 0
  {
    var c := PipelineChartOf(width, height, leads);
    var data := StageData(leads);
    StageDataFollowsStages(leads, i, j);
    var a, b :| 0 <= a < b < |Stages| && data[i] == StageAt(leads, a) && data[j] == StageAt(leads, b);
    assert SliceOf(c.slices[i], data[i], c.total) && SliceOf(c.slices[j], data[j], c.total);
  }

  /** Stage `a` of the pipeline with its count and colour. */
  function StageAt(leads: seq<Lead>, a: nat): StageCount
    requires a < |Stages|
  {
    StageCount(Stages[a], Count(leads, AtStage(Stages[a])), Colors[a])
  }

  lemma StageDataFollowsStages(leads: seq<Lead>, i: nat, j: nat)
    requires i < j < |StageData(leads)|
    ensures exists a, b | 0 <= a < b < |Stages| ::
              && StageData(leads)[i] == StageAt(leads, a) && StageData(leads)[j] == StageAt(leads, b)
              && StageAt(leads, a).count > 0 && StageAt(leads, b).count > 0
  {
    var t := Tallies(leads, Stages, Colors);
    var data := StageData(leads);
    FilterKeepsOrder(t, NonEmpty(), i, j);
    var a, b :| 0 <= a < b < |t| && data[i] == t[a] && data[j] == t[b];
    assert t[a] == StageAt(leads, a) && t[b] == StageAt(leads, b);
    assert data[i] in data && data[j] in data;
  }
}
