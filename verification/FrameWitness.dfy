/** The frame witness: the transform recorded between the localization frame and the truth
    frame, and the frame error computed with it. */
module FrameWitness {
  import opened Values
  import opened RealMath
  import opened Quaternions
  import opened PoseHistories

  /** The real functions interpolation needs. */
  datatype Functions = Functions(sqrt: real -> real, acos: real -> real, sin: real -> real)

  // ---- orientation ------------------------------------------------------------

  function Dot4(a: Quat, b: Quat): real {
    a.x * b.x + a.y * b.y + a.z * b.z + a.w * b.w
  }

  function Weighted(p: real, a: Quat, q: real, b: Quat): Quat {
    Quat(p * a.x + q * b.x, p * a.y + q * b.y, p * a.z + q * b.z, p * a.w + q * b.w)
  }

  /** Spherical interpolation along the shorter way. */
  function Slerp(left: Quat, right: Quat, alpha: real, f: Functions): Option<Quat> {
    var first, second := Normalize(left, f.sqrt), Normalize(right, f.sqrt);
    if first.None? || second.None? then None
    else
      var a := first.value;
      var d := Dot4(a, second.value);
      var b := if d < 0.0 then Weighted(0.0, a, -1.0, second.value) else second.value;
      var dot := if Abs(d) > 1.0 then 1.0 else Abs(d);
      if dot > 0.9995 then Normalize(Weighted(1.0 - alpha, a, alpha, b), f.sqrt)
      else
        var theta := f.acos(dot);
        var sine := f.sin(theta);
        if Abs(sine) <= 0.000000000001 then None
        else Normalize(Weighted(f.sin((1.0 - alpha) * theta) / sine, a, f.sin(alpha * theta) / sine, b), f.sqrt)
  }

  /** Interpolated orientations are unit quaternions. */
  lemma SlerpIsUnit(left: Quat, right: Quat, alpha: real, f: Functions)
    requires IsSqrt(f.sqrt)
    ensures Slerp(left, right, alpha, f).Some? ==> Unit(Slerp(left, right, alpha, f).value)
  {
    hide IsSqrt, Unit, Normalize, Weighted, Dot4;
    forall q ensures Normalize(q, f.sqrt).Some? ==> Unit(Normalize(q, f.sqrt).value) {
      NormalizedIsUnit(q, f.sqrt);
    }
  }

  // ---- interpolation ----------------------------------------------------------

  function Fraction(left: int, t: int, right: int): real
    requires left < right
  {
    (t - left) as real / (right - left) as real
  }

  function Blend(l: Vec, r: Vec, alpha: real): Vec {
    Vec((1.0 - alpha) * l.x + alpha * r.x, (1.0 - alpha) * l.y + alpha * r.y, (1.0 - alpha) * l.z + alpha * r.z)
  }

  function Advance(l: Vec, r: Vec, alpha: real): Vec {
    Vec(l.x + alpha * (r.x - l.x), l.y + alpha * (r.y - l.y), l.z + alpha * (r.z - l.z))
  }

  lemma BlendIsAdvance(l: Vec, r: Vec, alpha: real)
    ensures Blend(l, r, alpha) == Advance(l, r, alpha)
  {
  }

  predicate Agree<T(==)>(a: Option<T>, b: Option<T>) {
    a.None? || b.None? || a == b
  }

  /** The pose at a stamp, for building a witness. */
  function InterpolatePose(history: seq<Sample>, t: int, f: Functions): Option<Sample> {
    var ordered := Sort(Stamped(history));
    var exact, bracket := ExactAt(ordered, t), Bracket(ordered, t, true);
    if exact.Some? then Some(exact.value.sample)
    else if bracket.None? then None
    else
      var (l, r) := bracket.value;
      if !(Agree(l.sample.epoch, r.sample.epoch) && Agree(l.sample.frame, r.sample.frame) && Agree(l.sample.child, r.sample.child))
      then None
      else if l.stamp >= r.stamp then None
      else
        var alpha := Fraction(l.stamp, t, r.stamp);
        match Slerp(l.sample.orientation, r.sample.orientation, alpha, f)
        case None => None
        case Some(q) => Some(l.sample.(stamp := Some(t), position := Blend(l.sample.position, r.sample.position, alpha), orientation := q))
  }

  /** Samples a position query may use. */
  function Usable(epoch: Option<int>): Timed -> bool {
    (x: Timed) => x.stamp > 0 && (epoch.None? || x.sample.epoch == epoch)
  }

  /** The position at a stamp, for using a witness. */
  function InterpolatePosition(history: seq<Sample>, t: int, epoch: Option<int>): Option<Vec> {
    var ordered := Sort(Filter(Stamped(history), Usable(epoch)));
    var exact, bracket := ExactAt(ordered, t), Bracket(ordered, t, false);
    if exact.Some? then Some(exact.value.sample.position)
    else if bracket.None? then None
    else
      var (l, r) := bracket.value;
      if r.stamp <= l.stamp then None
      else Some(Advance(l.sample.position, r.sample.position, Fraction(l.stamp, t, r.stamp)))
  }

  method UsableSamples(history: seq<Sample>, epoch: Option<int>) returns (samples: seq<Timed>)
    ensures samples == Filter(Stamped(history), Usable(epoch))
  {
    samples := [];
    for i := 0 to |history|
      invariant samples == Filter(Stamped(history[..i]), Usable(epoch))
    {
      var s := history[i];
      assert history[..i + 1][..i] == history[..i];
      if s.stamp.Some? {
        FilterStep(Stamped(history[..i]), Timed(s.stamp.value, s), Usable(epoch));
        if s.stamp.value > 0 && (epoch.None? || s.epoch == epoch) {
          samples := samples + [Timed(s.stamp.value, s)];
        }
      } else {
        assert Stamped(history[..i + 1]) == Stamped(history[..i]);
      }
    }
    assert history[..|history|] == history;
  }

  method FindExact(samples: seq<Timed>, t: int) returns (r: Option<Timed>)
    ensures r == ExactAt(samples, t)
  {
    for i := 0 to |samples|
      invariant ExactAt(samples[..i], t).None?
    {
      ExactStep(samples[..i], samples[i], t);
      assert samples[..i + 1] == samples[..i] + [samples[i]];
      if samples[i].stamp == t {
        ExactLater(samples, t, i + 1);
        return Some(samples[i]);
      }
    }
    assert samples[..|samples|] == samples;
    r := None;
  }

  method FindBracket(samples: seq<Timed>, t: int) returns (r: Option<(Timed, Timed)>)
    ensures r == Bracket(samples, t, false)
  {
    var i := 1;
    while i < |samples|
      invariant 1 <= i && (samples != [] ==> i <= |samples| && Bracket(samples[..i], t, false).None?)
    {
      assert samples[..i + 1][..i] == samples[..i];
      if !(samples[i - 1].stamp > t || t > samples[i].stamp) {
        BracketLater(samples, t, i + 1);
        return Some((samples[i - 1], samples[i]));
      }
      i := i + 1;
    }
    assert samples != [] ==> samples[..|samples|] == samples;
    r := None;
  }

  /** The position query as its loops run it. */
  method InterpolatePositionInLoops(history: seq<Sample>, t: int, epoch: Option<int>) returns (r: Option<Vec>)
    ensures r == InterpolatePosition(history, t, epoch)
  {
    hide Sort, Filter, Stamped, Usable, ExactAt, Bracket;
    var samples := UsableSamples(history, epoch);
    samples := Sort(samples);
    var exact := FindExact(samples, t);
    if exact.Some? {
      return Some(exact.value.sample.position);
    }
    var bracket := FindBracket(samples, t);
    if bracket.None? || bracket.value.1.stamp <= bracket.value.0.stamp {
      return None;
    }
    var (left, right) := bracket.value;
    r := Some(Advance(left.sample.position, right.sample.position, Fraction(left.stamp, t, right.stamp)));
  }

  lemma {:induction false} ExactLater(s: seq<Timed>, t: int, i: nat)
    requires i <= |s| && ExactAt(s[..i], t).Some?
    ensures ExactAt(s, t) == ExactAt(s[..i], t)
  {
    if i == |s| {
      assert s[..i] == s;
    } else {
      assert s[..|s| - 1][..i] == s[..i];
      ExactLater(s[..|s| - 1], t, i);
    }
  }

  lemma {:induction false} BracketLater(s: seq<Timed>, t: int, i: nat)
    requires i <= |s| && Bracket(s[..i], t, false).Some?
    ensures Bracket(s, t, false) == Bracket(s[..i], t, false)
  {
    if i == |s| {
      assert s[..i] == s;
    } else {
      assert s[..|s| - 1][..i] == s[..i];
      BracketLater(s[..|s| - 1], t, i);
    }
  }

  // ---- both interpolations agree ----------------------------------------------

  /** The samples the pose query uses, the exact match or else both ends of the bracket, are
      open to the position query too. */
  predicate SamplesUsable(history: seq<Sample>, t: int, epoch: Option<int>) {
    var all := Sort(Stamped(history));
    var exact, bracket := ExactAt(all, t), Bracket(all, t, true);
    if exact.Some? then Usable(epoch)(exact.value)
    else bracket.Some? ==> Usable(epoch)(bracket.value.0) && Usable(epoch)(bracket.value.1)
  }

  /** Both queries use the same samples. */
  predicate SameSamples(history: seq<Sample>, t: int, epoch: Option<int>) {
    var all, some := Sort(Stamped(history)), Sort(Filter(Stamped(history), Usable(epoch)));
    if ExactAt(all, t).Some? then ExactAt(some, t) == ExactAt(all, t)
    else ExactAt(some, t).None? && (Bracket(all, t, true).Some? ==> Bracket(some, t, false) == Bracket(all, t, true))
  }

  lemma {:induction false} FoundMembers(s: seq<Timed>, t: int)
    ensures LastBelow(s, t).Some? ==> LastBelow(s, t).value in s && LastBelow(s, t).value.stamp < t
    ensures FirstAbove(s, t).Some? ==> FirstAbove(s, t).value in s && FirstAbove(s, t).value.stamp > t
  {
    if s != [] {
      FoundMembers(s[..|s| - 1], t);
      assert forall y :: y in s <==> y in s[..|s| - 1] || y == s[|s| - 1];
    }
  }

  /** What both queries find, in the order of stamps, with and without the epoch filter. */
  lemma BothFind(history: seq<Sample>, t: int, keep: Timed -> bool)
    ensures var all, some := Sort(Stamped(history)), Sort(Filter(Stamped(history), keep));
            && (ExactAt(all, t).Some? && keep(ExactAt(all, t).value) ==> ExactAt(some, t) == ExactAt(all, t))
            && (ExactAt(all, t).None? ==> ExactAt(some, t).None?)
            && (ExactAt(all, t).None? && Bracket(all, t, true).Some? &&
                keep(Bracket(all, t, true).value.0) && keep(Bracket(all, t, true).value.1) ==>
                  Bracket(some, t, false) == Bracket(all, t, true) && Bracket(all, t, true).value.0.stamp < Bracket(all, t, true).value.1.stamp)
  {
    var all, some := Sort(Stamped(history)), Sort(Filter(Stamped(history), keep));
    SortFiltered(Stamped(history), keep);
    SortInOrder(Stamped(history));
    SortInOrder(Filter(Stamped(history), keep));
    hide Sort, Stamped, Filter, Bracket, LastBelow, FirstAbove, InOrder;
    FilteredFinds(all, keep, t);
    if ExactAt(all, t).None? {
      BracketIs(all, t, true);
      BracketIs(some, t, false);
      FoundMembers(all, t);
    }
  }

  /** Both queries use the same samples exactly when those of the pose query are usable. */
  lemma SameSamplesExactly(history: seq<Sample>, t: int, epoch: Option<int>)
    ensures SameSamples(history, t, epoch) <==> SamplesUsable(history, t, epoch)
  {
    var all, some := Sort(Stamped(history)), Sort(Filter(Stamped(history), Usable(epoch)));
    BothFind(history, t, Usable(epoch));
    SortInOrder(Filter(Stamped(history), Usable(epoch)));
    FilterMembers(Stamped(history), Usable(epoch));
    hide Sort, Stamped, Filter, Bracket, ExactAt, Usable;
    ExactMember(some, t);
    BracketMembers(some, t, false);
  }

  lemma ProperBracket(history: seq<Sample>, t: int)
    requires ExactAt(Sort(Stamped(history)), t).None? && Bracket(Sort(Stamped(history)), t, true).Some?
    ensures var (l, r) := Bracket(Sort(Stamped(history)), t, true).value; l.stamp < t < r.stamp
  {
    var all := Sort(Stamped(history));
    SortInOrder(Stamped(history));
    hide Sort, Stamped, Bracket, LastBelow, FirstAbove, InOrder;
    BracketIs(all, t, true);
    FoundMembers(all, t);
  }

  /** The position of an interpolated pose is the interpolated position, whenever the samples
      used are open to both queries. */
  lemma PositionsAgree(history: seq<Sample>, t: int, epoch: Option<int>, f: Functions)
    requires SamplesUsable(history, t, epoch) && InterpolatePose(history, t, f).Some?
    ensures InterpolatePosition(history, t, epoch) == Some(InterpolatePose(history, t, f).value.position)
  {
    hide Sort, Stamped, Filter, Bracket, ExactAt, Slerp, Blend, Advance, Fraction, Usable, SamplesUsable;
    var all := Sort(Stamped(history));
    SameSamplesExactly(history, t, epoch);
    if ExactAt(all, t).None? {
      ProperBracket(history, t);
      var (l, r) := Bracket(all, t, true).value;
      BlendIsAdvance(l.sample.position, r.sample.position, Fraction(l.stamp, t, r.stamp));
    }
  }

  lemma ExactMember(s: seq<Timed>, t: int)
    ensures ExactAt(s, t).Some? ==> ExactAt(s, t).value in s
  {
  }

  lemma {:induction false} BracketMembers(s: seq<Timed>, t: int, proper: bool)
    ensures Bracket(s, t, proper).Some? ==> Bracket(s, t, proper).value.0 in s && Bracket(s, t, proper).value.1 in s
  {
    if |s| >= 2 {
      BracketMembers(s[..|s| - 1], t, proper);
    }
  }

  // ---- the witness ------------------------------------------------------------

  datatype Scope = EpochScope | IntervalScope(from: Option<int>, until: Option<int>) | OtherScope

  datatype Witness = Witness(valid: bool, epoch: Option<int>, scope: Scope, attributed: bool, translation: Vec, matrix: Matrix)

  /** The localization state a witness is taken in: its epoch and frames, whether tracking is
      healthy, and whether both streams have been received. */
  datatype Localization = Localization(epoch: Option<int>, frame: Option<string>, child: Option<string>, tracking: bool, received: bool)

  function OrZero(n: Option<int>): int {
    if n.Some? then n.value else 0
  }

  /** The transform from the truth frame to the localization frame at a common stamp. */
  function MakeWitness(lio: seq<Sample>, truth: seq<Sample>, t: int, now: Localization, f: Functions): Option<Witness> {
    var l, g := InterpolatePose(lio, t, f), InterpolatePose(truth, t, f);
    if l.None? || g.None? then None
    else
      var lq, gq := Normalize(l.value.orientation, f.sqrt), Normalize(g.value.orientation, f.sqrt);
      if lq.None? || gq.None? then None
      else if !(OrZero(l.value.epoch) > 0 && OrZero(l.value.epoch) == OrZero(now.epoch) &&
                l.value.frame == now.frame && l.value.child == now.child && now.tracking && now.received) then None
      else
        var matrix := RotationMatrix(Multiply(lq.value, Inverse(gq.value)));
        Some(Witness(true, l.value.epoch, EpochScope, true, Sub(l.value.position, Apply(matrix, g.value.position)), matrix))
  }

  predicate ScopeCovers(scope: Scope, t: int) {
    match scope
    case EpochScope => true
    case IntervalScope(from, until) => from.Some? && until.Some? && from.value > 0 && from.value <= until.value && from.value <= t <= until.value
    case OtherScope => false
  }

  const TOLERANCE: real := 0.00001

  /** The frame error at a stamp: truth in the localization frame minus localization. */
  function FrameError(t: int, epoch: int, w: Option<Witness>, lio: seq<Sample>, truth: seq<Sample>): Option<Vec> {
    if t <= 0 || epoch <= 0 || w.None? || !w.value.valid then None
    else if w.value.epoch != Some(epoch) || !ScopeCovers(w.value.scope, t) || !w.value.attributed then None
    else if !RotationMatrixValid(w.value.matrix, TOLERANCE) then None
    else
      var l, g := InterpolatePosition(lio, t, Some(epoch)), InterpolatePosition(truth, t, None);
      if l.None? || g.None? then None
      else Some(Sub(Add(Apply(w.value.matrix, g.value), w.value.translation), l.value))
  }

  /** The rotation of a witness is exact, so it passes both tests a consumer applies. */
  lemma WitnessIsRotation(lio: seq<Sample>, truth: seq<Sample>, t: int, now: Localization, f: Functions)
    requires IsSqrt(f.sqrt) && MakeWitness(lio, truth, t, now, f).Some?
    ensures var m := MakeWitness(lio, truth, t, now, f).value.matrix;
            Rotation(m) && forall tolerance :: tolerance >= 0.0 ==> RotationMatrixValid(m, tolerance)
  {
    hide InterpolatePose, Normalize, RotationMatrix, Multiply, Inverse, Rotation, RotationMatrixValid, Unit, IsSqrt, Apply, Sub;
    var l, g := InterpolatePose(lio, t, f).value, InterpolatePose(truth, t, f).value;
    NormalizedIsUnit(l.orientation, f.sqrt);
    NormalizedIsUnit(g.orientation, f.sqrt);
    var lq, gq := Normalize(l.orientation, f.sqrt).value, Normalize(g.orientation, f.sqrt).value;
    ProductIsUnit(lq, gq);
    ProductIsUnit(lq, Inverse(gq));
    var q := Multiply(lq, Inverse(gq));
    UnitGivesRotation(q);
    forall tolerance | tolerance >= 0.0 ensures RotationMatrixValid(RotationMatrix(q), tolerance) {
      UnitPassesTest(q, tolerance);
    }
  }

  lemma ErrorCancels(a: Vec, b: Vec)
    ensures Sub(Add(a, Sub(b, a)), b) == Vec(0.0, 0.0, 0.0)
  {
  }

  /** At its own reference stamp a witness yields a frame error, and the error is zero. */
  lemma NoErrorAtReference(lio: seq<Sample>, truth: seq<Sample>, t: int, now: Localization, f: Functions)
    requires IsSqrt(f.sqrt) && t > 0 && MakeWitness(lio, truth, t, now, f).Some?
    requires SamplesUsable(lio, t, MakeWitness(lio, truth, t, now, f).value.epoch) && SamplesUsable(truth, t, None)
    ensures var w := MakeWitness(lio, truth, t, now, f);
            w.value.epoch.Some? && FrameError(t, w.value.epoch.value, w, lio, truth) == Some(Vec(0.0, 0.0, 0.0))
  {
    hide InterpolatePose, InterpolatePosition, SamplesUsable, Normalize, RotationMatrix, Multiply, Inverse, Rotation, RotationMatrixValid, Unit, IsSqrt, Apply, Sub, Add;
    var l, g := InterpolatePose(lio, t, f).value, InterpolatePose(truth, t, f).value;
    WitnessIsRotation(lio, truth, t, now, f);
    PositionsAgree(lio, t, l.epoch, f);
    PositionsAgree(truth, t, None, f);
    ErrorCancels(Apply(MakeWitness(lio, truth, t, now, f).value.matrix, g.position), l.position);
  }

  // ---- a sample only one query sees -------------------------------------------

  const LEVEL: Quat := Quat(0.0, 0.0, 0.0, 1.0)

  function At(stamp: int): Sample {
    Sample(Some(stamp), Some(1), None, None, Vec(stamp as real, 0.0, 0.0), LEVEL)
  }

  lemma NormalizeUnit(q: Quat, sqrt: real -> real)
    requires IsSqrt(sqrt) && Unit(q)
    ensures Normalize(q, sqrt) == Some(q)
  {
    var n := sqrt(1.0);
    assert n >= 0.0 && Prod(n, n) == 1.0;
    OneRoot(n);
  }

  lemma OneRoot(n: real)
    requires n >= 0.0 && Prod(n, n) == 1.0
    ensures n == 1.0
  {
    hide Prod;
    ProdOne(1.0);
    RootBound(n, 1.0);
    RootBound(1.0, n);
  }

  lemma LevelStaysLevel(alpha: real, f: Functions)
    requires IsSqrt(f.sqrt)
    ensures Slerp(LEVEL, LEVEL, alpha, f).Some?
  {
    NormalizeUnit(LEVEL, f.sqrt);
    hide IsSqrt, Normalize;
    assert Dot4(LEVEL, LEVEL) == 1.0;
    assert Weighted(1.0 - alpha, LEVEL, alpha, LEVEL) == LEVEL;
  }

  lemma StampedTwo(x: Sample, y: Sample)
    requires x.stamp.Some? && y.stamp.Some?
    ensures Stamped([x, y]) == [Timed(x.stamp.value, x), Timed(y.stamp.value, y)]
  {
    assert [x, y][..1] == [x] && [x][..0] == [];
    assert Stamped([x]) == [Timed(x.stamp.value, x)];
  }

  lemma SortTwo(a: Timed, b: Timed)
    requires a.stamp <= b.stamp
    ensures Sort([b]) == [b] && Sort([a, b]) == [a, b]
  {
    assert [b][..0] == [] && [a][..0] == [] && [a, b][..1] == [a];
    assert Insert([], a) == [a] && Insert([], b) == [b];
    assert Sort([a]) == [a];
  }

  lemma FilterTwo(a: Timed, b: Timed, keep: Timed -> bool)
    requires !keep(a) && keep(b)
    ensures Filter([a, b], keep) == [b]
  {
    assert [a][..0] == [] && [a, b][..1] == [a];
    assert Filter([a], keep) == [];
  }

  lemma QueryTwo(a: Timed, b: Timed, t: int)
    requires a.stamp < t < b.stamp
    ensures ExactAt([a, b], t).None? && ExactAt([b], t).None?
    ensures Bracket([a, b], t, true) == Some((a, b)) && Bracket([b], t, false).None?
  {
    assert [a, b][..1] == [a];
    assert forall x | x in [a, b] :: x.stamp != t;
    assert forall x | x in [b] :: x.stamp != t;
    hide ExactAt;
  }

  /** A sample with stamp 0 ends the bracket of the pose query and is no sample for the
      position query: between stamps 0 and 2 the first finds a pose, the second nothing. */
  lemma ZeroStampIsLost(f: Functions)
    requires IsSqrt(f.sqrt)
    ensures var history := [At(0), At(2)];
            && InterpolatePose(history, 1, f).Some? && InterpolatePosition(history, 1, Some(1)).None?
            && !SamplesUsable(history, 1, Some(1))
  {
    hide Sort, Stamped, Filter, Slerp, IsSqrt, ExactAt, Bracket;
    var a, b := Timed(0, At(0)), Timed(2, At(2));
    StampedTwo(At(0), At(2));
    SortTwo(a, b);
    assert !Usable(Some(1))(a) && Usable(Some(1))(b);
    FilterTwo(a, b, Usable(Some(1)));
    QueryTwo(a, b, 1);
    LevelStaysLevel(Fraction(0, 1, 2), f);
  }

  // ---- when a frame error exists ----------------------------------------------

  lemma {:induction false} SomeBelow(s: seq<Timed>, t: int)
    ensures LastBelow(s, t).Some? <==> exists x | x in s :: x.stamp < t
    ensures LastBelow(s, t).Some? ==> LastBelow(s, t).value.stamp < t
  {
    if s != [] {
      var n := |s| - 1;
      SomeBelow(s[..n], t);
      assert forall y :: y in s <==> y in s[..n] || y == s[n];
    }
  }

  lemma {:induction false} AboveIsAbove(s: seq<Timed>, t: int)
    ensures FirstAbove(s, t).Some? ==> FirstAbove(s, t).value.stamp > t
  {
    if s != [] { AboveIsAbove(s[..|s| - 1], t); }
  }

  /** Samples the query may use lie at or before the stamp and at or after it. */
  ghost predicate Enclosed(history: seq<Sample>, t: int, epoch: Option<int>) {
    && (exists x | x in Stamped(history) :: Usable(epoch)(x) && x.stamp <= t)
    && (exists x | x in Stamped(history) :: Usable(epoch)(x) && x.stamp >= t)
  }

  /** A position is found exactly between usable samples. */
  lemma PositionExistsExactly(history: seq<Sample>, t: int, epoch: Option<int>)
    ensures InterpolatePosition(history, t, epoch).Some? <==> Enclosed(history, t, epoch)
  {
    var some := Filter(Stamped(history), Usable(epoch));
    var ordered := Sort(some);
    SortInOrder(some);
    FilterMembers(Stamped(history), Usable(epoch));
    hide Sort, Stamped, Filter, Bracket, Usable, Advance;
    assert forall x :: x in ordered <==> x in Stamped(history) && Usable(epoch)(x);
    if ExactAt(ordered, t).None? {
      hide ExactAt;
      BracketIs(ordered, t, false);
      SomeBelow(ordered, t);
      NoneAbove(ordered, t);
      AboveIsAbove(ordered, t);
    }
  }

  /** At its own reference stamp a witness yields a frame error exactly when both histories
      enclose the stamp with samples the position query may use. */
  lemma ErrorExistsExactly(lio: seq<Sample>, truth: seq<Sample>, t: int, now: Localization, f: Functions)
    requires IsSqrt(f.sqrt) && t > 0 && MakeWitness(lio, truth, t, now, f).Some?
    ensures var w := MakeWitness(lio, truth, t, now, f);
            && w.value.epoch.Some?
            && (FrameError(t, w.value.epoch.value, w, lio, truth).Some? <==> Enclosed(lio, t, w.value.epoch) && Enclosed(truth, t, None))
  {
    hide InterpolatePose, InterpolatePosition, Normalize, RotationMatrix, Multiply, Inverse, Rotation, RotationMatrixValid, Unit, IsSqrt, Apply, Sub, Add, Enclosed;
    WitnessIsRotation(lio, truth, t, now, f);
    PositionExistsExactly(lio, t, MakeWitness(lio, truth, t, now, f).value.epoch);
    PositionExistsExactly(truth, t, None);
  }

  lemma LevelPose(f: Functions)
    requires IsSqrt(f.sqrt)
    ensures var p := InterpolatePose([At(0), At(2)], 1, f);
            p.Some? && Unit(p.value.orientation) && p.value.epoch == Some(1) && p.value.frame == None && p.value.child == None
  {
    hide Sort, Stamped, Filter, Slerp, IsSqrt, ExactAt, Bracket, Unit;
    var a, b := Timed(0, At(0)), Timed(2, At(2));
    StampedTwo(At(0), At(2));
    SortTwo(a, b);
    QueryTwo(a, b, 1);
    LevelStaysLevel(Fraction(0, 1, 2), f);
    SlerpIsUnit(LEVEL, LEVEL, Fraction(0, 1, 2), f);
  }

  lemma ExactPose(f: Functions)
    ensures InterpolatePose([At(1)], 1, f) == Some(At(1))
  {
    assert [At(1)][..0] == [];
    assert Stamped([At(1)]) == [Timed(1, At(1))];
    assert [Timed(1, At(1))][..0] == [] && Insert([], Timed(1, At(1))) == [Timed(1, At(1))];
    assert Sort([Timed(1, At(1))]) == [Timed(1, At(1))];
    assert ExactAt([Timed(1, At(1))], 1) == Some(Timed(1, At(1)));
  }

  /** A witness taken between stamps 0 and 2 of the localization: it exists, and at its own
      stamp there is no frame error. */
  lemma NoErrorWithoutSamples(f: Functions)
    requires IsSqrt(f.sqrt)
    ensures var lio, truth, now := [At(0), At(2)], [At(1)], Localization(Some(1), None, None, true, true);
            var w := MakeWitness(lio, truth, 1, now, f);
            w.Some? && w.value.epoch == Some(1) && FrameError(1, 1, w, lio, truth).None?
  {
    hide InterpolatePose, InterpolatePosition, Normalize, RotationMatrix, Multiply, Inverse, RotationMatrixValid, IsSqrt, Apply, Sub, Add;
    LevelPose(f);
    ExactPose(f);
    ZeroStampIsLost(f);
    NormalizeUnit(InterpolatePose([At(0), At(2)], 1, f).value.orientation, f.sqrt);
    NormalizeUnit(LEVEL, f.sqrt);
  }
}
