/**
 * The YAMNet verifier's score aggregation: per-class mean scores are
 * grouped by class name into baby-cry, cat and everything else, and the
 * baby score is reduced by how far the non-target evidence exceeds the
 * cat evidence.
 */
module Yamnet {
  import opened Wrappers
  import opened Text
  import opened Base
  import opened Numbers

  /** A class whose lowercased name mentions a baby or infant cry. */
  predicate IsBabyName(name: string) {
    Contains(Lower(name), "baby cry") || Contains(Lower(name), "infant cry")
  }

  /** A class whose lowercased name mentions a cat or a meow. */
  predicate IsCatName(name: string) {
    Contains(Lower(name), "cat") || Contains(Lower(name), "meow")
  }

  /** The positions of the names that `keep` accepts, in increasing order. */
  function Matching(names: seq<string>, keep: string -> bool): (r: seq<nat>)
    ensures forall k :: 0 <= k < |r| ==> r[k] < |names| && keep(names[r[k]])
    ensures forall i :: 0 <= i < |names| && keep(names[i]) ==> i in r
  {
    if names == [] then []
    else
      var r := Matching(names[..|names| - 1], keep);
      assert forall i :: 0 <= i < |names| - 1 ==> names[..|names| - 1][i] == names[i];
      if keep(names[|names| - 1]) then r + [|names| - 1] else r
  }

  /** `max(xs, default=d)`. */
  function MaxOr(xs: seq<real>, d: real): (m: real)
    ensures xs == [] ==> m == d
    ensures xs != [] ==> m in xs
    ensures forall x :: x in xs ==> x <= m
  {
    if xs == [] then d
    else if |xs| == 1 then xs[0]
    else
      var m := MaxOr(xs[1..], d);
      assert forall x :: x in xs ==> x == xs[0] || x in xs[1..];
      if xs[0] >= m then xs[0] else m
  }

  /** The scores at the given positions, when every position has a score. */
  function ScoresAt(scores: seq<real>, idx: seq<nat>): (r: Option<seq<real>>)
    ensures r.None? <==> exists k :: 0 <= k < |idx| && idx[k] >= |scores|
    ensures r.Some? ==> |r.value| == |idx| && forall k :: 0 <= k < |idx| ==> r.value[k] == scores[idx[k]]
  {
    if forall k :: 0 <= k < |idx| ==> idx[k] < |scores| then
      Some(seq(|idx|, k requires 0 <= k < |idx| => scores[idx[k]]))
    else None
  }

  /** The scores at the positions not in `excluded`, in order. */
  function ScoresOutside(scores: seq<real>, excluded: set<nat>): (r: seq<real>)
    ensures forall i :: 0 <= i < |scores| && i !in excluded ==> scores[i] in r
    ensures forall x :: x in r ==> exists i :: 0 <= i < |scores| && i !in excluded && scores[i] == x
  {
    if scores == [] then []
    else
      var n := |scores| - 1;
      var r := ScoresOutside(scores[..n], excluded);
      assert forall i :: 0 <= i < n ==> scores[..n][i] == scores[i];
      if n in excluded then r else r + [scores[n]]
  }

  /** The three group scores before suppression: the baby maximum, the cat
      maximum and the maximum over every other scored class, each 0 when
      its group is empty. `None` when a matched class has no score (the
      lookup raises). */
  function GroupScores(scores: seq<real>, names: seq<string>): Option<(real, real, real)> {
    var babyIdx := Matching(names, IsBabyName);
    var catIdx := Matching(names, IsCatName);
    match (ScoresAt(scores, babyIdx), ScoresAt(scores, catIdx))
    case (Some(baby), Some(cat)) =>
      var excluded := set k | k in babyIdx + catIdx;
      Some((MaxOr(baby, 0.0), MaxOr(cat, 0.0), MaxOr(ScoresOutside(scores, excluded), 0.0)))
    case _ => None
  }

  /** The suppressor is the cat score or the weighted non-target score,
      whichever is larger (the latter capped at 1); the baby score loses the
      excess of the suppressor over the cat score and is clamped to [0, 1]. */
  function Combine(baby: real, cat: real, nonTarget: real, nonCryWeight: real): (r: DetectionResult)
    ensures r.catScore >= cat
    ensures 0.0 <= r.babyScore <= 1.0
    ensures r.primaryScore == r.babyScore
  {
    var suppressor := MaxReal(cat, MinReal(1.0, nonCryWeight * nonTarget));
    var adjusted := MaxReal(0.0, MinReal(1.0, baby - MaxReal(0.0, suppressor - cat)));
    DetectionResult(adjusted, adjusted, suppressor)
  }

  /** `_aggregate_scores`. */
  function AggregateScores(scores: seq<real>, names: seq<string>, nonCryWeight: real): (r: Option<DetectionResult>)
    ensures r.None? <==>
      exists i :: 0 <= i < |names| && i >= |scores| && (IsBabyName(names[i]) || IsCatName(names[i]))
  {
    var babyIdx := Matching(names, IsBabyName);
    var catIdx := Matching(names, IsCatName);
    match GroupScores(scores, names)
    case Some((baby, cat, nonTarget)) => Some(Combine(baby, cat, nonTarget, nonCryWeight))
    case None =>
      if exists k :: 0 <= k < |babyIdx| && babyIdx[k] >= |scores| then
        var k :| 0 <= k < |babyIdx| && babyIdx[k] >= |scores|;
        assert IsBabyName(names[babyIdx[k]]);
        None
      else
        var k :| 0 <= k < |catIdx| && catIdx[k] >= |scores|;
        assert IsCatName(names[catIdx[k]]);
        None
  }

  /** The maximum over a matched group bounds the score of every class the
      group matches, is the score of one of them when the group matches
      anything, and is 0 when the group matches nothing. */
  lemma MatchedMaximum(scores: seq<real>, names: seq<string>, keep: string -> bool)
    requires ScoresAt(scores, Matching(names, keep)).Some?
    ensures var m := MaxOr(ScoresAt(scores, Matching(names, keep)).value, 0.0);
      && (forall i :: 0 <= i < |names| && keep(names[i]) ==> i < |scores| && scores[i] <= m)
      && ((exists i :: 0 <= i < |names| && keep(names[i])) ==>
            exists i :: 0 <= i < |names| && i < |scores| && keep(names[i]) && scores[i] == m)
      && ((forall i :: 0 <= i < |names| ==> !keep(names[i])) ==> m == 0.0)
  {
    var idx := Matching(names, keep);
    var group := ScoresAt(scores, idx).value;
    var m := MaxOr(group, 0.0);
    forall i | 0 <= i < |names| && keep(names[i])
      ensures i < |scores| && scores[i] <= m
    {
      var k :| 0 <= k < |idx| && idx[k] == i;
      assert group[k] == scores[i] && group[k] in group;
    }
    if idx != [] {
      assert keep(names[idx[0]]);
    }
    if exists i :: 0 <= i < |names| && keep(names[i]) {
      var j :| 0 <= j < |names| && keep(names[j]);
      assert j in idx;
      assert m in group;
      var k :| 0 <= k < |group| && group[k] == m;
      assert idx[k] < |names| && keep(names[idx[k]]) && scores[idx[k]] == m;
    }
  }

  /** The baby group score is the largest score of a baby-named class (it
      bounds them all and is one of them), or 0 when no class is
      baby-named; likewise for cats. */
  lemma GroupScoresAreMaxima(scores: seq<real>, names: seq<string>)
    requires GroupScores(scores, names).Some?
    ensures var (baby, cat, _) := GroupScores(scores, names).value;
      && (forall i :: 0 <= i < |names| && IsBabyName(names[i]) ==> i < |scores| && scores[i] <= baby)
      && (forall i :: 0 <= i < |names| && IsCatName(names[i]) ==> i < |scores| && scores[i] <= cat)
      && ((exists i :: 0 <= i < |names| && IsBabyName(names[i])) ==>
            exists i :: 0 <= i < |names| && i < |scores| && IsBabyName(names[i]) && scores[i] == baby)
      && ((exists i :: 0 <= i < |names| && IsCatName(names[i])) ==>
            exists i :: 0 <= i < |names| && i < |scores| && IsCatName(names[i]) && scores[i] == cat)
      && ((forall i :: 0 <= i < |names| ==> !IsBabyName(names[i])) ==> baby == 0.0)
      && ((forall i :: 0 <= i < |names| ==> !IsCatName(names[i])) ==> cat == 0.0)
  {
    MatchedMaximum(scores, names, IsBabyName);
    MatchedMaximum(scores, names, IsCatName);
  }

  /** A scored class outside both target groups: past the end of the name
      list, or named neither baby nor cat. */
  predicate NonTarget(scores: seq<real>, names: seq<string>, i: int) {
    0 <= i < |scores| && (i >= |names| || (!IsBabyName(names[i]) && !IsCatName(names[i])))
  }

  /** The positions excluded from the non-target group are exactly the
      baby- and cat-named ones. */
  lemma ExcludedAreTargets(names: seq<string>, i: nat)
    ensures i in (set k | k in Matching(names, IsBabyName) + Matching(names, IsCatName))
      <==> i < |names| && (IsBabyName(names[i]) || IsCatName(names[i]))
  {
    var b := Matching(names, IsBabyName);
    var c := Matching(names, IsCatName);
    if i in b + c {
      if i in b {
        var k :| 0 <= k < |b| && b[k] == i;
      } else {
        var k :| 0 <= k < |c| && c[k] == i;
      }
    }
  }

  /** The non-target score is the largest score of a scored class outside
      both target groups (it bounds them all and is one of them), or 0 when
      every scored class is baby- or cat-named. */
  lemma NonTargetIsMaximum(scores: seq<real>, names: seq<string>)
    requires GroupScores(scores, names).Some?
    ensures var nonTarget := GroupScores(scores, names).value.2;
      && (forall i :: NonTarget(scores, names, i) ==> scores[i] <= nonTarget)
      && ((exists i :: NonTarget(scores, names, i)) ==>
            exists i :: NonTarget(scores, names, i) && scores[i] == nonTarget)
      && ((forall i :: !NonTarget(scores, names, i)) ==> nonTarget == 0.0)
  {
    var excluded := set k | k in Matching(names, IsBabyName) + Matching(names, IsCatName);
    var rest := ScoresOutside(scores, excluded);
    var nonTarget := MaxOr(rest, 0.0);
    assert GroupScores(scores, names).value.2 == nonTarget;
    forall i | NonTarget(scores, names, i)
      ensures scores[i] in rest && scores[i] <= nonTarget
    {
      ExcludedAreTargets(names, i);
      assert scores[i] in rest;
    }
    if rest != [] {
      assert nonTarget in rest;
      var i :| 0 <= i < |scores| && i !in excluded && scores[i] == nonTarget;
      ExcludedAreTargets(names, i);
      assert NonTarget(scores, names, i);
    }
  }

  /** The suppressor never falls below the cat score, the adjusted baby score
      lies in [0, 1], and for a raw baby score in [0, 1] the adjustment only
      lowers it, leaving it as it is when the suppressor is the cat score. */
  lemma CombineBounds(baby: real, cat: real, nonTarget: real, nonCryWeight: real)
    requires 0.0 <= baby <= 1.0
    ensures Combine(baby, cat, nonTarget, nonCryWeight).babyScore <= baby
    ensures Combine(baby, cat, nonTarget, nonCryWeight).catScore == cat ==>
      Combine(baby, cat, nonTarget, nonCryWeight).babyScore == baby
  {
  }

  /** Speech at 0.55 with a clear baby cry at 0.62 and a quiet cat: the
      suppressor rises to the speech score and the baby score drops. */
  lemma SuppressionExample()
    ensures var r := Combine(0.62, 0.10, 0.55, 1.0);
      r.babyScore < 0.62 && r.catScore >= 0.55
  {
  }

  /** A clear baby cry over faint cat and speech keeps its score. */
  lemma ClearBabyExample()
    ensures var r := Combine(0.81, 0.12, 0.10, 1.0);
      r.babyScore > 0.7 && r.catScore < 0.2
  {
  }

  /**
   * The verifier backend's state that the model keeps: the clamped
   * non-target weight and the flags the runtime label reads. Loading the
   * network and scoring audio are outside the model.
   */
  class YamnetVerifier {
    var nonCryWeight: real
    var loaded: bool
    var lastUsedFallback: bool
    var lastGpuVisible: bool

    /** A negative weight is clamped to 0; nothing is loaded yet. */
    constructor(nonCryWeight: real)
      ensures this.nonCryWeight >= 0.0
      ensures nonCryWeight >= 0.0 ==> this.nonCryWeight == nonCryWeight
      ensures !loaded && !lastUsedFallback && !lastGpuVisible
    {
      this.nonCryWeight := MaxReal(0.0, nonCryWeight);
      loaded := false;
      lastUsedFallback := false;
      lastGpuVisible := false;
    }

    /** The backend and device the last scoring used. */
    function RuntimeLabel(): (r: string)
      reads this
      ensures lastUsedFallback ==> r == "yamnet=fallback device=cpu"
      ensures !lastUsedFallback && loaded ==>
        r == (if lastGpuVisible then "yamnet=active device=gpu" else "yamnet=active device=cpu")
      ensures !lastUsedFallback && !loaded ==> r == "yamnet=not_loaded device=unknown"
    {
      if lastUsedFallback then "yamnet=fallback device=cpu"
      else if loaded then (if lastGpuVisible then "yamnet=active device=gpu" else "yamnet=active device=cpu")
      else "yamnet=not_loaded device=unknown"
    }
  }
}
