/**
 * The alert gate: each evaluation classifies one window as a candidate,
 * pushes the (unsuppressed) verdict into a sliding window of the last M
 * verdicts, confirms when at least N of them are true, and lets an alert
 * through at most once per cooldown period.
 */
module Gating {
  import opened Wrappers
  import Decision
  import opened Base

  datatype GatingDecision = GatingDecision(
    candidate: bool, confirmed: bool, suppressedByCat: bool, readyForAlert: bool)

  /** The engine's tunable parameters; `confirmM` is also the capacity of
      the history window. */
  datatype GatingParams = GatingParams(
    primaryThreshold: real, babyThreshold: real, catWeight: real, marginThreshold: real,
    catSuppressThreshold: real, confirmN: int, confirmM: nat, cooldownSeconds: int)

  /** The engine's memory: the recent verdicts, oldest first, and when the
      last alert was let through (seconds on the caller's clock). */
  datatype GatingState = GatingState(history: seq<bool>, lastAlertAt: Option<real>)

  /** One evaluation's inputs; `now` is the clock reading the engine takes. */
  datatype Observation = Observation(primary: real, baby: real, cat: real, now: real)

  /** The newest `m` entries of `h`, what a bounded deque keeps after an append. */
  function Window(h: seq<bool>, m: nat): (r: seq<bool>)
    ensures |r| <= m && |r| <= |h|
    ensures r == h[|h| - |r|..]
    ensures |r| == |h| || |r| == m
  {
    if |h| <= m then h else h[|h| - m..]
  }

  function CountTrue(h: seq<bool>): nat {
    if h == [] then 0 else CountTrue(h[..|h| - 1]) + (if h[|h| - 1] then 1 else 0)
  }

  predicate IsCandidate(p: GatingParams, o: Observation) {
    && o.primary >= p.primaryThreshold
    && o.baby >= p.babyThreshold
    && o.baby - p.catWeight * o.cat >= p.marginThreshold
  }

  predicate SuppressedByCat(p: GatingParams, o: Observation) {
    o.cat >= p.catSuppressThreshold && !(o.baby > o.cat && o.baby >= p.babyThreshold)
  }

  predicate CooldownReady(p: GatingParams, s: GatingState, now: real) {
    s.lastAlertAt.None? || now - s.lastAlertAt.value >= p.cooldownSeconds as real
  }

  /** One evaluation: the new state and the decision. */
  function Decide(p: GatingParams, s: GatingState, o: Observation): (r: (GatingState, GatingDecision))
    ensures |r.0.history| <= p.confirmM
    ensures r.1.suppressedByCat ==> !r.1.readyForAlert
    ensures r.1.readyForAlert ==> r.1.confirmed && CooldownReady(p, s, o.now)
    ensures r.0.lastAlertAt == if r.1.readyForAlert then Some(o.now) else s.lastAlertAt
  {
    var candidate := IsCandidate(p, o);
    var suppressed := SuppressedByCat(p, o);
    var history := Window(s.history + [candidate && !suppressed], p.confirmM);
    var confirmed := CountTrue(history) >= p.confirmN;
    var ready := confirmed && !suppressed && CooldownReady(p, s, o.now);
    (GatingState(history, if ready then Some(o.now) else s.lastAlertAt),
     GatingDecision(candidate, confirmed, suppressed, ready))
  }

  /** The decision's four flags, each by the rule the engine applies. */
  lemma DecideFlags(p: GatingParams, s: GatingState, o: Observation)
    ensures var (s', d) := Decide(p, s, o);
      && (d.candidate <==> o.primary >= p.primaryThreshold && o.baby >= p.babyThreshold
                           && o.baby - p.catWeight * o.cat >= p.marginThreshold)
      && (d.suppressedByCat <==> o.cat >= p.catSuppressThreshold
                                 && !(o.baby > o.cat && o.baby >= p.babyThreshold))
      && s'.history == Window(s.history + [d.candidate && !d.suppressedByCat], p.confirmM)
      && (d.confirmed <==> CountTrue(s'.history) >= p.confirmN)
      && (d.readyForAlert <==>
            && d.confirmed && !d.suppressedByCat
            && (s.lastAlertAt.None? || o.now - s.lastAlertAt.value >= p.cooldownSeconds as real))
  {
    var d := Decide(p, s, o).1;
    assert d.candidate == IsCandidate(p, o);
    assert d.suppressedByCat == SuppressedByCat(p, o);
  }

  /** Once the baby score reaches its threshold, the engine's cat suppression
      is the verifier decision's cat-dominance rule. */
  lemma SuppressionMatchesVerifier(p: GatingParams, o: Observation)
    requires o.baby >= p.babyThreshold
    ensures SuppressedByCat(p, o) <==> (o.cat >= p.catSuppressThreshold && o.baby <= o.cat)
    ensures SuppressedByCat(p, o) ==>
      !Decision.PassesVerifierWithThresholds(DetectionResult(o.primary, o.baby, o.cat),
        p.babyThreshold, p.catWeight, p.marginThreshold, p.catSuppressThreshold)
  {
  }

  /** A sequence of evaluations from state `s`: the final state and every decision. */
  function Run(p: GatingParams, s: GatingState, obs: seq<Observation>): (r: (GatingState, seq<GatingDecision>))
    ensures |r.1| == |obs|
    decreases |obs|
  {
    if obs == [] then (s, [])
    else
      var (s1, d) := Decide(p, s, obs[0]);
      var (s2, ds) := Run(p, s1, obs[1..]);
      (s2, [d] + ds)
  }

  /** With a non-negative cooldown, any two alerts of a run are at least a
      cooldown apart, and every alert is at least a cooldown after the last
      alert before the run. */
  lemma {:induction false} AlertsSpaced(p: GatingParams, s: GatingState, obs: seq<Observation>)
    requires p.cooldownSeconds >= 0
    decreases |obs|
    ensures Spaced(p, s.lastAlertAt, obs, Run(p, s, obs).1)
  {
    if obs != [] {
      var r := Decide(p, s, obs[0]);
      var rest := obs[1..];
      AlertsSpaced(p, r.0, rest);
      RunStep(p, s, obs);
      SpacedCons(p, s.lastAlertAt, obs[0], r.1, r.0.lastAlertAt, rest, Run(p, r.0, rest).1);
      assert [obs[0]] + rest == obs;
    }
  }

  /** Alerts in `ds`, decided for `obs`, are a cooldown apart from each
      other and from the alert at `last`. */
  ghost predicate Spaced(p: GatingParams, last: Option<real>, obs: seq<Observation>, ds: seq<GatingDecision>) {
    && |ds| == |obs|
    && (forall i, j :: 0 <= i < j < |obs| && ds[i].readyForAlert && ds[j].readyForAlert ==>
          obs[j].now - obs[i].now >= p.cooldownSeconds as real)
    && (forall j :: 0 <= j < |obs| && ds[j].readyForAlert && last.Some? ==>
          obs[j].now - last.value >= p.cooldownSeconds as real)
  }

  /** A decision that alerts only once a cooldown has passed since `last`,
      and records its alert, keeps a spaced run spaced when put in front. */
  lemma SpacedCons(p: GatingParams, last: Option<real>, o: Observation, d: GatingDecision,
                   next: Option<real>, obs: seq<Observation>, ds: seq<GatingDecision>)
    requires p.cooldownSeconds >= 0
    requires Spaced(p, next, obs, ds)
    requires d.readyForAlert ==> next == Some(o.now) && (last.None? || o.now - last.value >= p.cooldownSeconds as real)
    requires !d.readyForAlert ==> next == last
    ensures Spaced(p, last, [o] + obs, [d] + ds)
  {
    var obs', ds' := [o] + obs, [d] + ds;
    forall j | 0 < j < |obs'|
      ensures obs'[j] == obs[j - 1] && ds'[j] == ds[j - 1]
    {
    }
  }

  /** The engine settings exercised by the confirmation test: primary 0.5,
      baby 0.4, weight 1.0, margin 0.1, suppress 0.7, 2 of 3, cooldown 120 s. */
  const ExampleParams := GatingParams(0.5, 0.4, 1.0, 0.1, 0.7, 2, 3, 120)

  /** Three clear windows evaluated less than a cooldown apart: the second
      confirms and alerts, the third is held back by the cooldown. */
  lemma ConfirmThenCooldownExample(t1: real, t2: real, t3: real)
    requires t3 - t2 < 120.0
    ensures var ds := Run(ExampleParams, GatingState([], None),
                          [Observation(0.8, 0.8, 0.1, t1), Observation(0.9, 0.9, 0.1, t2),
                           Observation(0.9, 0.9, 0.1, t3)]).1;
      !ds[0].readyForAlert && ds[1].readyForAlert && !ds[2].readyForAlert
  {
    var p := ExampleParams;
    var o1, o2, o3 := Observation(0.8, 0.8, 0.1, t1), Observation(0.9, 0.9, 0.1, t2), Observation(0.9, 0.9, 0.1, t3);
    var s1, s2 := GatingState([true], None), GatingState([true, true], Some(t2));
    ExampleFirstStep(t1);
    ExampleSecondStep(t2);
    ExampleThirdStep(t2, t3);
    RunStep(p, s2, [o3]);
    RunStep(p, s1, [o2, o3]);
    RunStep(p, GatingState([], None), [o1, o2, o3]);
  }

  /** The first clear window is a candidate, but one verdict does not confirm. */
  lemma ExampleFirstStep(t1: real)
    ensures Decide(ExampleParams, GatingState([], None), Observation(0.8, 0.8, 0.1, t1))
      == (GatingState([true], None), GatingDecision(true, false, false, false))
  {
    var o := Observation(0.8, 0.8, 0.1, t1);
    assert IsCandidate(ExampleParams, o) && !SuppressedByCat(ExampleParams, o);
    assert [] + [true] == [true] && [true][..0] == [];
  }

  /** The second clear window confirms and, with no alert before, alerts. */
  lemma ExampleSecondStep(t2: real)
    ensures Decide(ExampleParams, GatingState([true], None), Observation(0.9, 0.9, 0.1, t2))
      == (GatingState([true, true], Some(t2)), GatingDecision(true, true, false, true))
  {
    var o := Observation(0.9, 0.9, 0.1, t2);
    assert IsCandidate(ExampleParams, o) && !SuppressedByCat(ExampleParams, o);
    assert [true] + [true] == [true, true] && [true, true][..1] == [true];
    assert CountTrue([true, true]) == 2;
  }

  /** The third window, within the cooldown of the alert at `t2`, does not alert. */
  lemma ExampleThirdStep(t2: real, t3: real)
    requires t3 - t2 < 120.0
    ensures !Decide(ExampleParams, GatingState([true, true], Some(t2)), Observation(0.9, 0.9, 0.1, t3)).1.readyForAlert
  {
  }

  /** A run is its first step followed by the run from the state it leaves. */
  lemma RunStep(p: GatingParams, s: GatingState, obs: seq<Observation>)
    requires obs != []
    ensures Run(p, s, obs).1 == [Decide(p, s, obs[0]).1] + Run(p, Decide(p, s, obs[0]).0, obs[1..]).1
  {
  }

  /** A dominating cat score blocks the alert even with a one-of-one window
      and no cooldown. */
  lemma CatSuppressionExample(s: GatingState, now: real)
    ensures var d := Decide(GatingParams(0.5, 0.4, 1.0, 0.1, 0.3, 1, 1, 0), s,
                            Observation(0.9, 0.45, 0.8, now)).1;
      d.suppressedByCat && !d.readyForAlert
  {
  }

  /** `update_runtime`: given values replace their fields, clamped; the
      baby, weight, margin and suppress thresholds are never touched. */
  function UpdatedParams(p: GatingParams, primaryThreshold: Option<real>, confirmN: Option<int>,
                         confirmM: Option<int>, cooldownSeconds: Option<int>): (r: GatingParams)
    ensures r.babyThreshold == p.babyThreshold && r.catWeight == p.catWeight
    ensures r.marginThreshold == p.marginThreshold && r.catSuppressThreshold == p.catSuppressThreshold
    ensures r.primaryThreshold == if primaryThreshold.Some? then primaryThreshold.value else p.primaryThreshold
    ensures confirmN.Some? ==> r.confirmN >= 1 && (confirmN.value >= 1 ==> r.confirmN == confirmN.value)
    ensures confirmN.None? ==> r.confirmN == p.confirmN
    ensures confirmM.Some? ==> r.confirmM >= 1 && (confirmM.value >= 1 ==> r.confirmM == confirmM.value)
    ensures confirmM.None? ==> r.confirmM == p.confirmM
    ensures cooldownSeconds.Some? ==>
      r.cooldownSeconds >= 0 && (cooldownSeconds.value >= 0 ==> r.cooldownSeconds == cooldownSeconds.value)
    ensures cooldownSeconds.None? ==> r.cooldownSeconds == p.cooldownSeconds
  {
    p.(primaryThreshold := if primaryThreshold.Some? then primaryThreshold.value else p.primaryThreshold,
       confirmN := if confirmN.Some? then AtLeast(1, confirmN.value) else p.confirmN,
       confirmM := if confirmM.Some? then AtLeast(1, confirmM.value) else p.confirmM,
       cooldownSeconds := if cooldownSeconds.Some? then AtLeast(0, cooldownSeconds.value) else p.cooldownSeconds)
  }

  function AtLeast(lo: nat, x: int): nat {
    if x < lo then lo else x
  }

  /** The history after `update_runtime`: rebuilt with the newest entries
      only when the clamped window size actually changes. */
  function UpdatedHistory(p: GatingParams, history: seq<bool>, confirmM: Option<int>): (r: seq<bool>)
    requires |history| <= p.confirmM
    ensures |r| <= UpdatedParams(p, None, None, confirmM, None).confirmM
  {
    if confirmM.Some? && AtLeast(1, confirmM.value) != p.confirmM then
      Window(history, AtLeast(1, confirmM.value))
    else history
  }

  /** Resizing keeps exactly the newest min(len, new size) entries, in order;
      an unchanged or absent size keeps the history as it is. */
  lemma UpdatedHistoryKeepsNewest(p: GatingParams, history: seq<bool>, confirmM: Option<int>)
    requires |history| <= p.confirmM
    ensures var m := UpdatedParams(p, None, None, confirmM, None).confirmM;
      var keep := if |history| < m then |history| else m;
      UpdatedHistory(p, history, confirmM) == history[|history| - keep..]
  {
  }

  /** Shrinking a full five-entry window to two keeps the last two verdicts. */
  lemma ShrinkExample(p: GatingParams, a: bool, b: bool, c: bool, d: bool, e: bool)
    requires p.confirmM == 5
    ensures UpdatedHistory(p, [a, b, c, d, e], Some(2)) == [d, e]
  {
  }

  /**
   * The engine itself. Its parameters and memory are fields; `evaluate`
   * takes the clock reading as an argument.
   */
  class GatingEngine {
    var primaryThreshold: real
    var babyThreshold: real
    var catWeight: real
    var marginThreshold: real
    var catSuppressThreshold: real
    var confirmN: int
    var confirmM: nat
    var cooldownSeconds: int
    var history: seq<bool>
    var lastAlertAt: Option<real>

    function Params(): GatingParams
      reads this
    {
      GatingParams(primaryThreshold, babyThreshold, catWeight, marginThreshold,
                   catSuppressThreshold, confirmN, confirmM, cooldownSeconds)
    }

    function State(): GatingState
      reads this
    {
      GatingState(history, lastAlertAt)
    }

    /** The history never holds more than `confirmM` verdicts. */
    predicate Valid()
      reads this
    {
      |history| <= confirmM
    }

    /** A fresh engine; the window size must be non-negative, as a deque's
        maximum length must be. */
    constructor(babyThreshold: real, catWeight: real, marginThreshold: real, catSuppressThreshold: real,
                confirmN: int, confirmM: int, cooldownSeconds: int, primaryThreshold: real)
      requires confirmM >= 0
      ensures Valid()
      ensures Params() == GatingParams(primaryThreshold, babyThreshold, catWeight, marginThreshold,
                                       catSuppressThreshold, confirmN, confirmM, cooldownSeconds)
      ensures State() == GatingState([], None)
    {
      this.primaryThreshold := primaryThreshold;
      this.babyThreshold := babyThreshold;
      this.catWeight := catWeight;
      this.marginThreshold := marginThreshold;
      this.catSuppressThreshold := catSuppressThreshold;
      this.confirmN := confirmN;
      this.confirmM := confirmM;
      this.cooldownSeconds := cooldownSeconds;
      history := [];
      lastAlertAt := None;
    }

    /** `evaluate`: one step of `Decide`; the parameters stay as they are. */
    method Evaluate(primaryScore: real, babyScore: real, catScore: real, now: real) returns (d: GatingDecision)
      requires Valid()
      modifies this
      ensures Valid()
      ensures (State(), d) == Decide(old(Params()), old(State()), Observation(primaryScore, babyScore, catScore, now))
      ensures Params() == old(Params())
    {
      var o := Observation(primaryScore, babyScore, catScore, now);
      var p, st := Params(), State();
      var candidate := IsCandidate(p, o);
      var suppressed := SuppressedByCat(p, o);
      var h := Window(history + [candidate && !suppressed], confirmM);
      var confirmed := CountTrue(h) >= confirmN;
      var ready := confirmed && !suppressed && CooldownReady(p, st, now);
      history := h;
      if ready {
        lastAlertAt := Some(now);
      }
      d := GatingDecision(candidate, confirmed, suppressed, ready);
    }

    /** `update_runtime`: hot-swaps the given parameters and resizes the
        history window when its size changes. */
    method UpdateRuntime(primaryThreshold: Option<real>, confirmN: Option<int>,
                         confirmM: Option<int>, cooldownSeconds: Option<int>)
      requires Valid()
      modifies this
      ensures Valid()
      ensures Params() == UpdatedParams(old(Params()), primaryThreshold, confirmN, confirmM, cooldownSeconds)
      ensures history == UpdatedHistory(old(Params()), old(history), confirmM)
      ensures lastAlertAt == old(lastAlertAt)
    {
      if primaryThreshold.Some? {
        this.primaryThreshold := primaryThreshold.value;
      }
      if confirmN.Some? {
        this.confirmN := AtLeast(1, confirmN.value);
      }
      if confirmM.Some? {
        var newConfirmM := AtLeast(1, confirmM.value);
        if newConfirmM != this.confirmM {
          history := Window(history, newConfirmM);
          this.confirmM := newConfirmM;
        }
      }
      if cooldownSeconds.Some? {
        this.cooldownSeconds := AtLeast(0, cooldownSeconds.value);
      }
    }
  }
}
