/**
 * Calibration control: a persisted record saying whether a calibration
 * session is running, for which phase, how often progress is reported, and
 * which of the phase's parameters have been overridden.
 */
module Calibration {
  import opened Wrappers
  import opened Text
  import opened Numbers
  import opened StringOrder
  import opened Json
  import Dict

  const DefaultIntervalSeconds: int := 15
  const MinIntervalSeconds: int := 2
  const MaxIntervalSeconds: int := 600

  datatype ParamType = IntParam | FloatParam

  /** An override value: a Python `int` or a `float`. */
  datatype Value = IntValue(n: int) | FloatValue(d: Decimal)

  /** The parameters each phase may override, with their types; any other
      phase has none. */
  function PhaseSpec(phase: string): seq<(string, ParamType)> {
    if phase == "phase1" then
      [("PRIMARY_CRY_THRESHOLD", FloatParam), ("CONFIRM_N", IntParam),
       ("CONFIRM_M", IntParam), ("ALERT_COOLDOWN_SECONDS", IntParam)]
    else if phase == "phase2" then
      [("CRY_THRESHOLD", FloatParam), ("CAT_THRESHOLD", FloatParam),
       ("CAT_WEIGHT", FloatParam), ("MARGIN_THRESHOLD", FloatParam)]
    else []
  }

  predicate IsPhase(phase: string) {
    phase == "phase1" || phase == "phase2"
  }

  /** The control record; `overrides` is a dict in insertion order. */
  datatype CalibrationControl = CalibrationControl(
    active: bool, phase: string, intervalSeconds: int, overrides: seq<(string, Value)>)

  /** Inactive, phase 1, the default interval, no overrides. */
  function DefaultControl(): (c: CalibrationControl)
    ensures ValidControl(c)
  {
    CalibrationControl(false, "phase1", DefaultIntervalSeconds, [])
  }

  /** The control file as reading it finds it: missing, not decodable, or a
      decoded JSON document. */
  datatype ControlFile = Absent | Corrupt | Stored(payload: Json)

  datatype CalibrationError =
    | InvalidPhase
    | NotActive
    | NotAllowed(phase: string, allowed: seq<string>)
    | NegativeInteger
    | Unparsable

  /** The message each raised error carries; for text that is not a number
      it is the conversion's own message, which is not modelled. */
  function Message(e: CalibrationError): string {
    match e
    case InvalidPhase => "phase must be phase1 or phase2"
    case NotActive => "calibration is not active"
    case NotAllowed(phase, allowed) => "parameter not allowed for " + phase + ". allowed: " + Join(", ", allowed)
    case NegativeInteger => "integer value must be >= 0"
    case Unparsable => "could not convert the value"
  }

  function Clamp(i: int): (r: int)
    ensures MinIntervalSeconds <= r <= MaxIntervalSeconds
    ensures MinIntervalSeconds <= i <= MaxIntervalSeconds ==> r == i
    ensures i < MinIntervalSeconds ==> r == MinIntervalSeconds
    ensures i > MaxIntervalSeconds ==> r == MaxIntervalSeconds
  {
    if i < MinIntervalSeconds then MinIntervalSeconds
    else if i > MaxIntervalSeconds then MaxIntervalSeconds
    else i
  }

  /** `_to_interval`: `int(value)` clamped into [2, 600]; `None`, and values
      `int()` rejects (containers, text that is not an integer), give the
      default. */
  function ToInterval(value: Json, default: int): (r: int)
    ensures r == default || MinIntervalSeconds <= r <= MaxIntervalSeconds
    ensures value.JNull? ==> r == default
    ensures value.JInt? ==> r == Clamp(value.i)
    ensures !value.JNull? && PyInt(value).None? ==> r == default
    ensures !value.JNull? && PyInt(value).Some? ==> r == Clamp(PyInt(value).value)
  {
    if value.JNull? then default
    else
      match PyInt(value)
      case Some(i) => Clamp(i)
      case None => default
  }

  /** `_parse_typed_value`: an integer parameter takes a non-negative
      integer literal, a float parameter a decimal literal. */
  function ParseTyped(raw: string, t: ParamType): (r: Result<Value, CalibrationError>)
    ensures r.Ok? ==> WellTyped(t, r.value)
    ensures r.Err? ==> r.error == NegativeInteger || r.error == Unparsable
    ensures t == IntParam ==> (r == Err(Unparsable) <==> ParseInt(raw).None?)
    ensures t == IntParam ==> (r == Err(NegativeInteger) <==> ParseInt(raw).Some? && ParseInt(raw).value < 0)
    ensures t == IntParam && r.Ok? ==> r.value == IntValue(ParseInt(raw).value)
    ensures t == FloatParam ==> (r == Err(Unparsable) <==> ParseDecimal(raw).None?)
    ensures t == FloatParam ==> r.Ok? || r == Err(Unparsable)
    ensures t == FloatParam && r.Ok? ==> r.value == FloatValue(ParseDecimal(raw).value)
  {
    TrimTwice(raw);
    var text := Trim(raw);
    match t
    case IntParam =>
      (match ParseInt(text)
       case None => Err(Unparsable)
       case Some(n) => if n < 0 then Err(NegativeInteger) else Ok(IntValue(n)))
    case FloatParam =>
      (match ParseDecimal(text)
       case None => Err(Unparsable)
       case Some(d) => Ok(FloatValue(d)))
  }

  /** A value of the given type in the form loading produces: integers are
      non-negative, decimals canonical. */
  predicate WellTyped(t: ParamType, v: Value) {
    match v
    case IntValue(n) => t == IntParam && n >= 0
    case FloatValue(d) => t == FloatParam && d.Canonical()
  }

  /** An override entry the phase allows, under a name that is already
      stripped and upper-cased, with a value of the allowed type. */
  predicate ValidEntry(spec: seq<(string, ParamType)>, e: (string, Value)) {
    var t := Dict.Get(spec, e.0);
    t.Some? && WellTyped(t.value, e.1) && Upper(Trim(e.0)) == e.0
  }

  /** Overrides as loading leaves them: each key once, each entry valid. */
  predicate NormalOverrides(spec: seq<(string, ParamType)>, overrides: seq<(string, Value)>) {
    Dict.DistinctKeys(overrides) && forall k :: 0 <= k < |overrides| ==> ValidEntry(spec, overrides[k])
  }

  /** A control as loading produces it. */
  predicate ValidControl(c: CalibrationControl) {
    && IsPhase(c.phase)
    && MinIntervalSeconds <= c.intervalSeconds <= MaxIntervalSeconds
    && NormalOverrides(PhaseSpec(c.phase), c.overrides)
  }

  /** One member of the raw overrides: kept under its stripped, upper-cased
      name when the phase allows that name and its `str` parses. */
  function NormalizeEntry(spec: seq<(string, ParamType)>, acc: seq<(string, Value)>, member: (string, Json))
    : seq<(string, Value)>
  {
    var lookup := Upper(Trim(member.0));
    match Dict.Get(spec, lookup)
    case None => acc
    case Some(t) =>
      match ParseTyped(PyStr(member.1), t)
      case Err(_) => acc
      case Ok(v) => Dict.Put(acc, lookup, v)
  }

  /** The raw members folded into `acc`, first to last. */
  function NormalizeFrom(spec: seq<(string, ParamType)>, members: seq<(string, Json)>, acc: seq<(string, Value)>)
    : seq<(string, Value)>
    decreases |members|
  {
    if members == [] then acc
    else NormalizeFrom(spec, members[1..], NormalizeEntry(spec, acc, members[0]))
  }

  /** `_normalize_overrides`: anything but an object gives no overrides. */
  function NormalizedOverrides(phase: string, raw: Json): seq<(string, Value)> {
    if raw.JObject? then NormalizeFrom(PhaseSpec(phase), raw.members, []) else []
  }

  /** Folding keeps the overrides normal. */
  lemma {:induction false} NormalizeFromNormal(spec: seq<(string, ParamType)>, members: seq<(string, Json)>, acc: seq<(string, Value)>)
    requires NormalOverrides(spec, acc)
    ensures NormalOverrides(spec, NormalizeFrom(spec, members, acc))
    decreases |members|
  {
    if members != [] {
      var next := NormalizeEntry(spec, acc, members[0]);
      var lookup := Upper(Trim(members[0].0));
      var t := Dict.Get(spec, lookup);
      if t.Some? && ParseTyped(PyStr(members[0].1), t.value).Ok? {
        var v := ParseTyped(PyStr(members[0].1), t.value).value;
        UpperTrimIdempotent(members[0].0);
        PutNormal(spec, acc, lookup, v);
      }
      NormalizeFromNormal(spec, members[1..], next);
    }
  }

  /** Assigning a valid entry keeps the overrides normal. */
  lemma PutNormal(spec: seq<(string, ParamType)>, overrides: seq<(string, Value)>, key: string, v: Value)
    requires NormalOverrides(spec, overrides) && ValidEntry(spec, (key, v))
    ensures NormalOverrides(spec, Dict.Put(overrides, key, v))
  {
    var r := Dict.Put(overrides, key, v);
    Dict.PutDistinct(overrides, key, v);
    Dict.PutMembers(overrides, key, v);
    forall k | 0 <= k < |r| ensures ValidEntry(spec, r[k]) {
      assert r[k] in overrides || r[k] == (key, v);
    }
  }

  /** The phase a payload names: its `str`, stripped and lower-cased, or
      phase 1 when that is not a known phase. */
  function PayloadPhase(members: seq<(string, Json)>): (phase: string)
    ensures IsPhase(phase)
    ensures IsPhase(PhaseNamed(members)) ==> phase == PhaseNamed(members)
    ensures !IsPhase(PhaseNamed(members)) ==> phase == "phase1"
  {
    var named := PhaseNamed(members);
    if IsPhase(named) then named else "phase1"
  }

  /** The text the payload gives for its phase, stripped and lower-cased;
      a payload without one names phase 1. */
  function PhaseNamed(members: seq<(string, Json)>): string {
    Lower(Trim(PyStr(GetOr(members, "phase", JString("phase1")))))
  }

  /** The control a decoded object describes. */
  function ControlOf(members: seq<(string, Json)>): (c: CalibrationControl)
    ensures ValidControl(c)
  {
    var phase := PayloadPhase(members);
    var interval := ToInterval(GetOr(members, "interval_seconds", JNull), DefaultIntervalSeconds);
    var overrides := NormalizedOverrides(phase, GetOr(members, "overrides", JNull));
    var active := Truthy(GetOr(members, "active", JBool(false)));
    NormalizeFromNormal(PhaseSpec(phase), if GetOr(members, "overrides", JNull).JObject? then GetOr(members, "overrides", JNull).members else [], []);
    CalibrationControl(active, phase, interval, overrides)
  }

  /** `load_control` as written: `None` where it raises, which is when the
      file decodes to something other than an object. */
  function LoadControlAsWritten(file: ControlFile): (r: Option<CalibrationControl>)
    ensures r.None? <==> file.Stored? && !file.payload.JObject?
  {
    match file
    case Absent => Some(DefaultControl())
    case Corrupt => Some(DefaultControl())
    case Stored(payload) => if payload.JObject? then Some(ControlOf(payload.members)) else None
  }

  /** Loading an object keeps the phase it names once stripped and
      lower-cased when that is a known phase, and falls back to phase 1
      otherwise, including when the object names no phase. */
  lemma LoadedPhase(members: seq<(string, Json)>)
    ensures var c := LoadControl(Stored(JObject(members)));
      && (IsPhase(PhaseNamed(members)) ==> c.phase == PhaseNamed(members))
      && (!IsPhase(PhaseNamed(members)) ==> c.phase == "phase1")
      && ("phase" !in Dict.Keys(members) ==> c.phase == "phase1")
  {
    if "phase" !in Dict.Keys(members) {
      TrimNoop("phase1");
      assert Lower("phase1") == "phase1";
    }
  }

  /** A file holding a JSON list makes the as-written loader raise. */
  lemma LoadControlAsWrittenRaises()
    ensures LoadControlAsWritten(Stored(JArray([]))) == None
    ensures LoadControlAsWritten(Stored(JNull)) == None
  {
  }

  /** `load_control`, total: a file that is missing, not decodable or not
      an object gives the default control. */
  function LoadControl(file: ControlFile): (c: CalibrationControl)
    ensures ValidControl(c)
    ensures LoadControlAsWritten(file).Some? ==> c == LoadControlAsWritten(file).value
    ensures !(file.Stored? && file.payload.JObject?) ==> c == DefaultControl()
  {
    match file
    case Stored(payload) => if payload.JObject? then ControlOf(payload.members) else DefaultControl()
    case _ => DefaultControl()
  }

  function ValueJson(v: Value): Json {
    match v
    case IntValue(n) => JInt(n)
    case FloatValue(d) => JFloat(d)
  }

  function OverridesJson(overrides: seq<(string, Value)>): seq<(string, Json)> {
    if overrides == [] then []
    else [(overrides[0].0, ValueJson(overrides[0].1))] + OverridesJson(overrides[1..])
  }

  /** The document `save_control` writes; `stamp` is the `updated_at` time. */
  function Serialize(c: CalibrationControl, stamp: string): Json {
    JObject([("active", JBool(c.active)), ("phase", JString(c.phase)),
             ("interval_seconds", JInt(c.intervalSeconds)),
             ("overrides", JObject(OverridesJson(c.overrides))),
             ("updated_at", JString(stamp))])
  }

  /** A written value parses back to itself. */
  lemma ValueRoundTrip(t: ParamType, v: Value)
    requires WellTyped(t, v)
    ensures ParseTyped(PyStr(ValueJson(v)), t) == Ok(v)
  {
    match v
    case IntValue(n) =>
      PyStrNumbers(n, Decimal(0, 0));
      IntTextRoundTrip(n);
    case FloatValue(d) =>
      PyStrNumbers(0, d);
      FloatTextRoundTrip(d);
  }

  lemma IntTextRoundTrip(n: nat)
    ensures ParseTyped(IntToString(n), IntParam) == Ok(IntValue(n))
  {
    var s := IntToString(n);
    assert s == NatToDigits(n);
    TrimNoop(s);
    IntRoundTrip(n);
  }

  lemma FloatTextRoundTrip(d: Decimal)
    requires d.Canonical()
    ensures ParseTyped(RenderDecimal(d), FloatParam) == Ok(FloatValue(d))
  {
    var s := RenderDecimal(d);
    MagnitudeShape(Abs(d.mantissa), d.scale);
    TrimNoop(s);
    DecimalRoundTrip(d);
  }

  /** A member whose name the phase allows and whose value parses is
      assigned under its normalised name. */
  lemma NormalizeEntryKept(spec: seq<(string, ParamType)>, acc: seq<(string, Value)>, member: (string, Json), t: ParamType, v: Value)
    requires Dict.Get(spec, Upper(Trim(member.0))) == Some(t)
    requires ParseTyped(PyStr(member.1), t) == Ok(v)
    ensures NormalizeEntry(spec, acc, member) == Dict.Put(acc, Upper(Trim(member.0)), v)
  {
  }

  /** A valid entry under a new name, written out and folded back in, is
      appended. */
  lemma EntryRoundTrip(spec: seq<(string, ParamType)>, done: seq<(string, Value)>, e: (string, Value))
    requires ValidEntry(spec, e) && e.0 !in Dict.Keys(done)
    ensures NormalizeEntry(spec, done, (e.0, ValueJson(e.1))) == done + [e]
  {
    var t := Dict.Get(spec, e.0).value;
    ValueRoundTrip(t, e.1);
    NormalizeEntryKept(spec, done, (e.0, ValueJson(e.1)), t, e.1);
    Dict.PutNew(done, e.0, e.1);
  }

  /** In normal overrides the `i`-th entry is valid and its name is not
      among the earlier ones. */
  lemma NormalAt(spec: seq<(string, ParamType)>, overrides: seq<(string, Value)>, i: nat)
    requires NormalOverrides(spec, overrides) && i < |overrides|
    ensures ValidEntry(spec, overrides[i]) && overrides[i].0 !in Dict.Keys(overrides[..i])
  {
    var done := overrides[..i];
    Dict.KeysAt(done);
    forall k | 0 <= k < i ensures Dict.Keys(done)[k] != overrides[i].0 {
      assert Dict.Keys(done)[k] == overrides[k].0;
    }
  }

  /** Folding the written entries from the `i`-th on, after the first `i`,
      rebuilds all of them. */
  lemma {:induction false} OverridesRoundTrip(spec: seq<(string, ParamType)>, overrides: seq<(string, Value)>, i: nat)
    requires NormalOverrides(spec, overrides) && i <= |overrides|
    ensures NormalizeFrom(spec, OverridesJson(overrides[i..]), overrides[..i]) == overrides
    decreases |overrides| - i
  {
    if i == |overrides| {
      assert overrides[..i] == overrides;
    } else {
      var written := OverridesJson(overrides[i..]);
      assert written[0] == (overrides[i].0, ValueJson(overrides[i].1));
      assert overrides[i..][1..] == overrides[i + 1..];
      assert written[1..] == OverridesJson(overrides[i + 1..]);
      NormalAt(spec, overrides, i);
      EntryRoundTrip(spec, overrides[..i], overrides[i]);
      assert overrides[..i] + [overrides[i]] == overrides[..i + 1];
      OverridesRoundTrip(spec, overrides, i + 1);
    }
  }

  /** The phase names survive stripping and lower-casing. */
  lemma PhaseNamesCanonical(phase: string)
    requires IsPhase(phase)
    ensures Lower(Trim(phase)) == phase
  {
    TrimNoop(phase);
    forall i | 0 <= i < |phase| ensures LowerChar(phase[i]) == phase[i] {
    }
  }

  /** Each field `save_control` writes is read back under its own name. */
  lemma SerializedFields(c: CalibrationControl, stamp: string)
    ensures var members := Serialize(c, stamp).members;
      && GetOr(members, "active", JBool(false)) == JBool(c.active)
      && GetOr(members, "phase", JString("phase1")) == JString(c.phase)
      && GetOr(members, "interval_seconds", JNull) == JInt(c.intervalSeconds)
      && GetOr(members, "overrides", JNull) == JObject(OverridesJson(c.overrides))
  {
    var members := Serialize(c, stamp).members;
    assert Dict.DistinctKeys(members);
    Dict.KeysDistinct(members, 0);
    Dict.KeysDistinct(members, 1);
    Dict.KeysDistinct(members, 2);
    Dict.KeysDistinct(members, 3);
  }

  /** Loading what was saved gives back the saved control, for every control
      loading can produce. */
  lemma SaveLoadRoundTrip(c: CalibrationControl, stamp: string)
    requires ValidControl(c)
    ensures LoadControl(Stored(Serialize(c, stamp))) == c
  {
    var members := Serialize(c, stamp).members;
    SerializedFields(c, stamp);
    assert PayloadPhase(members) == c.phase by {
      assert PyStr(JString(c.phase)) == c.phase;
      PhaseNamesCanonical(c.phase);
    }
    assert NormalizedOverrides(c.phase, JObject(OverridesJson(c.overrides))) == c.overrides by {
      assert c.overrides[0..] == c.overrides && c.overrides[..0] == [];
      OverridesRoundTrip(PhaseSpec(c.phase), c.overrides, 0);
    }
    assert ControlOf(members) == c;
  }

  /** Loading is idempotent through a save. */
  lemma LoadSaveLoad(file: ControlFile, stamp: string)
    ensures LoadControl(Stored(Serialize(LoadControl(file), stamp))) == LoadControl(file)
  {
    SaveLoadRoundTrip(LoadControl(file), stamp);
  }

  /** `start_calibration`'s new control, or its error. */
  function StartControl(phase: string, interval: Option<int>): (r: Result<CalibrationControl, CalibrationError>)
    ensures r.Ok? ==> ValidControl(r.value)
  {
    var normalized := Lower(Trim(phase));
    if !IsPhase(normalized) then Err(InvalidPhase)
    else
      var seconds := ToInterval(if interval.Some? then JInt(interval.value) else JNull, DefaultIntervalSeconds);
      Ok(CalibrationControl(true, normalized, seconds, []))
  }

  /** Starting fails exactly on an unknown phase; otherwise the session is
      active for the named phase, with no overrides and the interval clamped
      (or the default when none is given). */
  lemma StartOutcome(phase: string, interval: Option<int>)
    ensures StartControl(phase, interval).Err? <==> !IsPhase(Lower(Trim(phase)))
    ensures StartControl(phase, interval).Err? ==> StartControl(phase, interval).error == InvalidPhase
    ensures var r := StartControl(phase, interval);
      r.Ok? ==>
        && r.value.active && r.value.phase == Lower(Trim(phase)) && r.value.overrides == []
        && r.value.intervalSeconds == (if interval.Some? then Clamp(interval.value) else DefaultIntervalSeconds)
  {
  }

  /** `stop_calibration`'s new control: inactive, same phase and interval,
      no overrides. */
  function StopControl(previous: CalibrationControl): (c: CalibrationControl)
    ensures ValidControl(previous) ==> ValidControl(c)
    ensures !c.active && c.overrides == []
    ensures c.phase == previous.phase && c.intervalSeconds == previous.intervalSeconds
  {
    CalibrationControl(false, previous.phase, previous.intervalSeconds, [])
  }

  /** `set_calibration_interval`'s new control: only the interval changes. */
  function WithInterval(current: CalibrationControl, interval: int): (c: CalibrationControl)
    ensures ValidControl(current) ==> ValidControl(c)
    ensures c == current.(intervalSeconds := Clamp(interval))
  {
    current.(intervalSeconds := ToInterval(JInt(interval), DefaultIntervalSeconds))
  }

  /** `set_override`'s new control, the stored key and the value, or the error. */
  function OverrideControl(current: CalibrationControl, parameter: string, raw: string)
    : (r: Result<(CalibrationControl, string, Value), CalibrationError>)
    ensures ValidControl(current) && r.Ok? ==> ValidControl(r.value.0)
  {
    if !current.active then Err(NotActive)
    else
      var key := Upper(Trim(parameter));
      var spec := PhaseSpec(current.phase);
      match Dict.Get(spec, key)
      case None => Err(NotAllowed(current.phase, SortedSet(Dict.Keys(spec))))
      case Some(t) =>
        match ParseTyped(raw, t)
        case Err(e) => Err(e)
        case Ok(v) =>
          var updated := current.(overrides := Dict.Put(current.overrides, key, v));
          if ValidControl(current) then
            UpperTrimIdempotent(parameter);
            PutNormal(spec, current.overrides, key, v);
            Ok((updated, key, v))
          else Ok((updated, key, v))
  }

  /** Setting an override fails when the session is inactive, when the
      phase does not allow the name, or when the value does not parse (or
      is a negative integer); on success only that override changes. */
  lemma OverrideOutcome(current: CalibrationControl, parameter: string, raw: string)
    ensures var r := OverrideControl(current, parameter, raw);
      var key := Upper(Trim(parameter));
      var t := Dict.Get(PhaseSpec(current.phase), key);
      && (!current.active ==> r == Err(NotActive))
      && (current.active && t.None? ==> r.Err? && r.error.NotAllowed?)
      && (current.active && t.Some? && ParseTyped(raw, t.value).Err? ==> r == Err(ParseTyped(raw, t.value).error))
      && (r.Ok? <==> current.active && t.Some? && ParseTyped(raw, t.value).Ok?)
      && (r.Ok? ==>
            && r.value.1 == key && r.value.2 == ParseTyped(raw, t.value).value
            && r.value.0.active == current.active && r.value.0.phase == current.phase
            && r.value.0.intervalSeconds == current.intervalSeconds
            && Dict.Get(r.value.0.overrides, key) == Some(r.value.2)
            && forall other :: other != key ==> Dict.Get(r.value.0.overrides, other) == Dict.Get(current.overrides, other))
  {
    var r := OverrideControl(current, parameter, raw);
    if r.Ok? {
      Dict.PutGet(current.overrides, r.value.1, r.value.2);
      forall other | other != r.value.1
        ensures Dict.Get(r.value.0.overrides, other) == Dict.Get(current.overrides, other)
      {
        Dict.PutOther(current.overrides, r.value.1, r.value.2, other);
      }
    }
  }

  /** `str(value)` of an override. */
  function ValueText(v: Value): string {
    PyStr(ValueJson(v))
  }

  /** The replay lines for `keys`, one `/cal_set` command each. */
  function SetLines(overrides: seq<(string, Value)>, keys: seq<string>): (lines: seq<string>)
    requires forall k :: 0 <= k < |keys| ==> keys[k] in Dict.Keys(overrides)
    ensures |lines| == |keys|
  {
    if keys == [] then []
    else
      SetLines(overrides, keys[..|keys| - 1])
      + ["/cal_set " + keys[|keys| - 1] + " " + ValueText(Dict.Get(overrides, keys[|keys| - 1]).value)]
  }

  /** The lines of the stop summary. */
  function SummaryLines(previous: CalibrationControl): (lines: seq<string>) {
    var keys := SortedSet(Dict.Keys(previous.overrides));
    ["Calibration stopped for " + previous.phase + ". Alerts re-enabled and .env defaults restored.",
     "Final command state:",
     "/cal_start " + previous.phase + " " + IntToString(previous.intervalSeconds)]
    + SetLines(previous.overrides, keys)
    + (if previous.overrides == [] then ["(no parameter overrides were applied)"] else [])
  }

  /** The summary's third line restarts the session with its phase and interval. */
  lemma SummaryStart(previous: CalibrationControl)
    ensures var lines := SummaryLines(previous);
      |lines| >= 3 && lines[2] == "/cal_start " + previous.phase + " " + IntToString(previous.intervalSeconds)
  {
  }

  /** Without overrides the summary ends with a note saying so. */
  lemma SummaryNoOverrides(previous: CalibrationControl)
    requires previous.overrides == []
    ensures var lines := SummaryLines(previous);
      |lines| == 4 && lines[3] == "(no parameter overrides were applied)"
  {
    assert SortedSet(Dict.Keys(previous.overrides)) == [];
  }

  /** With overrides the summary has one line per override after the three
      head lines. */
  lemma SummaryCount(previous: CalibrationControl)
    requires Dict.DistinctKeys(previous.overrides)
    requires previous.overrides != []
    ensures |SummaryLines(previous)| == 3 + |previous.overrides|
  {
    SortedKeysCount(previous.overrides);
  }

  /** After the head lines the summary replays the overrides in ascending
      name order, one `SetLines` line each. */
  lemma SummarySets(previous: CalibrationControl)
    ensures var lines := SummaryLines(previous);
      var keys := SortedSet(Dict.Keys(previous.overrides));
      |lines| >= 3 + |keys| && lines[3..3 + |keys|] == SetLines(previous.overrides, keys)
  {
  }

  /** Distinct keys, sorted, are as many as the entries. */
  lemma SortedKeysCount(overrides: seq<(string, Value)>)
    requires Dict.DistinctKeys(overrides)
    ensures |SortedSet(Dict.Keys(overrides))| == |overrides|
  {
    Dict.KeysAt(overrides);
    SortedSetSorted(Dict.Keys(overrides));
    DistinctCount(Dict.Keys(overrides), SortedSet(Dict.Keys(overrides)));
  }

  /** Line `k` of the replay sets `keys[k]` to its override's value. */
  lemma {:induction false} SetLinesAt(overrides: seq<(string, Value)>, keys: seq<string>)
    requires forall k :: 0 <= k < |keys| ==> keys[k] in Dict.Keys(overrides)
    ensures forall k :: 0 <= k < |keys| ==>
      SetLines(overrides, keys)[k] == "/cal_set " + keys[k] + " " + ValueText(Dict.Get(overrides, keys[k]).value)
  {
    if keys != [] {
      SetLinesAt(overrides, keys[..|keys| - 1]);
    }
  }

  /** A list without repeats and a strictly sorted list of the same strings
      have the same length. */
  lemma {:induction false} DistinctCount(xs: seq<string>, sorted: seq<string>)
    requires forall i, j :: 0 <= i < j < |xs| ==> xs[i] != xs[j]
    requires StrictlySorted(sorted)
    requires forall y :: y in sorted <==> y in xs
    ensures |sorted| == |xs|
  {
    var a := set y | y in xs;
    var b := set y | y in sorted;
    assert a == b;
    DistinctCard(xs);
    forall i, j | 0 <= i < j < |sorted| ensures sorted[i] != sorted[j] {
      LessIrreflexive(sorted[i]);
    }
    DistinctCard(sorted);
  }

  lemma {:induction false} DistinctCard(xs: seq<string>)
    requires forall i, j :: 0 <= i < j < |xs| ==> xs[i] != xs[j]
    ensures |set y | y in xs| == |xs|
  {
    if xs != [] {
      var rest := xs[1..];
      DistinctCard(rest);
      assert (set y | y in xs) == (set y | y in rest) + {xs[0]};
      assert xs[0] !in rest;
    }
  }

  /** The status payload `read_status` returns for a file. */
  function StatusOf(file: ControlFile): (r: seq<(string, Json)>)
    ensures file.Absent? || file.Corrupt? ==> r == []
    ensures file.Stored? && !file.payload.JObject? ==> r == []
    ensures file.Stored? && file.payload.JObject? ==> r == file.payload.members
  {
    if file.Stored? && file.payload.JObject? then file.payload.members else []
  }

  /**
   * The artifact directory's two calibration files: the control file and
   * the status file.
   */
  class ControlStore {
    var control: ControlFile
    var status: ControlFile

    constructor(control: ControlFile, status: ControlFile)
      ensures this.control == control && this.status == status
    {
      this.control := control;
      this.status := status;
    }

    /** The corrected `load_control` (`LoadControl`), building the
        overrides entry by entry: a non-object file gives the default
        control where the code as written raises. */
    method Load() returns (c: CalibrationControl)
      ensures c == LoadControl(control)
    {
      if !(control.Stored? && control.payload.JObject?) {
        return DefaultControl();
      }
      var members := control.payload.members;
      var phase := PayloadPhase(members);
      var interval := ToInterval(GetOr(members, "interval_seconds", JNull), DefaultIntervalSeconds);
      var overrides := NormalizeOverrides(phase, GetOr(members, "overrides", JNull));
      var active := Truthy(GetOr(members, "active", JBool(false)));
      c := CalibrationControl(active, phase, interval, overrides);
    }

    /** `save_control`. */
    method Save(c: CalibrationControl, stamp: string)
      modifies this
      ensures control == Stored(Serialize(c, stamp)) && status == old(status)
      ensures ValidControl(c) ==> LoadControl(control) == c
    {
      control := Stored(Serialize(c, stamp));
      if ValidControl(c) {
        SaveLoadRoundTrip(c, stamp);
      }
    }

    /** `start_calibration`; an unknown phase leaves the file alone. */
    method Start(phase: string, interval: Option<int>, stamp: string)
      returns (r: Result<CalibrationControl, CalibrationError>)
      modifies this
      ensures r == StartControl(phase, interval)
      ensures r.Err? ==> control == old(control)
      ensures r.Ok? ==> control == Stored(Serialize(r.value, stamp)) && LoadControl(control) == r.value
      ensures status == old(status)
    {
      r := StartControl(phase, interval);
      if r.Ok? {
        Save(r.value, stamp);
      }
    }

    /** `stop_calibration` over the corrected loader: the control before
        and the one stored now. */
    method Stop(stamp: string) returns (previous: CalibrationControl, current: CalibrationControl)
      modifies this
      ensures previous == LoadControl(old(control)) && current == StopControl(previous)
      ensures control == Stored(Serialize(current, stamp)) && LoadControl(control) == current
      ensures status == old(status)
    {
      previous := Load();
      current := StopControl(previous);
      Save(current, stamp);
    }

    /** `set_calibration_interval` over the corrected loader. */
    method SetInterval(interval: int, stamp: string) returns (updated: CalibrationControl)
      modifies this
      ensures updated == WithInterval(LoadControl(old(control)), interval)
      ensures control == Stored(Serialize(updated, stamp)) && LoadControl(control) == updated
      ensures status == old(status)
    {
      var current := Load();
      updated := WithInterval(current, interval);
      Save(updated, stamp);
    }

    /** `set_override` over the corrected loader; a rejected override
        leaves the file alone. */
    method SetOverride(parameter: string, raw: string, stamp: string)
      returns (r: Result<(CalibrationControl, string, Value), CalibrationError>)
      modifies this
      ensures r == OverrideControl(LoadControl(old(control)), parameter, raw)
      ensures r.Err? ==> control == old(control)
      ensures r.Ok? ==> control == Stored(Serialize(r.value.0, stamp)) && LoadControl(control) == r.value.0
      ensures status == old(status)
    {
      var current := Load();
      r := OverrideControl(current, parameter, raw);
      if r.Ok? {
        Save(r.value.0, stamp);
      }
    }

    /** `write_status`. */
    method WriteStatus(payload: seq<(string, Json)>)
      modifies this
      ensures status == Stored(JObject(payload)) && control == old(control)
      ensures ReadStatus() == payload
    {
      status := Stored(JObject(payload));
    }

    /** `read_status`: a missing, undecodable or non-object file reads as empty. */
    function ReadStatus(): seq<(string, Json)>
      reads this
    {
      StatusOf(status)
    }
  }

  /** `_normalize_overrides`, entry by entry. */
  method NormalizeOverrides(phase: string, raw: Json) returns (normalized: seq<(string, Value)>)
    ensures normalized == NormalizedOverrides(phase, raw)
  {
    if !raw.JObject? {
      return [];
    }
    var spec := PhaseSpec(phase);
    var members := raw.members;
    normalized := [];
    var i := 0;
    while i < |members|
      invariant 0 <= i <= |members|
      invariant NormalizeFrom(spec, members[i..], normalized) == NormalizeFrom(spec, members, [])
    {
      var key := members[i].0;
      var value := members[i].1;
      var lookup := Upper(Trim(key));
      var expected := Dict.Get(spec, lookup);
      if expected.Some? {
        var parsed := ParseTyped(PyStr(value), expected.value);
        if parsed.Ok? {
          normalized := Dict.Put(normalized, lookup, parsed.value);
        }
      }
      assert members[i..][1..] == members[i + 1..];
      i := i + 1;
    }
  }

  /** Extending the keys by one appends that key's line. */
  lemma SetLinesSnoc(overrides: seq<(string, Value)>, keys: seq<string>, i: nat)
    requires forall k :: 0 <= k < |keys| ==> keys[k] in Dict.Keys(overrides)
    requires i < |keys|
    ensures SetLines(overrides, keys[..i + 1])
      == SetLines(overrides, keys[..i]) + ["/cal_set " + keys[i] + " " + ValueText(Dict.Get(overrides, keys[i]).value)]
  {
    assert keys[..i + 1][..i] == keys[..i] && keys[..i + 1][i] == keys[i];
  }

  /** `build_stop_summary`: the summary lines joined by newlines. */
  method BuildStopSummary(previous: CalibrationControl) returns (summary: string)
    ensures summary == Join("\n", SummaryLines(previous))
  {
    var head := ["Calibration stopped for " + previous.phase + ". Alerts re-enabled and .env defaults restored.",
                 "Final command state:",
                 "/cal_start " + previous.phase + " " + IntToString(previous.intervalSeconds)];
    var keys := SortedSet(Dict.Keys(previous.overrides));
    assert forall k :: 0 <= k < |keys| ==> keys[k] in Dict.Keys(previous.overrides);
    var lines := head;
    var i := 0;
    assert keys[..0] == [];
    while i < |keys|
      invariant 0 <= i <= |keys|
      invariant lines == head + SetLines(previous.overrides, keys[..i])
    {
      SetLinesSnoc(previous.overrides, keys, i);
      lines := lines + ["/cal_set " + keys[i] + " " + ValueText(Dict.Get(previous.overrides, keys[i]).value)];
      i := i + 1;
    }
    assert keys[..i] == keys;
    if previous.overrides == [] {
      lines := lines + ["(no parameter overrides were applied)"];
    }
    assert lines == SummaryLines(previous);
    summary := Join("\n", lines);
  }
}
