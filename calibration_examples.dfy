/**
 * The two calibration sessions the store's tests walk through, replayed on
 * the model: a phase 2 session that overrides the cat weight, and a phase 1
 * session whose stop summary replays its start and its override.
 */
module CalibrationExamples {
  import opened Wrappers
  import opened Text
  import opened Numbers
  import opened Calibration
  import opened StringOrder
  import Dict

  /** The decimal 1.4 and the decimal 0.7. */
  const OnePointFour := Decimal(14, 1)
  const ZeroPointSeven := Decimal(7, 1)

  lemma ParseOnePointFour()
    ensures ParseTyped("1.4", FloatParam) == Ok(FloatValue(OnePointFour))
    ensures OnePointFour.Value() == 1.4
  {
    TrimNoop("1.4");
    IndexOfAt("1.4", '.', 1);
    assert "1.4"[..1] == "1" && "1.4"[2..] == "4" && "1" + "4" == "14";
    assert DigitsValue("14") == 14 by {
      assert "14"[..1] == "1";
      assert "1"[..0] == [];
    }
  }

  lemma ParseZeroPointSeven()
    ensures ParseTyped("0.7", FloatParam) == Ok(FloatValue(ZeroPointSeven))
    ensures ZeroPointSeven.Value() == 0.7
  {
    TrimNoop("0.7");
    IndexOfAt("0.7", '.', 1);
    assert "0.7"[..1] == "0" && "0.7"[2..] == "7" && "0" + "7" == "07";
    assert DigitsValue("07") == 7 by {
      assert "07"[..1] == "0";
      assert "0"[..0] == [];
    }
  }

  /** A name already stripped and upper-case is its own lookup key. */
  lemma KeyIsItself(name: string)
    requires name != [] && !IsSpace(name[0]) && !IsSpace(name[|name| - 1])
    requires forall i :: 0 <= i < |name| ==> !('a' <= name[i] <= 'z')
    ensures Upper(Trim(name)) == name
  {
    TrimNoop(name);
  }

  /** The phase 2 session of the override test, after `CAT_WEIGHT` is set
      to 1.4. */
  function CatWeightSession(): CalibrationControl {
    CalibrationControl(true, "phase2", 15, [("CAT_WEIGHT", FloatValue(OnePointFour))])
  }

  lemma StartPhase2()
    ensures StartControl("phase2", Some(15)) == Ok(CalibrationControl(true, "phase2", 15, []))
  {
    PhaseNamesCanonical("phase2");
  }

  lemma OverrideCatWeight()
    ensures OverrideControl(CalibrationControl(true, "phase2", 15, []), "CAT_WEIGHT", "1.4")
      == Ok((CatWeightSession(), "CAT_WEIGHT", FloatValue(OnePointFour)))
  {
    KeyIsItself("CAT_WEIGHT");
    ParseOnePointFour();
    assert Dict.Get(PhaseSpec("phase2"), "CAT_WEIGHT") == Some(FloatParam);
  }

  lemma CatWeightSessionValid()
    ensures ValidControl(CatWeightSession())
  {
    var entry := CatWeightSession().overrides[0];
    assert Dict.Get(PhaseSpec("phase2"), "CAT_WEIGHT") == Some(FloatParam);
    assert OnePointFour.Canonical();
    KeyIsItself("CAT_WEIGHT");
    assert ValidEntry(PhaseSpec("phase2"), entry);
  }

  /** Start phase 2, then set `CAT_WEIGHT` to "1.4": the override is stored
      as 1.4 and loading the saved file shows it. */
  lemma CatWeightOverrideExample(stamp: string)
    ensures StartControl("phase2", Some(15)) == Ok(CalibrationControl(true, "phase2", 15, []))
    ensures OverrideControl(CalibrationControl(true, "phase2", 15, []), "CAT_WEIGHT", "1.4")
      == Ok((CatWeightSession(), "CAT_WEIGHT", FloatValue(OnePointFour)))
    ensures Dict.Get(LoadControl(Stored(Serialize(CatWeightSession(), stamp))).overrides, "CAT_WEIGHT")
      == Some(FloatValue(OnePointFour))
    ensures OnePointFour.Value() == 1.4
  {
    StartPhase2();
    OverrideCatWeight();
    CatWeightSessionValid();
    ParseOnePointFour();
    SaveLoadRoundTrip(CatWeightSession(), stamp);
  }

  /** The phase 1 session of the summary test: started every 12 seconds,
      with `PRIMARY_CRY_THRESHOLD` set to 0.7. */
  function ThresholdSession(): CalibrationControl {
    CalibrationControl(true, "phase1", 12, [("PRIMARY_CRY_THRESHOLD", FloatValue(ZeroPointSeven))])
  }

  lemma StartPhase1()
    ensures StartControl("phase1", Some(12)) == Ok(CalibrationControl(true, "phase1", 12, []))
  {
    PhaseNamesCanonical("phase1");
  }

  lemma OverridePrimaryThreshold()
    ensures OverrideControl(CalibrationControl(true, "phase1", 12, []), "PRIMARY_CRY_THRESHOLD", "0.7")
      == Ok((ThresholdSession(), "PRIMARY_CRY_THRESHOLD", FloatValue(ZeroPointSeven)))
  {
    KeyIsItself("PRIMARY_CRY_THRESHOLD");
    ParseZeroPointSeven();
    assert Dict.Get(PhaseSpec("phase1"), "PRIMARY_CRY_THRESHOLD") == Some(FloatParam);
  }

  lemma ThresholdSessionValid()
    ensures ValidControl(ThresholdSession())
  {
    var entry := ThresholdSession().overrides[0];
    assert Dict.Get(PhaseSpec("phase1"), "PRIMARY_CRY_THRESHOLD") == Some(FloatParam);
    assert ZeroPointSeven.Canonical();
    KeyIsItself("PRIMARY_CRY_THRESHOLD");
    assert ValidEntry(PhaseSpec("phase1"), entry);
  }

  /** Starting phase 1 every 12 seconds and setting `PRIMARY_CRY_THRESHOLD`
      to "0.7" builds that session, which loading gives back once saved. */
  lemma ThresholdSessionBuilt(stamp: string)
    ensures StartControl("phase1", Some(12)) == Ok(CalibrationControl(true, "phase1", 12, []))
    ensures OverrideControl(CalibrationControl(true, "phase1", 12, []), "PRIMARY_CRY_THRESHOLD", "0.7")
      == Ok((ThresholdSession(), "PRIMARY_CRY_THRESHOLD", FloatValue(ZeroPointSeven)))
    ensures LoadControl(Stored(Serialize(ThresholdSession(), stamp))) == ThresholdSession()
  {
    StartPhase1();
    OverridePrimaryThreshold();
    ThresholdSessionValid();
    SaveLoadRoundTrip(ThresholdSession(), stamp);
  }

  lemma TwelveText()
    ensures IntToString(12) == "12"
  {
    assert NatToDigits(12) == NatToDigits(1) + [DigitChar(2)];
  }

  lemma ZeroPointSevenText()
    ensures ValueText(FloatValue(ZeroPointSeven)) == "0.7"
  {
    assert Padded(7, 1) == "07" by {
      assert NatToDigits(7) == "7";
      assert Zeros(1) == "0";
    }
  }

  lemma ThresholdSessionKeys()
    ensures SortedSet(Dict.Keys(ThresholdSession().overrides)) == ["PRIMARY_CRY_THRESHOLD"]
  {
  }

  lemma ThresholdSummaryStart()
    ensures |SummaryLines(ThresholdSession())| >= 3
    ensures SummaryLines(ThresholdSession())[2] == "/cal_start phase1 12"
  {
    TwelveText();
    SummaryStart(ThresholdSession());
    assert "/cal_start " + "phase1" + " " + "12" == "/cal_start phase1 12";
  }

  /** A single override replays as a single `/cal_set` line. */
  lemma SingleSetLine(key: string, v: Value)
    ensures SetLines([(key, v)], [key]) == ["/cal_set " + key + " " + ValueText(v)]
  {
    assert [key][..0] == [];
  }

  lemma SetLineText()
    ensures "/cal_set " + "PRIMARY_CRY_THRESHOLD" + " " + "0.7" == "/cal_set PRIMARY_CRY_THRESHOLD 0.7"
  {
  }

  lemma ThresholdSetLines()
    ensures SetLines(ThresholdSession().overrides, ["PRIMARY_CRY_THRESHOLD"]) == ["/cal_set PRIMARY_CRY_THRESHOLD 0.7"]
  {
    SingleSetLine("PRIMARY_CRY_THRESHOLD", FloatValue(ZeroPointSeven));
    ZeroPointSevenText();
    SetLineText();
  }

  lemma ThresholdSummaryLength()
    ensures |SummaryLines(ThresholdSession())| == 4
  {
    SummaryCount(ThresholdSession());
  }

  lemma ThresholdSummarySet()
    ensures |SummaryLines(ThresholdSession())| == 4
    ensures SummaryLines(ThresholdSession())[3] == "/cal_set PRIMARY_CRY_THRESHOLD 0.7"
  {
    ThresholdSummaryLength();
    ThresholdSessionKeys();
    ThresholdSetLines();
    SummarySets(ThresholdSession());
  }

  /** The summary of that session replays `/cal_start phase1 12` and
      `/cal_set PRIMARY_CRY_THRESHOLD 0.7`. */
  lemma ThresholdSessionSummary()
    ensures var lines := SummaryLines(ThresholdSession());
      && |lines| == 4
      && lines[2] == "/cal_start phase1 12"
      && lines[3] == "/cal_set PRIMARY_CRY_THRESHOLD 0.7"
  {
    ThresholdSummaryStart();
    ThresholdSummarySet();
  }

  /** Start, override, stop: the stop returns the running session, stores
      it inactive with the same phase and interval, and its summary holds
      the two replay commands. */
  lemma StopSummaryExample(stamp: string)
    ensures var previous := LoadControl(Stored(Serialize(ThresholdSession(), stamp)));
      var lines := SummaryLines(previous);
      && previous == ThresholdSession()
      && StopControl(previous) == CalibrationControl(false, "phase1", 12, [])
      && lines[2] == "/cal_start phase1 12"
      && lines[3] == "/cal_set PRIMARY_CRY_THRESHOLD 0.7"
  {
    ThresholdSessionBuilt(stamp);
    ThresholdSessionSummary();
  }
}
