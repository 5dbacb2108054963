/**
 * The poller's test conversations, replayed on the model: a `/status`
 * reply, `/test` while the feature is off, and `/cal_start phase2 20`
 * reaching its callback with the phase and the integer interval; and
 * `/cal_set` reaching its callback with the key and the whole value.
 */
module PollerExamples {
  import opened Wrappers
  import opened Text
  import opened Numbers
  import opened Poller

  /** A single word is its own command, lower-cased. */
  lemma SingleWord(w: string)
    requires w != [] && forall i :: 0 <= i < |w| ==> !IsSpace(w[i])
    ensures Words(w) == [w]
    ensures Command(w) == Lower(w)
  {
    WordsCons(w, "");
    assert w + "" == w;
    TrimNoop(w);
  }

  /** A word already in lower case is unchanged by lower-casing. */
  lemma LowerNoop(w: string)
    requires forall i :: 0 <= i < |w| ==> !('A' <= w[i] <= 'Z')
    ensures Lower(w) == w
  {
  }

  lemma StatusCommand()
    ensures Command("/status") == "/status"
  {
    SingleWord("/status");
    LowerNoop("/status");
  }

  lemma StatusText()
    ensures Render(Outcome("Status", true, "api=up classifier=ready")) == "Status: OK. api=up classifier=ready"
  {
    assert "Status" + ": OK" + ". " + "api=up classifier=ready" == "Status: OK. api=up classifier=ready";
  }

  /** `/status` answers with the status check's verdict, rendered
      "Status: OK. …" when the check succeeds. */
  lemma StatusExample(cfg: Config, watchers: seq<(string, Watch)>, chatId: string, now: real)
    requires cfg.statusCheck() == (true, "api=up classifier=ready")
    ensures var e := OnCommand(cfg, watchers, chatId, "/status", now);
      && e.reply == Some(Outcome("Status", true, "api=up classifier=ready"))
      && Render(e.reply.value) == "Status: OK. api=up classifier=ready"
      && e.calls == [StatusCheck]
  {
    StatusCommand();
    assert HandlerFor("/status") == StatusHandler;
    StatusText();
  }

  lemma TestCommand()
    ensures Command("/test") == "/test"
  {
    SingleWord("/test");
    LowerNoop("/test");
  }

  /** `/test` with the feature off replies that it is disabled and never
      reaches the test sender. */
  lemma TestDisabledExample(cfg: Config, watchers: seq<(string, Watch)>, chatId: string, now: real)
    requires !cfg.enableTestCommand
    ensures var e := OnCommand(cfg, watchers, chatId, "/test", now);
      && e == Effect(Some(TestDisabled), [], watchers)
      && Render(e.reply.value) == "Test command is disabled."
  {
    TestCommand();
    assert HandlerFor("/test") == TestHandler;
  }

  /** Three words separated by single spaces split into those words. */
  lemma ThreeWords(a: string, b: string, c: string)
    requires IsWord(a) && IsWord(b) && IsWord(c)
    ensures Words(a + " " + b + " " + c) == [a, b, c]
  {
    assert a + " " + b + " " + c == a + ([' '] + (b + ([' '] + c)));
    WordsCons(a, [' '] + (b + ([' '] + c)));
    WordsSkipSpace(' ', b + ([' '] + c));
    WordsCons(b, [' '] + c);
    WordsSkipSpace(' ', c);
    SingleWord(c);
  }

  /** The words of the start command of the poller test. */
  lemma CalStartWords()
    ensures Words("/cal_start phase2 20") == ["/cal_start", "phase2", "20"]
  {
    assert "/cal_start phase2 20" == "/cal_start" + " " + "phase2" + " " + "20";
    ThreeWords("/cal_start", "phase2", "20");
  }

  lemma TwentyParses()
    ensures ParseInt("20") == Some(20)
  {
    TrimNoop("20");
    assert "20"[..1] == "2";
    assert "2"[..0] == [];
  }

  lemma CalStartHandlerSelected()
    ensures HandlerFor("/cal_start") == CalStartHandler
  {
  }

  lemma CalStartCommand()
    ensures Command("/cal_start phase2 20") == "/cal_start"
  {
    CalStartWords();
    LowerNoop("/cal_start");
    TrimNoop("/cal_start");
  }

  /** A `/cal_start` with a phase and an integer interval reaches the
      callback with both. */
  lemma CalStartWithInterval(cfg: Config, watchers: seq<(string, Watch)>, chatId: string, text: string, now: real,
                             phase: string, arg: string, n: int)
    requires cfg.calStart.Some?
    requires Command(text) == "/cal_start" && Words(text) == ["/cal_start", phase, arg]
    requires ParseInt(arg) == Some(n) && Lower(Trim(phase)) == phase
    ensures var r := cfg.calStart.value(phase, Some(n));
      OnCommand(cfg, watchers, chatId, text, now)
        == Effect(Some(Outcome("Calibration start", r.0, r.1)), [CalStart(phase, Some(n))], watchers)
  {
    CalStartHandlerSelected();
    CalStartEffect(cfg, watchers, text);
  }

  lemma Phase2Canonical()
    ensures Lower(Trim("phase2")) == "phase2"
  {
    LowerNoop("phase2");
    TrimNoop("phase2");
  }

  /** `/cal_start phase2 20` calls the start callback once, with "phase2"
      and 20, and replies with its outcome. */
  lemma CalStartExample(cfg: Config, watchers: seq<(string, Watch)>, chatId: string, now: real)
    requires cfg.calStart.Some? && cfg.calStart.value("phase2", Some(20)) == (true, "started")
    ensures var e := OnCommand(cfg, watchers, chatId, "/cal_start phase2 20", now);
      && e.calls == [CalStart("phase2", Some(20))]
      && e.reply == Some(Outcome("Calibration start", true, "started"))
      && e.watchers == watchers
  {
    CalStartCommand();
    CalStartWords();
    TwentyParses();
    Phase2Canonical();
    CalStartWithInterval(cfg, watchers, chatId, "/cal_start phase2 20", now, "phase2", "20", 20);
  }

  /** The command word of a `/cal_set` message. */
  lemma CalSetCommand(rest: string)
    requires rest != [] && IsSpace(rest[0])
    ensures Command("/cal_set" + rest) == "/cal_set"
  {
    WordsCons("/cal_set", rest);
    LowerNoop("/cal_set");
    TrimNoop("/cal_set");
  }

  /** A `/cal_set` message with a key and a value goes to the set handler
      and reaches the callback with both. */
  lemma CalSetDispatch(cfg: Config, watchers: seq<(string, Watch)>, chatId: string, now: real, key: string, value: string)
    requires cfg.calSet.Some? && IsWord(key)
    requires value != [] && !IsSpace(value[0])
    ensures var r := cfg.calSet.value(key, value);
      OnCommand(cfg, watchers, chatId, "/cal_set" + " " + key + " " + value, now)
        == Effect(Some(Outcome("Calibration set", r.0, r.1)), [CalSet(key, value)], watchers)
  {
    var text := "/cal_set" + " " + key + " " + value;
    assert text == "/cal_set" + (" " + key + " " + value);
    CalSetCommand(" " + key + " " + value);
    assert HandlerFor("/cal_set") == CalSetHandler;
    CalSetArguments(cfg, watchers, "/cal_set", key, value);
  }

  lemma CatWeightIsWord()
    ensures IsWord("CAT_WEIGHT")
  {
  }

  /** `/cal_set CAT_WEIGHT 1.4` calls the set callback once, with the key
      and "1.4", and replies with its outcome. */
  lemma CalSetExample(cfg: Config, watchers: seq<(string, Watch)>, chatId: string, now: real)
    requires cfg.calSet.Some? && cfg.calSet.value("CAT_WEIGHT", "1.4") == (true, "CAT_WEIGHT=1.4")
    ensures var e := OnCommand(cfg, watchers, chatId, "/cal_set CAT_WEIGHT 1.4", now);
      && e.calls == [CalSet("CAT_WEIGHT", "1.4")]
      && e.reply == Some(Outcome("Calibration set", true, "CAT_WEIGHT=1.4"))
      && e.watchers == watchers
  {
    assert "/cal_set CAT_WEIGHT 1.4" == "/cal_set" + " " + "CAT_WEIGHT" + " " + "1.4";
    CatWeightIsWord();
    CalSetDispatch(cfg, watchers, chatId, now, "CAT_WEIGHT", "1.4");
  }

  /** A value with inner whitespace reaches the callback whole. */
  lemma CalSetSpacedValue(cfg: Config, watchers: seq<(string, Watch)>, chatId: string, now: real)
    requires cfg.calSet.Some?
    ensures OnCommand(cfg, watchers, chatId, "/cal_set CAT_WEIGHT 1.4 or so", now).calls
      == [CalSet("CAT_WEIGHT", "1.4 or so")]
  {
    assert "/cal_set CAT_WEIGHT 1.4 or so" == "/cal_set" + " " + "CAT_WEIGHT" + " " + "1.4 or so";
    CatWeightIsWord();
    CalSetDispatch(cfg, watchers, chatId, now, "CAT_WEIGHT", "1.4 or so");
  }
}
