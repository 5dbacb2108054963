/**
 * The Telegram command poller: how one update is read and dispatched to a
 * command handler, how a batch of updates advances the update offset, and
 * one tick of the calibration watch loop. Replies go to an outbox in the
 * order they are sent; the notifier's registration and the calibration
 * callbacks are functions fixed at construction, and every invocation of
 * one is logged.
 */
module Poller {
  import opened Wrappers
  import opened Text
  import opened Numbers
  import opened Json
  import Dict

  /** A watched chat: seconds between status replies and when the next is due. */
  datatype Watch = Watch(interval: real, nextAt: real)

  /** One invocation of a callback, with its arguments. */
  datatype Call =
    | Register(chatId: string, acceptNewUsers: bool)
    | StatusCheck
    | TestSend(chatId: string)
    | CalHelp
    | CalStart(phase: string, interval: Option<int>)
    | CalSet(parameter: string, value: string)
    | CalParams
    | CalStatus
    | CalStop
    | CalWatchInterval

  /** The constructor's flags and callbacks; an optional callback that was
      not supplied is `None`. */
  datatype Config = Config(
    acceptNewUsers: bool,
    enableTestCommand: bool,
    register: (string, bool) -> bool,
    statusCheck: () -> (bool, string),
    testSender: string -> (bool, string),
    helpText: Option<() -> string>,
    calStart: Option<(string, Option<int>) -> (bool, string)>,
    calSet: Option<(string, string) -> (bool, string)>,
    calParams: Option<() -> (bool, string)>,
    calStatus: Option<() -> (bool, string)>,
    calStop: Option<() -> (bool, string)>,
    watchInterval: Option<() -> int>)

  /** The offset, the watchers by chat in insertion order, the replies sent
      as (chat, text) and the callbacks invoked. */
  datatype PollerState = PollerState(
    offset: int, watchers: seq<(string, Watch)>, outbox: seq<(string, Reply)>, calls: seq<Call>)

  /** What one command does: the reply it sends, if any, the callbacks it
      invokes and the watchers it leaves. */
  datatype Effect = Effect(reply: Option<Reply>, calls: seq<Call>, watchers: seq<(string, Watch)>)

  /** A reply the poller sends: one of its fixed notices, the outcome of a
      callback, the help text, or the confirmation of a watch. */
  datatype Reply =
    | Registered
    | RegistrationClosed
    | TestDisabled
    | HelpUnavailable
    | StartUnavailable
    | StartUsage
    | IntervalNotInteger
    | SetUnavailable
    | SetUsage
    | StatusUnavailable
    | ParamsUnavailable
    | WatchUsage
    | WatchStopped
    | WatchNotActive
    | StopUnavailable
    | TickUnavailable
    | Outcome(topic: string, ok: bool, detail: string)
    | Help(text: string)
    | WatchEnabled(interval: real)

  /** The text of a reply as it is sent. An outcome reads
      `f"{topic}: OK. {detail}"` or `f"{topic}: ERROR. {detail}"`; a watch
      confirmation shows `int()` of the interval. */
  function Render(r: Reply): string {
    match r
    case Registered => "Registration successful. You will receive baby-cry alerts."
    case RegistrationClosed => "Registration is currently closed."
    case TestDisabled => "Test command is disabled."
    case HelpUnavailable => "Calibration commands are unavailable."
    case StartUnavailable => "Calibration start is unavailable."
    case StartUsage => "Usage: /cal_start phase1|phase2 [interval_sec]"
    case IntervalNotInteger => "Interval must be an integer number of seconds."
    case SetUnavailable => "Calibration parameter updates are unavailable."
    case SetUsage => "Usage: /cal_set <param> <value>"
    case StatusUnavailable => "Calibration status is unavailable."
    case ParamsUnavailable => "Calibration params are unavailable."
    case WatchUsage => "Usage: /cal_watch [interval_sec]"
    case WatchStopped => "Calibration watch stopped."
    case WatchNotActive => "Calibration watch is not active for this chat."
    case StopUnavailable => "Calibration stop is unavailable."
    case TickUnavailable => "Calibration status command is unavailable."
    case Outcome(topic, ok, detail) => topic + (if ok then ": OK" else ": ERROR") + ". " + detail
    case Help(text) => text
    case WatchEnabled(interval) =>
      "Calibration watch enabled every " + IntToString(interval.Floor) + "s. Use /cal_watch_stop to stop."
  }

  /** The commands the poller answers. */
  const Commands: set<string> := {"/start", "/status", "/test", "/cal", "/cal_start", "/cal_set",
                                  "/cal_params", "/cal_status", "/cal_watch", "/cal_watch_stop", "/cal_stop"}

  /** `max(2.0, min(interval, 600.0))`. */
  function ClampWatch(interval: real): (r: real)
    ensures 2.0 <= r <= 600.0
    ensures 2.0 <= interval <= 600.0 ==> r == interval
  {
    MaxReal(2.0, MinReal(interval, 600.0))
  }

  /** The command of a message: its first word, stripped and lower-cased. */
  function Command(text: string): string {
    var parts := Words(text);
    if parts == [] then "" else Lower(Trim(parts[0]))
  }

  /** `/start`: register the chat, closed or open as configured. */
  function OnStart(cfg: Config, watchers: seq<(string, Watch)>, chatId: string): Effect {
    var added := cfg.register(chatId, cfg.acceptNewUsers);
    Effect(Some(if added then Registered else RegistrationClosed), [Register(chatId, cfg.acceptNewUsers)], watchers)
  }

  /** `/status`: the status check's verdict and detail. */
  function OnStatus(cfg: Config, watchers: seq<(string, Watch)>): Effect {
    var r := cfg.statusCheck();
    Effect(Some(Outcome("Status", r.0, r.1)), [StatusCheck], watchers)
  }

  /** `/test`: send a test alert to the chat, when the feature is enabled. */
  function OnTest(cfg: Config, watchers: seq<(string, Watch)>, chatId: string): Effect {
    if !cfg.enableTestCommand then Effect(Some(TestDisabled), [], watchers)
    else
      var r := cfg.testSender(chatId);
      Effect(Some(Outcome("Test", r.0, r.1)), [TestSend(chatId)], watchers)
  }

  /** `/cal`: the calibration help text. */
  function OnCalHelp(cfg: Config, watchers: seq<(string, Watch)>): Effect {
    match cfg.helpText
    case None => Effect(Some(HelpUnavailable), [], watchers)
    case Some(help) => Effect(Some(Help(help())), [CalHelp], watchers)
  }

  /** `/cal_start PHASE [INTERVAL]`. */
  function OnCalStart(cfg: Config, watchers: seq<(string, Watch)>, text: string): Effect {
    var parts := Words(text);
    var interval := if |parts| >= 3 then ParseInt(parts[2]) else None;
    if cfg.calStart.None? then Effect(Some(StartUnavailable), [], watchers)
    else if |parts| < 2 then Effect(Some(StartUsage), [], watchers)
    else if |parts| >= 3 && interval.None? then Effect(Some(IntervalNotInteger), [], watchers)
    else
      var phase := Lower(Trim(parts[1]));
      var r := cfg.calStart.value(phase, interval);
      Effect(Some(Outcome("Calibration start", r.0, r.1)), [CalStart(phase, interval)], watchers)
  }

  /** `/cal_set PARAM VALUE`: the value is the rest of the text. */
  function OnCalSet(cfg: Config, watchers: seq<(string, Watch)>, text: string): Effect {
    var parts := Split(text, Some(2));
    if cfg.calSet.None? then Effect(Some(SetUnavailable), [], watchers)
    else if |parts| < 3 then Effect(Some(SetUsage), [], watchers)
    else
      var r := cfg.calSet.value(parts[1], parts[2]);
      Effect(Some(Outcome("Calibration set", r.0, r.1)), [CalSet(parts[1], parts[2])], watchers)
  }

  /** `/cal_status`. */
  function OnCalStatus(cfg: Config, watchers: seq<(string, Watch)>): Effect {
    match cfg.calStatus
    case None => Effect(Some(StatusUnavailable), [], watchers)
    case Some(status) =>
      var r := status();
      Effect(Some(Outcome("Calibration", r.0, r.1)), [CalStatus], watchers)
  }

  /** `/cal_params`. */
  function OnCalParams(cfg: Config, watchers: seq<(string, Watch)>): Effect {
    match cfg.calParams
    case None => Effect(Some(ParamsUnavailable), [], watchers)
    case Some(params) =>
      var r := params();
      Effect(Some(Outcome("Calibration params", r.0, r.1)), [CalParams], watchers)
  }

  /** The interval `/cal_watch` settles on, once clamped: the argument when
      there is one, else the callback's interval, else 15 seconds. */
  function WatchInterval(cfg: Config, text: string): (r: real)
    ensures 2.0 <= r <= 600.0
  {
    var parts := Words(text);
    var requested :=
      if |parts| >= 2 && ParseDecimal(parts[1]).Some? then ParseDecimal(parts[1]).value.Value()
      else if cfg.watchInterval.Some? then cfg.watchInterval.value() as real
      else 15.0;
    ClampWatch(requested)
  }

  /** `/cal_watch [INTERVAL]`: watch this chat from `now` on. An argument
      that is not a number earns the usage reply. */
  function OnCalWatch(cfg: Config, watchers: seq<(string, Watch)>, chatId: string, text: string, now: real): Effect {
    var parts := Words(text);
    if |parts| >= 2 && ParseDecimal(parts[1]).None? then Effect(Some(WatchUsage), [], watchers)
    else
      var asked := if |parts| < 2 && cfg.watchInterval.Some? then [CalWatchInterval] else [];
      var interval := WatchInterval(cfg, text);
      Effect(Some(WatchEnabled(interval)), asked, Dict.Put(watchers, chatId, Watch(interval, now)))
  }

  /** `/cal_watch_stop`: stop watching this chat. */
  function OnCalWatchStop(watchers: seq<(string, Watch)>, chatId: string): Effect {
    var existed := chatId in Dict.Keys(watchers);
    Effect(Some(if existed then WatchStopped else WatchNotActive), [], Dict.Remove(watchers, chatId))
  }

  /** `/cal_stop`: all watches end when the stop succeeds. */
  function OnCalStop(cfg: Config, watchers: seq<(string, Watch)>): Effect {
    match cfg.calStop
    case None => Effect(Some(StopUnavailable), [], watchers)
    case Some(stop) =>
      var r := stop();
      Effect(Some(Outcome("Calibration stop", r.0, r.1)), [CalStop], if r.0 then [] else watchers)
  }

  /** The handler a command selects. */
  datatype Handler =
    | StartHandler | StatusHandler | TestHandler | HelpHandler | CalStartHandler | CalSetHandler
    | CalParamsHandler | CalStatusHandler | CalWatchHandler | CalWatchStopHandler | CalStopHandler
    | NoHandler

  /** The chain of command tests in `_handle_update`. */
  function HandlerFor(command: string): Handler {
    if command == "/start" then StartHandler
    else if command == "/status" then StatusHandler
    else if command == "/test" then TestHandler
    else if command == "/cal" then HelpHandler
    else if command == "/cal_start" then CalStartHandler
    else if command == "/cal_set" then CalSetHandler
    else if command == "/cal_params" then CalParamsHandler
    else if command == "/cal_status" then CalStatusHandler
    else if command == "/cal_watch" then CalWatchHandler
    else if command == "/cal_watch_stop" then CalWatchStopHandler
    else if command == "/cal_stop" then CalStopHandler
    else NoHandler
  }

  /** What the selected handler does; no handler does nothing. */
  function Run(handler: Handler, cfg: Config, watchers: seq<(string, Watch)>, chatId: string, text: string, now: real): Effect {
    match handler
    case StartHandler => OnStart(cfg, watchers, chatId)
    case StatusHandler => OnStatus(cfg, watchers)
    case TestHandler => OnTest(cfg, watchers, chatId)
    case HelpHandler => OnCalHelp(cfg, watchers)
    case CalStartHandler => OnCalStart(cfg, watchers, text)
    case CalSetHandler => OnCalSet(cfg, watchers, text)
    case CalParamsHandler => OnCalParams(cfg, watchers)
    case CalStatusHandler => OnCalStatus(cfg, watchers)
    case CalWatchHandler => OnCalWatch(cfg, watchers, chatId, text, now)
    case CalWatchStopHandler => OnCalWatchStop(watchers, chatId)
    case CalStopHandler => OnCalStop(cfg, watchers)
    case NoHandler => Effect(None, [], watchers)
  }

  /** A message's effect: its command's handler run on it. */
  function OnCommand(cfg: Config, watchers: seq<(string, Watch)>, chatId: string, text: string, now: real): Effect {
    Run(HandlerFor(Command(text)), cfg, watchers, chatId, text, now)
  }

  /** What an update amounts to: Python raises (the update or its message
      or chat is present but not an object), there is nothing to answer, or
      a stripped, non-empty text arrived from a stripped, non-empty chat id. */
  datatype Incoming = Raises | Silent | Message(chatId: string, text: string)

  /** `x or {}`. */
  function OrEmpty(j: Json): Json {
    if Truthy(j) then j else JObject([])
  }

  /** The head of `_handle_update`. */
  function ReadUpdate(update: Json): (r: Incoming)
    ensures r.Message? ==> r.chatId != [] && r.text != [] && Trim(r.text) == r.text
  {
    if !update.JObject? then Raises
    else
      var message := OrEmpty(GetOr(update.members, "message", JNull));
      if !message.JObject? then Raises
      else
        var text := Trim(PyStr(GetOr(message.members, "text", JString(""))));
        var chat := OrEmpty(GetOr(message.members, "chat", JNull));
        if !chat.JObject? then Raises
        else
          var chatId := Trim(PyStr(GetOr(chat.members, "id", JString(""))));
          if chatId == [] || text == [] then Silent
          else
            TrimNoop(text);
            Message(chatId, text)
  }

  /** The state after a command in `chatId` had `effect`. */
  function Apply(s: PollerState, chatId: string, effect: Effect): PollerState {
    s.(watchers := effect.watchers,
       outbox := s.outbox + (if effect.reply.Some? then [(chatId, effect.reply.value)] else []),
       calls := s.calls + effect.calls)
  }

  /** `_handle_update`: the new state, and whether Python raises. */
  function OnUpdate(cfg: Config, s: PollerState, update: Json, now: real): (PollerState, bool) {
    match ReadUpdate(update)
    case Raises => (s, true)
    case Silent => (s, false)
    case Message(chatId, text) => (Apply(s, chatId, OnCommand(cfg, s.watchers, chatId, text, now)), false)
  }

  /** `int(update.get("update_id", 0))`; `None` where Python raises. */
  function UpdateId(update: Json): Option<int> {
    if update.JObject? then PyInt(GetOr(update.members, "update_id", JInt(0))) else None
  }

  /** The offset once an update with id `id` is taken: past that id, never back. */
  function Advance(s: PollerState, id: int): (r: PollerState)
    ensures r.offset >= s.offset && r.offset > id
    ensures r.offset == s.offset || r.offset == id + 1
    ensures r.(offset := s.offset) == s
  {
    s.(offset := if id + 1 > s.offset then id + 1 else s.offset)
  }

  /** One update of a poll: read its id (raising without one), advance the
      offset past it, then handle it. */
  function Step(cfg: Config, s: PollerState, update: Json, now: real): (PollerState, bool) {
    match UpdateId(update)
    case None => (s, true)
    case Some(id) => OnUpdate(cfg, Advance(s, id), update, now)
  }

  /** The loop of one poll, for any step: each update in turn; the first
      that raises ends the batch. */
  function Poll(step: (PollerState, Json) -> (PollerState, bool), s: PollerState, updates: seq<Json>): (PollerState, bool)
    decreases |updates|
  {
    if updates == [] then (s, false)
    else
      var handled := step(s, updates[0]);
      if handled.1 then handled else Poll(step, handled.0, updates[1..])
  }

  /** `Step` with the configuration and the clock reading fixed;
      `Poll(Stepper(cfg, now), s, updates)` is the body of one poll of the
      bot API. */
  function Stepper(cfg: Config, now: real): (PollerState, Json) -> (PollerState, bool) {
    (st, update) => Step(cfg, st, update, now)
  }

  /** The reply every due watcher gets in a tick. */
  function TickText(cfg: Config): Reply {
    match cfg.calStatus
    case None => TickUnavailable
    case Some(status) =>
      var (ok, detail) := status();
      Outcome("Calibration", ok, detail)
  }

  /** What a due watcher becomes: rescheduled when the status callback exists
      and reports success, removed otherwise. */
  function TickValue(cfg: Config, w: Watch, now: real): Option<Watch> {
    if cfg.calStatus.Some? && cfg.calStatus.value().0 then Some(Watch(w.interval, now + MaxReal(2.0, w.interval)))
    else None
  }

  /** The loop body of `_run_watch` for the watch `w` of `chatId`. */
  function TickOne(cfg: Config, chatId: string, w: Watch, s: PollerState, now: real): PollerState {
    if now < w.nextAt then s
    else
      s.(outbox := s.outbox + [(chatId, TickText(cfg))],
         calls := s.calls + (if cfg.calStatus.Some? then [CalStatus] else []),
         watchers :=
           match TickValue(cfg, w, now)
           case Some(moved) => Dict.Put(s.watchers, chatId, moved)
           case None => Dict.Remove(s.watchers, chatId))
  }

  /** The turn of a due watcher when the status callback exists, written out. */
  lemma TickOneDue(cfg: Config, chatId: string, w: Watch, s: PollerState, now: real)
    requires cfg.calStatus.Some? && now >= w.nextAt
    ensures var r := cfg.calStatus.value();
      TickOne(cfg, chatId, w, s, now) == PollerState(s.offset,
        if r.0 then Dict.Put(s.watchers, chatId, Watch(w.interval, now + MaxReal(2.0, w.interval))) else Dict.Remove(s.watchers, chatId),
        s.outbox + [(chatId, Outcome("Calibration", r.0, r.1))], s.calls + [CalStatus])
  {
  }

  /** One watch-loop tick over the watchers listed in `items`. */
  function TickFrom(cfg: Config, items: seq<(string, Watch)>, s: PollerState, now: real): PollerState
    decreases |items|
  {
    if items == [] then s
    else TickFrom(cfg, items[1..], TickOne(cfg, items[0].0, items[0].1, s, now), now)
  }

  /** One tick over the watchers as they are when it starts. */
  function Tick(cfg: Config, s: PollerState, now: real): PollerState {
    TickFrom(cfg, s.watchers, s, now)
  }

  /** The chats in `items` whose watch is due at `now`, in order. */
  function Due(items: seq<(string, Watch)>, now: real): seq<string> {
    if items == [] then []
    else (if now < items[0].1.nextAt then [] else [items[0].0]) + Due(items[1..], now)
  }

  /** The same text sent to each chat in turn. */
  function Broadcast(chats: seq<string>, text: Reply): (r: seq<(string, Reply)>)
    ensures |r| == |chats| && forall i :: 0 <= i < |chats| ==> r[i] == (chats[i], text)
  {
    if chats == [] then [] else [(chats[0], text)] + Broadcast(chats[1..], text)
  }

  function Repeat(c: Call, n: nat): (r: seq<Call>)
    ensures |r| == n && forall i :: 0 <= i < n ==> r[i] == c
  {
    if n == 0 then [] else [c] + Repeat(c, n - 1)
  }

  // ---------------------------------------------------------------------
  // Properties of update handling

  /** A message from a blank chat id or with blank text changes nothing. */
  lemma BlankUpdateIgnored(cfg: Config, s: PollerState, update: Json, now: real)
    requires update.JObject?
    requires var message := OrEmpty(GetOr(update.members, "message", JNull));
      && message.JObject?
      && OrEmpty(GetOr(message.members, "chat", JNull)).JObject?
      && (Trim(PyStr(GetOr(message.members, "text", JString("")))) == []
          || Trim(PyStr(GetOr(OrEmpty(GetOr(message.members, "chat", JNull)).members, "id", JString("")))) == [])
    ensures OnUpdate(cfg, s, update, now) == (s, false)
  {
  }

  /** The command tests select a handler exactly for the known commands,
      and the watch handlers exactly for the watch commands. */
  lemma HandlerForCommands(command: string)
    ensures HandlerFor(command) == NoHandler <==> command !in Commands
    ensures HandlerFor(command) == CalWatchHandler <==> command == "/cal_watch"
    ensures HandlerFor(command) == CalWatchStopHandler <==> command == "/cal_watch_stop"
    ensures HandlerFor(command) == CalStopHandler <==> command == "/cal_stop"
  {
  }

  /** Every handler replies once; without a handler nothing happens. */
  lemma RunReplies(handler: Handler, cfg: Config, watchers: seq<(string, Watch)>, chatId: string, text: string, now: real)
    ensures Run(handler, cfg, watchers, chatId, text, now).reply.Some? <==> handler != NoHandler
    ensures handler == NoHandler ==> Run(handler, cfg, watchers, chatId, text, now) == Effect(None, [], watchers)
  {
  }

  /** A message is answered exactly when its command is one the poller
      knows; then with one reply, and an unknown command changes nothing. */
  lemma RepliesExactlyToCommands(cfg: Config, watchers: seq<(string, Watch)>, chatId: string, text: string, now: real)
    ensures OnCommand(cfg, watchers, chatId, text, now).reply.Some? <==> Command(text) in Commands
    ensures Command(text) !in Commands ==> OnCommand(cfg, watchers, chatId, text, now) == Effect(None, [], watchers)
  {
    HandlerForCommands(Command(text));
    RunReplies(HandlerFor(Command(text)), cfg, watchers, chatId, text, now);
  }

  /** The command is the first word, lower-cased, whatever follows it. */
  lemma CommandIsFirstWord(word: string, rest: string)
    requires word != [] && forall i :: 0 <= i < |word| ==> !IsSpace(word[i])
    requires rest == [] || IsSpace(rest[0])
    ensures Command(word + rest) == Lower(word)
  {
    WordsCons(word, rest);
    TrimNoop(word);
  }

  /** Only the three watch commands touch the watchers. */
  lemma OnlyWatchCommandsChangeWatchers(cfg: Config, watchers: seq<(string, Watch)>, chatId: string, text: string, now: real)
    requires Command(text) != "/cal_watch" && Command(text) != "/cal_watch_stop" && Command(text) != "/cal_stop"
    ensures OnCommand(cfg, watchers, chatId, text, now).watchers == watchers
  {
    HandlerForCommands(Command(text));
    RunKeepsWatchers(HandlerFor(Command(text)), cfg, watchers, chatId, text, now);
  }

  lemma RunKeepsWatchers(handler: Handler, cfg: Config, watchers: seq<(string, Watch)>, chatId: string, text: string, now: real)
    requires handler != CalWatchHandler && handler != CalWatchStopHandler && handler != CalStopHandler
    ensures Run(handler, cfg, watchers, chatId, text, now).watchers == watchers
  {
  }

  /** Commands keep the watchers keyed by distinct chats. */
  lemma CommandKeepsDistinct(cfg: Config, watchers: seq<(string, Watch)>, chatId: string, text: string, now: real)
    requires Dict.DistinctKeys(watchers)
    ensures Dict.DistinctKeys(OnCommand(cfg, watchers, chatId, text, now).watchers)
  {
    var handler := HandlerFor(Command(text));
    match handler {
      case CalWatchHandler =>
        CalWatchKeepsDistinct(cfg, watchers, chatId, text, now);
      case CalWatchStopHandler =>
        Dict.RemoveDistinct(watchers, chatId);
      case CalStopHandler =>
      case _ =>
        RunKeepsWatchers(handler, cfg, watchers, chatId, text, now);
    }
  }

  lemma CalWatchKeepsDistinct(cfg: Config, watchers: seq<(string, Watch)>, chatId: string, text: string, now: real)
    requires Dict.DistinctKeys(watchers)
    ensures Dict.DistinctKeys(OnCalWatch(cfg, watchers, chatId, text, now).watchers)
  {
    Dict.PutDistinct(watchers, chatId, Watch(WatchInterval(cfg, text), now));
  }

  /** `/start` hands the configured openness to the registration callback
      and replies by its verdict. */
  lemma StartRegisters(cfg: Config, watchers: seq<(string, Watch)>, chatId: string)
    ensures var e := OnStart(cfg, watchers, chatId);
      && e.calls == [Register(chatId, cfg.acceptNewUsers)]
      && (e.reply == Some(Registered) <==> cfg.register(chatId, cfg.acceptNewUsers))
      && (e.reply == Some(RegistrationClosed) <==> !cfg.register(chatId, cfg.acceptNewUsers))
      && e.watchers == watchers
  {
  }

  /** An outcome reads `TOPIC: OK. DETAIL` or `TOPIC: ERROR. DETAIL`, so
      the character after the topic's colon and space tells the two apart. */
  lemma OutcomeText(topic: string, ok: bool, detail: string)
    ensures Render(Outcome(topic, ok, detail)) == topic + (if ok then ": OK. " else ": ERROR. ") + detail
    ensures Render(Outcome(topic, ok, detail))[|topic| + 2] == if ok then 'O' else 'E'
  {
    var status := if ok then ": OK" else ": ERROR";
    assert Render(Outcome(topic, ok, detail)) == topic + status + ". " + detail;
    assert topic + status + ". " + detail == topic + (status + ". ") + detail;
  }

  /** The four query commands keep the watchers; each calls its callback
      once and replies with what it reports when the callback is supplied,
      and otherwise replies that it is unavailable without calling anything. */
  lemma QueriesReport(cfg: Config, watchers: seq<(string, Watch)>)
    ensures var e := OnStatus(cfg, watchers);
      && e.calls == [StatusCheck] && e.watchers == watchers
      && e.reply == Some(Outcome("Status", cfg.statusCheck().0, cfg.statusCheck().1))
    ensures var e := OnCalHelp(cfg, watchers);
      && e.watchers == watchers
      && (cfg.helpText.None? ==> e.calls == [] && e.reply == Some(HelpUnavailable))
      && (cfg.helpText.Some? ==> e.calls == [CalHelp] && e.reply == Some(Help(cfg.helpText.value())))
    ensures var e := OnCalStatus(cfg, watchers);
      && e.watchers == watchers
      && (cfg.calStatus.None? ==> e.calls == [] && e.reply == Some(StatusUnavailable))
      && (cfg.calStatus.Some? ==>
            e.calls == [CalStatus] && e.reply == Some(Outcome("Calibration", cfg.calStatus.value().0, cfg.calStatus.value().1)))
    ensures var e := OnCalParams(cfg, watchers);
      && e.watchers == watchers
      && (cfg.calParams.None? ==> e.calls == [] && e.reply == Some(ParamsUnavailable))
      && (cfg.calParams.Some? ==>
            e.calls == [CalParams] && e.reply == Some(Outcome("Calibration params", cfg.calParams.value().0, cfg.calParams.value().1)))
  {
  }

  /** The callback a call goes to was supplied to the poller. */
  predicate Supplied(cfg: Config, c: Call) {
    match c
    case CalHelp => cfg.helpText.Some?
    case CalStart(_, _) => cfg.calStart.Some?
    case CalSet(_, _) => cfg.calSet.Some?
    case CalParams => cfg.calParams.Some?
    case CalStatus => cfg.calStatus.Some?
    case CalStop => cfg.calStop.Some?
    case CalWatchInterval => cfg.watchInterval.Some?
    case _ => true
  }

  /** A command invokes at most one callback, and never one that was not
      supplied: a missing callback earns an "unavailable" reply instead. */
  lemma AtMostOneCall(handler: Handler, cfg: Config, watchers: seq<(string, Watch)>, chatId: string, text: string, now: real)
    ensures var e := Run(handler, cfg, watchers, chatId, text, now);
      |e.calls| <= 1 && forall c :: c in e.calls ==> Supplied(cfg, c)
  {
  }

  /** `/test` never reaches the test sender while the feature is off. */
  lemma TestRespectsFlag(cfg: Config, watchers: seq<(string, Watch)>, chatId: string)
    ensures !cfg.enableTestCommand ==> OnTest(cfg, watchers, chatId) == Effect(Some(TestDisabled), [], watchers)
    ensures cfg.enableTestCommand ==> OnTest(cfg, watchers, chatId).calls == [TestSend(chatId)]
    ensures forall c :: c in OnTest(cfg, watchers, chatId).calls ==> c == TestSend(chatId)
  {
  }

  /** `/cal_start` reaches its callback exactly when there is a phase and
      any interval given is an integer, with the lower-cased phase. */
  lemma CalStartArguments(cfg: Config, watchers: seq<(string, Watch)>, text: string)
    ensures var e := OnCalStart(cfg, watchers, text);
      var parts := Words(text);
      && e.watchers == watchers
      && (e.calls != [] <==> cfg.calStart.Some? && |parts| >= 2 && (|parts| < 3 || ParseInt(parts[2]).Some?))
      && (cfg.calStart.Some? && |parts| < 2 ==> e.reply == Some(StartUsage))
      && (cfg.calStart.Some? && |parts| >= 3 && ParseInt(parts[2]).None? ==> e.reply == Some(IntervalNotInteger))
      && (e.calls != [] ==> e.calls == [CalStart(Lower(parts[1]), if |parts| >= 3 then ParseInt(parts[2]) else None)])
  {
    var parts := Words(text);
    WordsHaveNoSpace(text);
    if |parts| >= 2 {
      assert parts[1] != [] && !IsSpace(parts[1][0]);
      assert !IsSpace(parts[1][|parts[1]| - 1]);
      TrimNoop(parts[1]);
    }
  }

  /** The effect of `/cal_start` in each of its four cases. */
  lemma CalStartEffect(cfg: Config, watchers: seq<(string, Watch)>, text: string)
    ensures var e := OnCalStart(cfg, watchers, text);
      var parts := Words(text);
      var interval := if |parts| >= 3 then ParseInt(parts[2]) else None;
      && (cfg.calStart.None? ==> e == Effect(Some(StartUnavailable), [], watchers))
      && (cfg.calStart.Some? && |parts| < 2 ==> e == Effect(Some(StartUsage), [], watchers))
      && (cfg.calStart.Some? && |parts| >= 3 && interval.None? ==> e == Effect(Some(IntervalNotInteger), [], watchers))
      && (cfg.calStart.Some? && |parts| >= 2 && (|parts| < 3 || interval.Some?) ==>
            var phase := Lower(Trim(parts[1]));
            var r := cfg.calStart.value(phase, interval);
            e == Effect(Some(Outcome("Calibration start", r.0, r.1)), [CalStart(phase, interval)], watchers))
  {
  }

  /** The effect of `/cal_set` in each of its three cases. */
  lemma CalSetEffect(cfg: Config, watchers: seq<(string, Watch)>, text: string)
    ensures var e := OnCalSet(cfg, watchers, text);
      var parts := Split(text, Some(2));
      && (cfg.calSet.None? ==> e == Effect(Some(SetUnavailable), [], watchers))
      && (cfg.calSet.Some? && |parts| < 3 ==> e == Effect(Some(SetUsage), [], watchers))
      && (cfg.calSet.Some? && |parts| >= 3 ==>
            var r := cfg.calSet.value(parts[1], parts[2]);
            e == Effect(Some(Outcome("Calibration set", r.0, r.1)), [CalSet(parts[1], parts[2])], watchers))
  {
  }

  /** `/cal_set KEY VALUE` hands the callback the key word and the whole
      rest of the text as the value, inner whitespace included: the split
      stops after two cuts. */
  lemma CalSetArguments(cfg: Config, watchers: seq<(string, Watch)>, command: string, key: string, value: string)
    requires IsWord(command) && IsWord(key)
    requires value != [] && !IsSpace(value[0])
    ensures var e := OnCalSet(cfg, watchers, command + " " + key + " " + value);
      && e.watchers == watchers
      && (cfg.calSet.None? ==> e.calls == [] && e.reply == Some(SetUnavailable))
      && (cfg.calSet.Some? ==>
            var r := cfg.calSet.value(key, value);
            e.calls == [CalSet(key, value)] && e.reply == Some(Outcome("Calibration set", r.0, r.1)))
  {
    SplitTwice(command, key, value);
    CalSetEffect(cfg, watchers, command + " " + key + " " + value);
  }

  /** `/cal_watch` watches this chat from now on at the clamped interval and
      leaves the other chats alone; an argument that is not a number only
      earns the usage reply. */
  lemma CalWatchSchedules(cfg: Config, watchers: seq<(string, Watch)>, chatId: string, text: string, now: real)
    ensures var e := OnCalWatch(cfg, watchers, chatId, text, now);
      var parts := Words(text);
      && (forall other :: other != chatId ==> Dict.Get(e.watchers, other) == Dict.Get(watchers, other))
      && (|parts| >= 2 && ParseDecimal(parts[1]).None? ==> e == Effect(Some(WatchUsage), [], watchers))
      && (|parts| >= 2 && ParseDecimal(parts[1]).Some? ==>
            Dict.Get(e.watchers, chatId) == Some(Watch(ClampWatch(ParseDecimal(parts[1]).value.Value()), now)))
      && (|parts| < 2 && cfg.watchInterval.None? ==> Dict.Get(e.watchers, chatId) == Some(Watch(15.0, now)))
      && (|parts| < 2 && cfg.watchInterval.Some? ==>
            Dict.Get(e.watchers, chatId) == Some(Watch(ClampWatch(cfg.watchInterval.value() as real), now)))
      && (e.reply != Some(WatchUsage) ==> 2.0 <= Dict.Get(e.watchers, chatId).value.interval <= 600.0)
  {
    var w := Watch(WatchInterval(cfg, text), now);
    Dict.PutGet(watchers, chatId, w);
    forall other | other != chatId
      ensures Dict.Get(Dict.Put(watchers, chatId, w), other) == Dict.Get(watchers, other)
    {
      Dict.PutOther(watchers, chatId, w, other);
    }
  }

  /** `/cal_watch_stop` ends this chat's watch only, and says whether there was one. */
  lemma WatchStopRemovesOnlyThisChat(watchers: seq<(string, Watch)>, chatId: string)
    ensures var e := OnCalWatchStop(watchers, chatId);
      && Dict.Get(e.watchers, chatId) == None
      && (forall other :: other != chatId ==> Dict.Get(e.watchers, other) == Dict.Get(watchers, other))
      && (e.reply == Some(WatchStopped) <==> Dict.Get(watchers, chatId).Some?)
      && e.calls == []
  {
    Dict.RemoveGet(watchers, chatId);
    forall other | other != chatId
      ensures Dict.Get(Dict.Remove(watchers, chatId), other) == Dict.Get(watchers, other)
    {
      Dict.RemoveOther(watchers, chatId, other);
    }
  }

  /** `/cal_stop` ends every watch when, and only when, the stop succeeds. */
  lemma CalStopClearsWatchers(cfg: Config, watchers: seq<(string, Watch)>)
    ensures var e := OnCalStop(cfg, watchers);
      && (cfg.calStop.Some? && cfg.calStop.value().0 ==> e.watchers == [])
      && (!(cfg.calStop.Some? && cfg.calStop.value().0) ==> e.watchers == watchers)
      && (e.calls == [CalStop] <==> cfg.calStop.Some?)
  {
  }

  // ---------------------------------------------------------------------
  // Properties of a batch

  /** Handling an update leaves the offset alone. */
  lemma UpdateKeepsOffset(cfg: Config, s: PollerState, update: Json, now: real)
    ensures OnUpdate(cfg, s, update, now).0.offset == s.offset
  {
  }

  /** A step moves the offset only as `Advance` does; an update without a
      readable id raises. */
  lemma StepOffset(cfg: Config, s: PollerState, update: Json, now: real)
    ensures UpdateId(update).None? ==> Step(cfg, s, update, now) == (s, true)
    ensures UpdateId(update).Some? ==> Step(cfg, s, update, now).0.offset == Advance(s, UpdateId(update).value).offset
  {
    if UpdateId(update).Some? {
      UpdateKeepsOffset(cfg, Advance(s, UpdateId(update).value), update, now);
    }
  }

  /** A step that treats the offset as `Step` does. */
  ghost predicate MovesOffset(step: (PollerState, Json) -> (PollerState, bool)) {
    forall st: PollerState, update: Json {:trigger step(st, update)} ::
      && (UpdateId(update).None? ==> step(st, update) == (st, true))
      && (UpdateId(update).Some? ==> step(st, update).0.offset == Advance(st, UpdateId(update).value).offset)
  }

  lemma StepMovesOffset(cfg: Config, now: real)
    ensures MovesOffset(Stepper(cfg, now))
  {
    forall st: PollerState, update: Json {
      StepOffset(cfg, st, update, now);
    }
  }

  /** A poll never moves the offset back. */
  lemma {:induction false} PollGrows(step: (PollerState, Json) -> (PollerState, bool), s: PollerState, updates: seq<Json>)
    requires MovesOffset(step)
    ensures Poll(step, s, updates).0.offset >= s.offset
    decreases |updates|
  {
    if updates != [] {
      var handled := step(s, updates[0]);
      if !handled.1 {
        PollGrows(step, handled.0, updates[1..]);
      }
    }
  }

  /** A poll that runs to the end leaves the offset past every id in it. */
  lemma {:induction false} PollPast(step: (PollerState, Json) -> (PollerState, bool), s: PollerState, updates: seq<Json>)
    requires MovesOffset(step)
    ensures var (t, raised) := Poll(step, s, updates);
      !raised ==> forall i :: 0 <= i < |updates| ==> UpdateId(updates[i]).Some? && t.offset > UpdateId(updates[i]).value
    decreases |updates|
  {
    if updates != [] {
      var handled := step(s, updates[0]);
      if !handled.1 {
        var rest := updates[1..];
        PollPast(step, handled.0, rest);
        PollGrows(step, handled.0, rest);
        assert forall i :: 0 <= i < |rest| ==> rest[i] == updates[i + 1];
      }
    }
  }

  /** After a poll the offset is the old one or one past the id of update `i`. */
  lemma {:induction false} PollFrom(step: (PollerState, Json) -> (PollerState, bool), s: PollerState, updates: seq<Json>)
    returns (i: int)
    requires MovesOffset(step)
    ensures var t := Poll(step, s, updates).0;
      t.offset == s.offset || (0 <= i < |updates| && UpdateId(updates[i]) == Some(t.offset - 1))
    decreases |updates|
  {
    i := 0;
    if updates != [] {
      var handled := step(s, updates[0]);
      if !handled.1 {
        var rest := updates[1..];
        var j := PollFrom(step, handled.0, rest);
        var t := Poll(step, handled.0, rest).0;
        assert Poll(step, s, updates).0 == t;
        if t.offset != handled.0.offset {
          assert rest[j] == updates[j + 1];
          i := j + 1;
        }
      }
    }
  }

  /** A batch never moves the offset back. */
  lemma BatchGrows(cfg: Config, s: PollerState, updates: seq<Json>, now: real)
    ensures Poll(Stepper(cfg, now), s, updates).0.offset >= s.offset
  {
    StepMovesOffset(cfg, now);
    PollGrows(Stepper(cfg, now), s, updates);
  }

  /** After a batch handled to the end the offset lies past every id in it. */
  lemma BatchPast(cfg: Config, s: PollerState, updates: seq<Json>, now: real)
    ensures var (t, raised) := Poll(Stepper(cfg, now), s, updates);
      !raised ==> forall i :: 0 <= i < |updates| ==> UpdateId(updates[i]).Some? && t.offset > UpdateId(updates[i]).value
  {
    StepMovesOffset(cfg, now);
    PollPast(Stepper(cfg, now), s, updates);
  }

  /** After a batch the offset is the old one or one past the id of update `i`. */
  lemma BatchFrom(cfg: Config, s: PollerState, updates: seq<Json>, now: real) returns (i: int)
    ensures var t := Poll(Stepper(cfg, now), s, updates).0;
      t.offset == s.offset || (0 <= i < |updates| && UpdateId(updates[i]) == Some(t.offset - 1))
  {
    StepMovesOffset(cfg, now);
    i := PollFrom(Stepper(cfg, now), s, updates);
  }

  /** A poll of two updates, neither of which raises. */
  lemma PollPair(step: (PollerState, Json) -> (PollerState, bool), s: PollerState, a: Json, b: Json, s1: PollerState, s2: PollerState)
    requires step(s, a) == (s1, false) && step(s1, b) == (s2, false)
    ensures Poll(step, s, [a, b]) == (s2, false)
  {
    assert Poll(step, s1, [b]) == (s2, false) by {
      assert [b][1..] == [];
    }
    assert [a, b][0] == a && [a, b][1..] == [b];
  }

  /** An update with an id and no message only advances the offset. */
  lemma SilentStep(cfg: Config, s: PollerState, update: Json, now: real)
    requires UpdateId(update).Some? && ReadUpdate(update) == Silent
    ensures Step(cfg, s, update, now) == (Advance(s, UpdateId(update).value), false)
  {
  }

  /** Ids arriving out of order: 5 then 3 from offset 0 leave offset 6. */
  lemma OutOfOrderIds(cfg: Config, now: real)
    ensures var s := PollerState(0, [], [], []);
      Poll(Stepper(cfg, now), s, [JObject([("update_id", JInt(5))]), JObject([("update_id", JInt(3))])]).0.offset == 6
  {
    var first := JObject([("update_id", JInt(5))]);
    var second := JObject([("update_id", JInt(3))]);
    assert ReadUpdate(first) == Silent && ReadUpdate(second) == Silent;
    var s0 := PollerState(0, [], [], []);
    SilentStep(cfg, s0, first, now);
    var s1 := Advance(s0, 5);
    SilentStep(cfg, s1, second, now);
    PollPair(Stepper(cfg, now), s0, first, second, s1, Advance(s1, 3));
  }

  // ---------------------------------------------------------------------
  // Properties of a watch tick

  /** One watcher's turn changes that chat's watch only, as the tick rule says. */
  lemma TickOneWatch(cfg: Config, chatId: string, w: Watch, s: PollerState, now: real, c: string)
    ensures Dict.Get(TickOne(cfg, chatId, w, s, now).watchers, c) ==
      if c != chatId || now < w.nextAt then Dict.Get(s.watchers, c) else TickValue(cfg, w, now)
  {
    var moved := Watch(w.interval, now + MaxReal(2.0, w.interval));
    Dict.PutGet(s.watchers, chatId, moved);
    Dict.RemoveGet(s.watchers, chatId);
    if cfg.calStatus.Some? && now >= w.nextAt {
      TickOneDue(cfg, chatId, w, s, now);
    }
    if c != chatId {
      Dict.PutOther(s.watchers, chatId, moved, c);
      Dict.RemoveOther(s.watchers, chatId, c);
    }
  }

  /** One watcher's turn: a reply and a status call when it is due, nothing otherwise. */
  lemma TickOneReplies(cfg: Config, chatId: string, w: Watch, s: PollerState, now: real)
    ensures var t := TickOne(cfg, chatId, w, s, now);
      && t.outbox == s.outbox + (if now < w.nextAt then [] else [(chatId, TickText(cfg))])
      && t.calls == s.calls + (if now < w.nextAt || cfg.calStatus.None? then [] else [CalStatus])
      && t.offset == s.offset
  {
  }

  /** One watcher's turn keeps the watchers keyed by distinct chats. */
  lemma TickOneDistinct(cfg: Config, chatId: string, w: Watch, s: PollerState, now: real)
    requires Dict.DistinctKeys(s.watchers)
    ensures Dict.DistinctKeys(TickOne(cfg, chatId, w, s, now).watchers)
  {
    Dict.PutDistinct(s.watchers, chatId, Watch(w.interval, now + MaxReal(2.0, w.interval)));
    Dict.RemoveDistinct(s.watchers, chatId);
    TickOneWatchers(cfg, chatId, w, s, now);
  }

  /** The watchers after one watcher's turn are the old ones, the old ones
      without this chat, or the old ones with this chat rescheduled. */
  lemma TickOneWatchers(cfg: Config, chatId: string, w: Watch, s: PollerState, now: real)
    ensures var t := TickOne(cfg, chatId, w, s, now).watchers;
      t == s.watchers || t == Dict.Remove(s.watchers, chatId)
      || t == Dict.Put(s.watchers, chatId, Watch(w.interval, now + MaxReal(2.0, w.interval)))
  {
  }

  /** After a tick, each chat's watch is what the tick made of it: a chat
      listed and due is rescheduled or removed, a chat not yet due keeps
      its watch, and chats not listed are untouched. */
  lemma {:induction false} TickWatch(cfg: Config, items: seq<(string, Watch)>, s: PollerState, now: real, c: string)
    requires Dict.DistinctKeys(items)
    ensures Dict.Get(TickFrom(cfg, items, s, now).watchers, c) ==
      match Dict.Get(items, c)
      case None => Dict.Get(s.watchers, c)
      case Some(w) => if now < w.nextAt then Dict.Get(s.watchers, c) else TickValue(cfg, w, now)
    decreases |items|
  {
    if items != [] {
      var rest := items[1..];
      assert forall i :: 0 <= i < |rest| ==> rest[i] == items[i + 1];
      var next := TickOne(cfg, items[0].0, items[0].1, s, now);
      TickWatch(cfg, rest, next, now, c);
      TickOneWatch(cfg, items[0].0, items[0].1, s, now, c);
      if c == items[0].0 {
        assert c !in Dict.Keys(rest) by {
          Dict.KeysAt(rest);
          forall i | 0 <= i < |rest| ensures Dict.Keys(rest)[i] != c {
          }
        }
      } else {
        assert Dict.Get(items, c) == Dict.Get(rest, c);
      }
    }
  }

  /** A tick as a whole: a watched chat that is due is rescheduled by at
      least two seconds from now when the status reports success and is
      dropped otherwise; a chat not yet due keeps its watch; no chat is added. */
  lemma TickOutcome(cfg: Config, s: PollerState, now: real, c: string)
    requires Dict.DistinctKeys(s.watchers)
    ensures var t := Tick(cfg, s, now);
      && (Dict.Get(s.watchers, c).None? ==> Dict.Get(t.watchers, c).None?)
      && (Dict.Get(s.watchers, c).Some? && now < Dict.Get(s.watchers, c).value.nextAt ==>
            Dict.Get(t.watchers, c) == Dict.Get(s.watchers, c))
      && (Dict.Get(s.watchers, c).Some? && now >= Dict.Get(s.watchers, c).value.nextAt ==>
            (Dict.Get(t.watchers, c).Some? <==> cfg.calStatus.Some? && cfg.calStatus.value().0)
            && (Dict.Get(t.watchers, c).Some? ==>
                  Dict.Get(t.watchers, c).value.interval == Dict.Get(s.watchers, c).value.interval
                  && Dict.Get(t.watchers, c).value.nextAt >= now + 2.0))
  {
    TickWatch(cfg, s.watchers, s, now, c);
  }

  /** A tick sends each due chat, in watcher order, one reply, and asks the
      status callback once per due chat. */
  lemma {:induction false} TickReplies(cfg: Config, items: seq<(string, Watch)>, s: PollerState, now: real)
    ensures var t := TickFrom(cfg, items, s, now);
      var due := Due(items, now);
      && t.outbox == s.outbox + Broadcast(due, TickText(cfg))
      && t.calls == s.calls + (if cfg.calStatus.Some? then Repeat(CalStatus, |due|) else [])
      && t.offset == s.offset
    decreases |items|
  {
    if items != [] {
      var rest := items[1..];
      var next := TickOne(cfg, items[0].0, items[0].1, s, now);
      var text := TickText(cfg);
      var due := now >= items[0].1.nextAt;
      TickOneReplies(cfg, items[0].0, items[0].1, s, now);
      TickReplies(cfg, rest, next, now);
      DueStep(items, now, text);
      Assoc(s.outbox, if due then [(items[0].0, text)] else [], Broadcast(Due(rest, now), text));
      if cfg.calStatus.Some? {
        Assoc(s.calls, if due then [CalStatus] else [], Repeat(CalStatus, |Due(rest, now)|));
      }
    }
  }

  /** The first watcher's share of the tick's replies and status calls. */
  lemma DueStep(items: seq<(string, Watch)>, now: real, text: Reply)
    requires items != []
    ensures var later := Due(items[1..], now);
      if now < items[0].1.nextAt then
        Due(items, now) == later && Broadcast(Due(items, now), text) == Broadcast(later, text)
      else
        && |Due(items, now)| == 1 + |later|
        && Broadcast(Due(items, now), text) == [(items[0].0, text)] + Broadcast(later, text)
        && Repeat(CalStatus, |Due(items, now)|) == [CalStatus] + Repeat(CalStatus, |later|)
  {
    var later := Due(items[1..], now);
    if now >= items[0].1.nextAt {
      var due := Due(items, now);
      assert due == [items[0].0] + later;
      assert due[1..] == later;
    }
  }

  lemma Assoc<T>(a: seq<T>, b: seq<T>, c: seq<T>)
    ensures (a + b) + c == a + (b + c)
  {
  }

  /** A tick keeps the watchers keyed by distinct chats. */
  lemma {:induction false} TickKeepsDistinct(cfg: Config, items: seq<(string, Watch)>, s: PollerState, now: real)
    requires Dict.DistinctKeys(s.watchers)
    ensures Dict.DistinctKeys(TickFrom(cfg, items, s, now).watchers)
    decreases |items|
  {
    if items != [] {
      TickOneDistinct(cfg, items[0].0, items[0].1, s, now);
      TickKeepsDistinct(cfg, items[1..], TickOne(cfg, items[0].0, items[0].1, s, now), now);
    }
  }

  // ---------------------------------------------------------------------
  // The poller object

  class TelegramStartPoller {
    const config: Config
    var offset: int
    var watchers: seq<(string, Watch)>
    var outbox: seq<(string, Reply)>
    var calls: seq<Call>

    function State(): PollerState
      reads this
    {
      PollerState(offset, watchers, outbox, calls)
    }

    /** Each chat is watched at most once. */
    predicate Valid()
      reads this
    {
      Dict.DistinctKeys(watchers)
    }

    constructor (config: Config)
      ensures Valid() && State() == PollerState(0, [], [], [])
    {
      this.config := config;
      offset := 0;
      watchers := [];
      outbox := [];
      calls := [];
    }

    /** `_safe_reply`: the reply is handed to the notifier. */
    method SafeReply(chatId: string, text: Reply)
      modifies this
      ensures outbox == old(outbox) + [(chatId, text)]
      ensures offset == old(offset) && watchers == old(watchers) && calls == old(calls)
    {
      outbox := outbox + [(chatId, text)];
    }

    method HandleStart(chatId: string)
      modifies this
      ensures State() == Apply(old(State()), chatId, OnStart(config, old(watchers), chatId))
    {
      var added := config.register(chatId, config.acceptNewUsers);
      calls := calls + [Register(chatId, config.acceptNewUsers)];
      if added {
        SafeReply(chatId, Registered);
        return;
      }
      SafeReply(chatId, RegistrationClosed);
    }

    method HandleStatus(chatId: string)
      modifies this
      ensures State() == Apply(old(State()), chatId, OnStatus(config, old(watchers)))
    {
      var (ok, detail) := config.statusCheck();
      calls := calls + [StatusCheck];
      SafeReply(chatId, Outcome("Status", ok, detail));
    }

    method HandleTest(chatId: string)
      modifies this
      ensures State() == Apply(old(State()), chatId, OnTest(config, old(watchers), chatId))
    {
      if !config.enableTestCommand {
        SafeReply(chatId, TestDisabled);
        return;
      }
      var r := config.testSender(chatId);
      calls := calls + [TestSend(chatId)];
      SafeReply(chatId, Outcome("Test", r.0, r.1));
    }

    method HandleCalHelp(chatId: string)
      modifies this
      ensures State() == Apply(old(State()), chatId, OnCalHelp(config, old(watchers)))
    {
      if config.helpText.None? {
        SafeReply(chatId, HelpUnavailable);
        return;
      }
      var help := config.helpText.value();
      calls := calls + [CalHelp];
      SafeReply(chatId, Help(help));
    }

    method HandleCalStart(chatId: string, text: string)
      modifies this
      ensures State() == Apply(old(State()), chatId, OnCalStart(config, old(watchers), text))
    {
      CalStartEffect(config, watchers, text);
      if config.calStart.None? {
        SafeReply(chatId, StartUnavailable);
        return;
      }
      var parts := Words(text);
      if |parts| < 2 {
        SafeReply(chatId, StartUsage);
        return;
      }
      var phase := Lower(Trim(parts[1]));
      var interval: Option<int> := None;
      if |parts| >= 3 {
        interval := ParseInt(parts[2]);
        if interval.None? {
          SafeReply(chatId, IntervalNotInteger);
          return;
        }
      }
      var r := config.calStart.value(phase, interval);
      calls := calls + [CalStart(phase, interval)];
      SafeReply(chatId, Outcome("Calibration start", r.0, r.1));
    }

    method HandleCalSet(chatId: string, text: string)
      modifies this
      ensures State() == Apply(old(State()), chatId, OnCalSet(config, old(watchers), text))
    {
      CalSetEffect(config, watchers, text);
      if config.calSet.None? {
        SafeReply(chatId, SetUnavailable);
        return;
      }
      var parts := Split(text, Some(2));
      if |parts| < 3 {
        SafeReply(chatId, SetUsage);
        return;
      }
      var r := config.calSet.value(parts[1], parts[2]);
      calls := calls + [CalSet(parts[1], parts[2])];
      SafeReply(chatId, Outcome("Calibration set", r.0, r.1));
    }

    method HandleCalStatus(chatId: string)
      modifies this
      ensures State() == Apply(old(State()), chatId, OnCalStatus(config, old(watchers)))
    {
      if config.calStatus.None? {
        SafeReply(chatId, StatusUnavailable);
        return;
      }
      var r := config.calStatus.value();
      calls := calls + [CalStatus];
      SafeReply(chatId, Outcome("Calibration", r.0, r.1));
    }

    method HandleCalParams(chatId: string)
      modifies this
      ensures State() == Apply(old(State()), chatId, OnCalParams(config, old(watchers)))
    {
      if config.calParams.None? {
        SafeReply(chatId, ParamsUnavailable);
        return;
      }
      var r := config.calParams.value();
      calls := calls + [CalParams];
      SafeReply(chatId, Outcome("Calibration params", r.0, r.1));
    }

    method HandleCalWatch(chatId: string, text: string, now: real)
      modifies this
      requires Valid()
      ensures Valid()
      ensures State() == Apply(old(State()), chatId, OnCalWatch(config, old(watchers), chatId, text, now))
    {
      var parts := Words(text);
      var interval: real;
      if |parts| >= 2 {
        var parsed := ParseDecimal(parts[1]);
        if parsed.None? {
          SafeReply(chatId, WatchUsage);
          return;
        }
        interval := parsed.value.Value();
      } else if config.watchInterval.Some? {
        var seconds := config.watchInterval.value();
        calls := calls + [CalWatchInterval];
        interval := seconds as real;
      } else {
        interval := 15.0;
      }
      interval := ClampWatch(interval);
      Dict.PutDistinct(watchers, chatId, Watch(interval, now));
      watchers := Dict.Put(watchers, chatId, Watch(interval, now));
      SafeReply(chatId, WatchEnabled(interval));
    }

    method HandleCalWatchStop(chatId: string)
      modifies this
      requires Valid()
      ensures Valid()
      ensures State() == Apply(old(State()), chatId, OnCalWatchStop(old(watchers), chatId))
    {
      var existed := chatId in Dict.Keys(watchers);
      Dict.RemoveDistinct(watchers, chatId);
      watchers := Dict.Remove(watchers, chatId);
      if existed {
        SafeReply(chatId, WatchStopped);
      } else {
        SafeReply(chatId, WatchNotActive);
      }
    }

    method HandleCalStop(chatId: string)
      modifies this
      requires Valid()
      ensures Valid()
      ensures State() == Apply(old(State()), chatId, OnCalStop(config, old(watchers)))
    {
      if config.calStop.None? {
        SafeReply(chatId, StopUnavailable);
        return;
      }
      var r := config.calStop.value();
      calls := calls + [CalStop];
      SafeReply(chatId, Outcome("Calibration stop", r.0, r.1));
      if r.0 {
        watchers := [];
      }
    }

    /** `_handle_update`; `raised` where Python raises. */
    method HandleUpdate(update: Json, now: real) returns (raised: bool)
      modifies this
      requires Valid()
      ensures Valid()
      ensures (State(), raised) == OnUpdate(config, old(State()), update, now)
    {
      var incoming := ReadUpdate(update);
      if incoming.Raises? {
        return true;
      }
      if incoming.Silent? {
        return false;
      }
      var chatId, text := incoming.chatId, incoming.text;
      CommandKeepsDistinct(config, watchers, chatId, text, now);
      raised := false;
      Dispatch(HandlerFor(Command(text)), chatId, text, now);
    }

    /** Runs the handler a command selected. */
    method Dispatch(handler: Handler, chatId: string, text: string, now: real)
      modifies this
      requires Valid()
      requires Dict.DistinctKeys(Run(handler, config, watchers, chatId, text, now).watchers)
      ensures Valid()
      ensures State() == Apply(old(State()), chatId, Run(handler, config, old(watchers), chatId, text, now))
    {
      match handler {
        case StartHandler => HandleStart(chatId);
        case StatusHandler => HandleStatus(chatId);
        case TestHandler => HandleTest(chatId);
        case HelpHandler => HandleCalHelp(chatId);
        case CalStartHandler => HandleCalStart(chatId, text);
        case CalSetHandler => HandleCalSet(chatId, text);
        case CalParamsHandler => HandleCalParams(chatId);
        case CalStatusHandler => HandleCalStatus(chatId);
        case CalWatchHandler => HandleCalWatch(chatId, text, now);
        case CalWatchStopHandler => HandleCalWatchStop(chatId);
        case CalStopHandler => HandleCalStop(chatId);
        case NoHandler =>
      }
    }

    /** The loop body of `_run` for one fetched batch. */
    method HandleBatch(updates: seq<Json>, now: real) returns (raised: bool)
      modifies this
      requires Valid()
      ensures Valid()
      ensures (State(), raised) == Poll(Stepper(config, now), old(State()), updates)
    {
      var step := Stepper(config, now);
      var i := 0;
      while i < |updates|
        invariant 0 <= i <= |updates| && Valid()
        invariant Poll(step, State(), updates[i..]) == Poll(Stepper(config, now), old(State()), updates)
      {
        assert updates[i..][0] == updates[i] && updates[i..][1..] == updates[i + 1..];
        raised := TakeUpdate(updates[i], now);
        if raised {
          return;
        }
        i := i + 1;
      }
      return false;
    }

    /** One update of the batch loop: advance the offset past its id, then handle it. */
    method TakeUpdate(update: Json, now: real) returns (raised: bool)
      modifies this
      requires Valid()
      ensures Valid()
      ensures (State(), raised) == Step(config, old(State()), update, now)
    {
      var id := UpdateId(update);
      if id.None? {
        return true;
      }
      offset := if id.value + 1 > offset then id.value + 1 else offset;
      raised := HandleUpdate(update, now);
    }

    /** The body of `_run_watch` once the clock reads `now`. */
    method WatchTick(now: real)
      modifies this
      requires Valid()
      ensures Valid()
      ensures State() == Tick(config, old(State()), now)
    {
      var items := watchers;
      var i := 0;
      while i < |items|
        invariant 0 <= i <= |items| && Valid()
        invariant TickFrom(config, items[i..], State(), now) == TickFrom(config, items, old(State()), now)
      {
        assert items[i..][0] == items[i] && items[i..][1..] == items[i + 1..];
        TickWatcher(items[i].0, items[i].1, now);
        i := i + 1;
      }
    }

    /** One pass of the `_run_watch` loop, for the watch `watch` of `chatId`. */
    method TickWatcher(chatId: string, watch: Watch, now: real)
      modifies this
      requires Valid()
      ensures Valid()
      ensures State() == TickOne(config, chatId, watch, old(State()), now)
    {
      ghost var before := State();
      TickOneDistinct(config, chatId, watch, before, now);
      if now < watch.nextAt {
        return;
      }
      if config.calStatus.None? {
        SafeReply(chatId, TickUnavailable);
        watchers := Dict.Remove(watchers, chatId);
        assert State() == TickOne(config, chatId, watch, before, now);
        return;
      }
      TickOneDue(config, chatId, watch, before, now);
      var r := config.calStatus.value();
      calls := calls + [CalStatus];
      SafeReply(chatId, Outcome("Calibration", r.0, r.1));
      // On failure the rescheduled watch is popped at once, which leaves
      // the watchers as if the chat had simply been removed.
      if r.0 {
        watchers := Dict.Put(watchers, chatId, Watch(watch.interval, now + MaxReal(2.0, watch.interval)));
      } else {
        watchers := Dict.Remove(watchers, chatId);
      }
      assert State() == TickOne(config, chatId, watch, before, now);
    }
  }
}
