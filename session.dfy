/**
 * The per-frame session state machine shared by both revisions of the chat
 * client, src/main.rs (the compiled binary) and src/app.rs (the unfinished
 * refactor). Each function below is one block of `MyApp::update` or one of
 * its helper methods, applied to a snapshot of the `MyApp` fields; the two
 * classes that model the revisions are proved to compute exactly these.
 *
 * The channels are sequences: `requests` is what the request channel holds
 * (sent by the frame loop, not yet received by the worker), `responses` what
 * the response channel holds, and `historyRx` the optional one-shot history
 * receiver together with what its channel holds.
 */
module Session {
  import opened Wrappers
  import opened Chat
  import opened Text
  import Wire
  import Config
  import Dispatcher

  type ChatResult = Dispatcher.ChatResult
  type HistoryResult = Result<seq<ChatMessage>, string>

  datatype EditMode = Normal | Insert

  /** The two revisions: src/main.rs and src/app.rs. */
  datatype Revision = Binary | Refactor

  /** The keys the core reacts to. */
  datatype Key = Escape | Enter | I | R | J | K | G

  /** egui's modifier state for the frame. */
  datatype Modifiers = Modifiers(alt: bool, ctrl: bool, shift: bool, macCmd: bool, command: bool) {
    /** `Modifiers::any`. */
    predicate Any() {
      alt || ctrl || shift || macCmd || command
    }
  }

  /**
   * What egui reports for one frame. `text` is the input buffer after the
   * multiline text widget has applied this frame's typing; `renderedOffset`
   * is the offset the scroll area settled on after clamping the requested
   * one; `viewportHeight` is the scroll area's visible height.
   */
  datatype FrameEvents = FrameEvents(
    refreshClicked: bool,
    pressed: set<Key>,
    mods: Modifiers,
    text: string,
    textEditFocused: bool,
    sendClicked: bool,
    renderedOffset: real,
    viewportHeight: real)
  {
    /** What egui guarantees of a layout pass. */
    predicate Laid() {
      renderedOffset >= 0.0 && viewportHeight >= 0.0
    }
  }

  /** The fields of `MyApp` the core reads and writes. */
  datatype AppState = AppState(
    messages: seq<ChatMessage>,
    input: string,
    isProcessing: bool,
    selectedModel: string,
    models: seq<string>,
    editMode: EditMode,
    pendingScroll: Option<real>,
    currentScrollOffset: real,
    lastScrollAreaHeight: real,
    requests: seq<string>,
    responses: seq<ChatResult>,
    historyRx: Option<seq<HistoryResult>>)

  const SystemPrompt: string := "You are a helpful assistant. You can use markdown formatting in your responses."

  /** `j`/`k` scroll by one message height. */
  const LineStep: real := 60.0

  /** The offset that asks the scroll area for its bottom. */
  const BottomSentinel: real := 100000.0

  function SystemMessage(): ChatMessage {
    ChatMessage(System, SystemPrompt)
  }

  /** `f32::max(x, 0.0)`. */
  function Max0(x: real): (r: real)
    ensures r >= 0.0 && r >= x && (r == x || r == 0.0)
  {
    if x >= 0.0 then x else 0.0
  }

  // ---------------------------------------------------------------------------
  // Invariants

  /** Operations outstanding: queued or answered chat requests, and an armed history slot. */
  function InFlight(s: AppState): nat {
    |s.requests| + |s.responses| + (if s.historyRx.Some? then 1 else 0)
  }

  /**
   * The session invariant: at most one operation outstanding and the busy
   * flag set exactly when one is; the system prompt first in the transcript;
   * no negative scroll offset anywhere.
   */
  predicate Inv(s: AppState) {
    && InFlight(s) <= 1
    && (s.isProcessing <==> InFlight(s) == 1)
    && (s.historyRx.Some? ==> |s.historyRx.value| <= 1)
    && s.messages != [] && s.messages[0] == SystemMessage()
    && s.currentScrollOffset >= 0.0
    && s.lastScrollAreaHeight >= 0.0
    && (s.pendingScroll.Some? ==> s.pendingScroll.value >= 0.0)
  }

  /** Every queued request carries the separator the worker splits on. */
  predicate WellFormedRequests(s: AppState) {
    forall i :: 0 <= i < |s.requests| ==> Wire.Separator in s.requests[i]
  }

  // ---------------------------------------------------------------------------
  // Start-up (`MyApp::new`)

  /**
   * The state `new` builds: the system prompt, then the history fetched at
   * start-up if that succeeded (a failure to create the runtime counts as an
   * error here), in which case the view is sent to the bottom.
   */
  function Initial(config: Config.AppConfig, startup: HistoryResult): (s: AppState)
    ensures Inv(s) && WellFormedRequests(s)
    ensures !s.isProcessing && s.editMode == Insert && s.input == ""
    ensures s.messages == [SystemMessage()] + (if startup.Ok? then startup.value else [])
    ensures s.pendingScroll == (if startup.Ok? then Some(BottomSentinel) else None)
    ensures s.models == Config.ModelsOrDefault(config)
    ensures s.selectedModel == Config.FirstOrEmpty(s.models)
    ensures s.models != [] ==> s.selectedModel == s.models[0]
    ensures s.requests == [] && s.responses == [] && s.historyRx.None?
    ensures s.currentScrollOffset == 0.0 && s.lastScrollAreaHeight == 0.0
  {
    var models := Config.ModelsOrDefault(config);
    AppState(
      messages := [SystemMessage()] + (match startup case Ok(h) => h case Err(_) => []),
      input := "",
      isProcessing := false,
      selectedModel := Config.FirstOrEmpty(models),
      models := models,
      editMode := Insert,
      pendingScroll := if startup.Ok? then Some(BottomSentinel) else None,
      currentScrollOffset := 0.0,
      lastScrollAreaHeight := 0.0,
      requests := [],
      responses := [],
      historyRx := None)
  }

  // ---------------------------------------------------------------------------
  // Helper methods of `MyApp`

  /** `scroll_to_bottom` (src/app.rs only). */
  function ScrollToBottom(s: AppState): (r: AppState)
    ensures r.pendingScroll == Some(BottomSentinel)
    ensures r.(pendingScroll := s.pendingScroll) == s
  {
    s.(pendingScroll := Some(BottomSentinel))
  }

  /** `refresh_history`: ignored while busy, else sets busy and arms an empty history channel. */
  function RefreshHistory(s: AppState): (r: AppState)
    ensures s.isProcessing ==> r == s
    ensures !s.isProcessing ==> r.isProcessing && r.historyRx == Some([])
    ensures r.(isProcessing := s.isProcessing, historyRx := s.historyRx) == s
  {
    if s.isProcessing then s else s.(isProcessing := true, historyRx := Some([]))
  }

  /**
   * `send_message`, which nothing calls: it enqueues the raw input with no
   * separator; src/app.rs also scrolls to the bottom.
   */
  function SendMessage(s: AppState, rev: Revision): (r: AppState)
    ensures r.(messages := s.messages, input := s.input, isProcessing := s.isProcessing,
               requests := s.requests, pendingScroll := s.pendingScroll) == s
    ensures rev == Binary ==> r.pendingScroll == s.pendingScroll
    ensures r.requests == s.requests || r.requests == s.requests + [s.input]
  {
    if IsBlank(s.input) || s.isProcessing then s
    else
      var s1 := s.(messages := s.messages + [ChatMessage(User, s.input)]);
      var s2 := if rev == Refactor then ScrollToBottom(s1) else s1;
      s2.(requests := s2.requests + [s2.input], input := "", isProcessing := true)
  }

  /** `handle_normal_mode`: a focused input field surrenders focus and the mode becomes Insert. */
  function HandleNormalMode(s: AppState, focused: bool): (r: AppState)
    ensures r.(editMode := s.editMode) == s
    ensures r.editMode == Insert <==> focused || s.editMode == Insert
  {
    if focused then s.(editMode := Insert) else s
  }

  // ---------------------------------------------------------------------------
  // The blocks of `update`, in frame order

  /** The top panel's Refresh button, honoured only when not busy. */
  function TopPanel(s: AppState, refreshClicked: bool): (r: AppState)
    ensures !refreshClicked || s.isProcessing ==> r == s
    ensures refreshClicked && !s.isProcessing ==> r.isProcessing && r.historyRx == Some([])
    ensures r.(isProcessing := s.isProcessing, historyRx := s.historyRx) == s
  {
    if refreshClicked && !s.isProcessing then RefreshHistory(s) else s
  }

  /** `i` with none of shift, ctrl, alt, mac_cmd, command. */
  predicate PlainI(pressed: set<Key>, mods: Modifiers) {
    I in pressed && !mods.shift && !mods.ctrl && !mods.alt && !mods.macCmd && !mods.command
  }

  /** One scroll key check of Normal mode: whether it fires and the offset it requests. */
  datatype ScrollCheck = ScrollCheck(fires: bool, target: real)

  /** The Normal-mode scroll checks, in the order the frame runs them. */
  function ScrollChecks(pressed: set<Key>, mods: Modifiers, current: real, height: real): seq<ScrollCheck> {
    [ ScrollCheck(J in pressed && !mods.shift, current + LineStep),
      ScrollCheck(K in pressed && !mods.shift, Max0(current - LineStep)),
      ScrollCheck(J in pressed && mods.shift, current + height),
      ScrollCheck(K in pressed && mods.shift, Max0(current - height)),
      ScrollCheck(G in pressed && mods.shift, BottomSentinel),
      ScrollCheck(G in pressed && !mods.shift, 0.0) ]
  }

  /** Runs the checks in order, each firing check overwriting the request. */
  function Overwrite(checks: seq<ScrollCheck>, pending: Option<real>): Option<real> {
    if checks == [] then pending
    else Overwrite(checks[1..], if checks[0].fires then Some(checks[0].target) else pending)
  }

  /** Modal key handling. */
  function Keys(s: AppState, pressed: set<Key>, mods: Modifiers): (r: AppState)
    ensures r.messages == s.messages && r.input == s.input
    ensures r.requests == s.requests && r.responses == s.responses
    ensures r.currentScrollOffset == s.currentScrollOffset && r.lastScrollAreaHeight == s.lastScrollAreaHeight
    ensures r.selectedModel == s.selectedModel && r.models == s.models
    ensures s.editMode == Normal && R in pressed && !mods.Any() ==>
      r.isProcessing && (!s.isProcessing ==> r.historyRx == Some([]))
    ensures !(s.editMode == Normal && R in pressed && !mods.Any()) ==>
      r.isProcessing == s.isProcessing && r.historyRx == s.historyRx
  {
    match s.editMode
    case Insert =>
      if Escape in pressed then s.(editMode := Normal) else s
    case Normal =>
      var s1 := if PlainI(pressed, mods) then s.(editMode := Insert) else s;
      var s2 := if R in pressed && !mods.Any() then RefreshHistory(s1) else s1;
      s2.(pendingScroll := Overwrite(ScrollChecks(pressed, mods, s.currentScrollOffset, s.lastScrollAreaHeight), s.pendingScroll))
  }

  /** The gate and effect of the inline send of the bottom panel. */
  function InlineSend(s: AppState): (r: AppState)
    ensures r.editMode == s.editMode && r.pendingScroll == s.pendingScroll
    ensures r.responses == s.responses && r.historyRx == s.historyRx
    ensures r.requests == s.requests || (!s.isProcessing && r.isProcessing && r.input == [] && |r.requests| == |s.requests| + 1)
  {
    if !IsBlank(s.input) && !s.isProcessing then
      s.(input := "",
         messages := s.messages + [ChatMessage(User, s.input)],
         requests := s.requests + [Wire.Encode(s.input, s.selectedModel)],
         isProcessing := true)
    else s
  }

  /** Whether the bottom panel attempts a send: Insert mode and a click on Send or Enter without shift. */
  predicate SendTriggered(mode: EditMode, ev: FrameEvents) {
    mode == Insert && (ev.sendClicked || (Enter in ev.pressed && !ev.mods.shift))
  }

  /** The bottom panel: the text widget, the Normal-mode focus rule, then the inline send. */
  function BottomPanel(s: AppState, ev: FrameEvents): (r: AppState)
    ensures r.pendingScroll == s.pendingScroll && r.responses == s.responses && r.historyRx == s.historyRx
    ensures r.currentScrollOffset == s.currentScrollOffset && r.lastScrollAreaHeight == s.lastScrollAreaHeight
    ensures r.input == ev.text || r.input == []
  {
    var s1 := s.(input := ev.text);
    var s2 := if s1.editMode == Normal then HandleNormalMode(s1, ev.textEditFocused) else s1;
    if SendTriggered(s2.editMode, ev) then InlineSend(s2) else s2
  }

  /** The scroll area's write-back after layout. */
  function Render(s: AppState, renderedOffset: real, viewportHeight: real): (r: AppState)
    ensures r.pendingScroll.None?
    ensures r.currentScrollOffset == renderedOffset && r.lastScrollAreaHeight == viewportHeight
    ensures r.(pendingScroll := s.pendingScroll, currentScrollOffset := s.currentScrollOffset,
               lastScrollAreaHeight := s.lastScrollAreaHeight) == s
  {
    s.(lastScrollAreaHeight := viewportHeight, currentScrollOffset := renderedOffset, pendingScroll := None)
  }

  /** The transcript after a history result: keep the first message and replace the rest, or log the error. */
  function AfterHistory(messages: seq<ChatMessage>, result: HistoryResult): seq<ChatMessage> {
    match result
    case Ok(history) => (if messages != [] then messages[..1] else messages) + history
    case Err(e) => messages + [ChatMessage(System, "Error fetching history: " + e)]
  }

  /** The history poll: applies a received result, clears busy and drops the receiver. */
  function PollHistory(s: AppState): (r: AppState)
    ensures s.historyRx.None? || s.historyRx.value == [] ==> r == s
    ensures s.historyRx.Some? && s.historyRx.value != [] ==> !r.isProcessing && r.historyRx.None?
    ensures r.(messages := s.messages, isProcessing := s.isProcessing, historyRx := s.historyRx) == s
  {
    match s.historyRx
    case None => s
    case Some(rx) =>
      if rx == [] then s
      else s.(messages := AfterHistory(s.messages, rx[0]), isProcessing := false, historyRx := None)
  }

  /** The message a chat result adds to the transcript. */
  function Reply(r: ChatResult): ChatMessage {
    match r
    case Ok(content) => ChatMessage(Assistant, content)
    case Err(e) => ChatMessage(System, "Error: " + e)
  }

  /** The chat poll: takes one result, appends its message and clears busy; src/app.rs scrolls to the bottom on Ok. */
  function PollResponse(s: AppState, rev: Revision): (r: AppState)
    ensures s.responses == [] ==> r == s
    ensures s.responses != [] ==>
              r.responses == s.responses[1..] && !r.isProcessing && |r.messages| == |s.messages| + 1
    ensures r.(messages := s.messages, responses := s.responses, isProcessing := s.isProcessing,
               pendingScroll := s.pendingScroll) == s
    ensures rev == Binary ==> r.pendingScroll == s.pendingScroll
  {
    if s.responses == [] then s
    else
      var r := s.responses[0];
      var s1 := s.(messages := s.messages + [Reply(r)], responses := s.responses[1..]);
      var s2 := if rev == Refactor && r.Ok? then ScrollToBottom(s1) else s1;
      s2.(isProcessing := false)
  }

  /** One call of `update`. */
  function Frame(s: AppState, ev: FrameEvents, rev: Revision): (r: AppState)
    ensures r.models == s.models && r.selectedModel == s.selectedModel
    ensures r.currentScrollOffset == ev.renderedOffset && r.lastScrollAreaHeight == ev.viewportHeight
    ensures r.input == ev.text || r.input == []
  {
    var s1 := TopPanel(s, ev.refreshClicked);
    var s2 := Keys(s1, ev.pressed, ev.mods);
    var s3 := BottomPanel(s2, ev);
    var s4 := Render(s3, ev.renderedOffset, ev.viewportHeight);
    var s5 := PollHistory(s4);
    PollResponse(s5, rev)
  }

  // ---------------------------------------------------------------------------
  // The background workers

  /** The chat worker serves the oldest request. */
  function WorkerStep(s: AppState, config: Config.AppConfig, send: Dispatcher.Transport): (r: AppState)
    requires s.requests != [] && Wire.Separator in s.requests[0]
    ensures r.requests == s.requests[1..] && |r.responses| == |s.responses| + 1
    ensures r.responses[..|s.responses|] == s.responses
    ensures r.responses[|s.responses|] == Dispatcher.Serve(s.requests[0], config, send)
    ensures r.(requests := s.requests, responses := s.responses) == s
  {
    s.(requests := s.requests[1..],
       responses := s.responses + [Dispatcher.Serve(s.requests[0], config, send)])
  }

  /** The one-shot history worker delivers its single result. */
  function HistoryWorkerStep(s: AppState, fetched: HistoryResult): (r: AppState)
    requires s.historyRx == Some([])
    ensures r.historyRx == Some([fetched])
    ensures r.(historyRx := s.historyRx) == s
  {
    s.(historyRx := Some([fetched]))
  }

  // ---------------------------------------------------------------------------
  // Schedules

  /**
   * One step of the system: a frame, the chat worker serving a request, or
   * the history worker delivering. A worker with nothing to receive is
   * blocked, so its step changes nothing.
   */
  datatype Step = Tick(ev: FrameEvents) | Serve(send: Dispatcher.Transport) | Deliver(fetched: HistoryResult)

  function Apply(s: AppState, step: Step, config: Config.AppConfig, rev: Revision): AppState
    requires WellFormedRequests(s)
  {
    match step
    case Tick(ev) => Frame(s, ev, rev)
    case Serve(send) => if s.requests != [] then WorkerStep(s, config, send) else s
    case Deliver(fetched) => if s.historyRx == Some([]) then HistoryWorkerStep(s, fetched) else s
  }
}
