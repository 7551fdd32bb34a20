/** What the session state machine guarantees, for every state and every frame. */
module SessionProperties {
  import opened Wrappers
  import opened Chat
  import opened Text
  import Wire
  import Config
  import Dispatcher
  import opened Session

  // ---------------------------------------------------------------------------
  // Scroll requests

  /** With no check firing, the request is left as it was. */
  lemma {:induction false} OverwriteNoneFires(checks: seq<ScrollCheck>, pending: Option<real>)
    requires forall i :: 0 <= i < |checks| ==> !checks[i].fires
    ensures Overwrite(checks, pending) == pending
  {
    if checks != [] {
      OverwriteNoneFires(checks[1..], pending);
    }
  }

  /** A later check overwrites an earlier one: the request is the target of the last check that fired. */
  lemma {:induction false} OverwriteLastFiring(checks: seq<ScrollCheck>, pending: Option<real>, k: nat)
    requires k < |checks| && checks[k].fires
    requires forall j :: k < j < |checks| ==> !checks[j].fires
    ensures Overwrite(checks, pending) == Some(checks[k].target)
  {
    var next := if checks[0].fires then Some(checks[0].target) else pending;
    if k == 0 {
      OverwriteNoneFires(checks[1..], next);
    } else {
      OverwriteLastFiring(checks[1..], next, k - 1);
    }
  }

  /** Non-negative targets and a non-negative pending request give a non-negative request. */
  lemma {:induction false} OverwriteNonNegative(checks: seq<ScrollCheck>, pending: Option<real>)
    requires forall i :: 0 <= i < |checks| ==> checks[i].target >= 0.0
    requires pending.Some? ==> pending.value >= 0.0
    ensures Overwrite(checks, pending).Some? ==> Overwrite(checks, pending).value >= 0.0
  {
    if checks != [] {
      var next := if checks[0].fires then Some(checks[0].target) else pending;
      OverwriteNonNegative(checks[1..], next);
    }
  }

  /**
   * Normal-mode scroll keys: j and k move by 60, shift moves by the viewport
   * height, k never goes below 0, G asks for the bottom, g for the top; with
   * no scroll key the request is left as it was.
   */
  lemma ScrollKeyEffects(s: AppState, pressed: set<Key>, mods: Modifiers)
    requires s.editMode == Normal
    ensures pressed * {J, K, G} == {} ==> Keys(s, pressed, mods).pendingScroll == s.pendingScroll
    ensures pressed * {J, K, G} == {J} && !mods.shift ==>
              Keys(s, pressed, mods).pendingScroll == Some(s.currentScrollOffset + LineStep)
    ensures pressed * {J, K, G} == {K} && !mods.shift ==>
              Keys(s, pressed, mods).pendingScroll == Some(Max0(s.currentScrollOffset - LineStep))
    ensures pressed * {J, K, G} == {J} && mods.shift ==>
              Keys(s, pressed, mods).pendingScroll == Some(s.currentScrollOffset + s.lastScrollAreaHeight)
    ensures pressed * {J, K, G} == {K} && mods.shift ==>
              Keys(s, pressed, mods).pendingScroll == Some(Max0(s.currentScrollOffset - s.lastScrollAreaHeight))
    ensures G in pressed && mods.shift ==> Keys(s, pressed, mods).pendingScroll == Some(BottomSentinel)
    ensures G in pressed && !mods.shift ==> Keys(s, pressed, mods).pendingScroll == Some(0.0)
  {
    var checks := ScrollChecks(pressed, mods, s.currentScrollOffset, s.lastScrollAreaHeight);
    var hits := pressed * {J, K, G};
    assert J in pressed <==> J in hits;
    assert K in pressed <==> K in hits;
    assert G in pressed <==> G in hits;
    if G in pressed {
      OverwriteLastFiring(checks, s.pendingScroll, if mods.shift then 4 else 5);
    } else if hits == {J} {
      OverwriteLastFiring(checks, s.pendingScroll, if mods.shift then 2 else 0);
    } else if hits == {K} {
      OverwriteLastFiring(checks, s.pendingScroll, if mods.shift then 3 else 1);
    } else if hits == {} {
      OverwriteNoneFires(checks, s.pendingScroll);
    }
  }

  /** In Insert mode no key touches the scroll request. */
  lemma InsertKeysKeepScroll(s: AppState, pressed: set<Key>, mods: Modifiers)
    requires s.editMode == Insert
    ensures Keys(s, pressed, mods).pendingScroll == s.pendingScroll
    ensures Keys(s, pressed, mods) == s || Keys(s, pressed, mods) == s.(editMode := Normal)
  {
  }

  /** The example of a Shift+J jump: 500 + 300 requested, then the scroll area clamps to 650. */
  lemma ShiftJThenClamp(s: AppState, mods: Modifiers)
    requires s.editMode == Normal && s.currentScrollOffset == 500.0 && s.lastScrollAreaHeight == 300.0
    requires mods.shift
    ensures Keys(s, {J}, mods).pendingScroll == Some(800.0)
    ensures Render(Keys(s, {J}, mods), 650.0, 300.0).currentScrollOffset == 650.0
    ensures Render(Keys(s, {J}, mods), 650.0, 300.0).pendingScroll == None
  {
    ScrollKeyEffects(s, {J}, mods);
  }

  /** `scroll_to_bottom` twice is `scroll_to_bottom` once. */
  lemma ScrollToBottomIdempotent(s: AppState)
    ensures ScrollToBottom(ScrollToBottom(s)) == ScrollToBottom(s)
    ensures ScrollToBottom(s).pendingScroll == Some(BottomSentinel)
  {
  }

  // ---------------------------------------------------------------------------
  // Modes

  /** Key handling changes the mode only by Escape in Insert mode and plain `i` in Normal mode. */
  lemma KeysChangeMode(s: AppState, pressed: set<Key>, mods: Modifiers)
    ensures Keys(s, pressed, mods).editMode != s.editMode <==>
              (s.editMode == Insert && Escape in pressed) || (s.editMode == Normal && PlainI(pressed, mods))
  {
  }

  /** Write-back and the polls leave the mode alone. */
  lemma LaterStagesKeepMode(s3: AppState, ev: FrameEvents, rev: Revision)
    ensures PollResponse(PollHistory(Render(s3, ev.renderedOffset, ev.viewportHeight)), rev).editMode == s3.editMode
  {
  }

  /** Over a whole frame: Insert ends in Normal only after Escape; Normal ends in Insert only by plain `i` or a focused input field. */
  lemma FrameMode(s: AppState, ev: FrameEvents, rev: Revision)
    ensures s.editMode == Insert ==>
              (Frame(s, ev, rev).editMode == Normal <==> Escape in ev.pressed && !ev.textEditFocused)
    ensures s.editMode == Normal ==>
              (Frame(s, ev, rev).editMode == Insert <==> PlainI(ev.pressed, ev.mods) || ev.textEditFocused)
  {
    var s1 := TopPanel(s, ev.refreshClicked);
    var s2 := Keys(s1, ev.pressed, ev.mods);
    KeysChangeMode(s1, ev.pressed, ev.mods);
    var s3 := BottomPanel(s2, ev);
    LaterStagesKeepMode(s3, ev, rev);
  }

  // ---------------------------------------------------------------------------
  // Sending

  /** The inline send's gate: Insert mode (after the focus rule), a trigger, non-blank text, not busy. */
  predicate SendFires(s: AppState, ev: FrameEvents) {
    var mode := if s.editMode == Normal && ev.textEditFocused then Insert else s.editMode;
    SendTriggered(mode, ev) && !IsBlank(ev.text) && !s.isProcessing
  }

  /**
   * Without the gate the bottom panel sends nothing: transcript, queue and
   * busy flag unchanged, the typed text kept. With it, exactly one User
   * message equal to the text is appended, exactly one encoded request is
   * queued, the input is emptied and the session is busy.
   */
  lemma BottomPanelSend(s: AppState, ev: FrameEvents)
    ensures !SendFires(s, ev) ==>
              var t := BottomPanel(s, ev);
              t.messages == s.messages && t.requests == s.requests &&
              t.isProcessing == s.isProcessing && t.input == ev.text
    ensures SendFires(s, ev) ==>
              var t := BottomPanel(s, ev);
              t.messages == s.messages + [ChatMessage(User, ev.text)] && t.input == "" &&
              t.requests == s.requests + [Wire.Encode(ev.text, s.selectedModel)] && t.isProcessing
  {
    var s1 := s.(input := ev.text);
    var s2 := if s1.editMode == Normal then HandleNormalMode(s1, ev.textEditFocused) else s1;
    assert s2.editMode == (if s.editMode == Normal && ev.textEditFocused then Insert else s.editMode);
    assert s2.input == ev.text && s2.isProcessing == s.isProcessing;
    assert s2.messages == s.messages && s2.requests == s.requests && s2.selectedModel == s.selectedModel;
    assert BottomPanel(s, ev) == if SendTriggered(s2.editMode, ev) then InlineSend(s2) else s2;
  }

  /** `send_message` does nothing on blank input or while busy, and otherwise enqueues the raw input. */
  lemma SendMessageEffect(s: AppState, rev: Revision)
    ensures IsBlank(s.input) || s.isProcessing ==> SendMessage(s, rev) == s
    ensures !IsBlank(s.input) && !s.isProcessing ==>
              var t := SendMessage(s, rev);
              t.messages == s.messages + [ChatMessage(User, s.input)] && t.input == "" &&
              t.requests == s.requests + [s.input] && t.isProcessing &&
              t.pendingScroll == (if rev == Refactor then Some(BottomSentinel) else s.pendingScroll)
  {
  }

  /** The request `send_message` queues has no separator, so the worker's `split_once` finds nothing. */
  lemma SendMessageRequestUnsplittable(s: AppState, rev: Revision)
    requires !IsBlank(s.input) && !s.isProcessing && Wire.Separator !in s.input
    ensures Wire.SplitOnce(SendMessage(s, rev).requests[|s.requests|], Wire.Separator).None?
  {
    SendMessageEffect(s, rev);
  }

  /**
   * The scenario of typing "hello" and pressing Enter in an idle Insert-mode
   * session. The focused multiline field has already inserted the newline of
   * Enter when the gate reads the buffer, so the message is "hello\n".
   */
  lemma HelloEnter(s: AppState, ev: FrameEvents, rev: Revision)
    requires Inv(s) && !s.isProcessing && s.editMode == Insert
    requires ev.text == "hello\n" && ev.pressed == {Enter} && !ev.mods.shift && !ev.refreshClicked
    ensures var t := Frame(s, ev, rev);
            t.messages == s.messages + [ChatMessage(User, "hello\n")] && t.input == "" && t.isProcessing &&
            t.requests == [Wire.Encode("hello\n", s.selectedModel)]
  {
    assert !IsBlank("hello\n") by { assert !IsWhitespace("hello\n"[0]); }
    BottomPanelSend(Keys(TopPanel(s, false), {Enter}, ev.mods), ev);
  }

  // ---------------------------------------------------------------------------
  // Results

  /**
   * A history result keeps the system prompt and replaces everything after
   * it, or appends one error notice; either way busy is cleared and the
   * receiver dropped.
   */
  lemma HistoryResultEffect(s: AppState, result: HistoryResult)
    requires Inv(s) && s.historyRx == Some([result])
    ensures var t := PollHistory(s);
            !t.isProcessing && t.historyRx.None? &&
            t.messages == (match result
                           case Ok(h) => [SystemMessage()] + h
                           case Err(e) => s.messages + [ChatMessage(System, "Error fetching history: " + e)])
  {
  }

  /** `AfterHistory` on any transcript: element 0 survives an Ok, an empty transcript becomes the history. */
  lemma {:induction false} AfterHistoryKeepsHead(messages: seq<ChatMessage>, history: seq<ChatMessage>)
    ensures messages != [] ==> AfterHistory(messages, Ok(history)) == [messages[0]] + history
    ensures messages == [] ==> AfterHistory(messages, Ok(history)) == history
  {
    if messages != [] {
      assert messages[..1] == [messages[0]];
    }
  }

  /**
   * A chat result appends one Assistant message or one "Error: " notice,
   * clears busy and queues nothing; src/main.rs leaves the scroll request
   * alone, src/app.rs asks for the bottom after an Ok only.
   */
  lemma ChatResultEffect(s: AppState, rev: Revision)
    requires s.responses != []
    ensures var t := PollResponse(s, rev);
            !t.isProcessing && t.requests == s.requests && t.responses == s.responses[1..] &&
            t.messages == s.messages + [match s.responses[0]
                                        case Ok(text) => ChatMessage(Assistant, text)
                                        case Err(e) => ChatMessage(System, "Error: " + e)] &&
            t.pendingScroll == (if rev == Refactor && s.responses[0].Ok? then Some(BottomSentinel) else s.pendingScroll)
  {
  }

  // ---------------------------------------------------------------------------
  // The invariant

  lemma RefreshPreservesInv(s: AppState)
    requires Inv(s)
    ensures Inv(RefreshHistory(s)) && RefreshHistory(s).requests == s.requests
    ensures s.isProcessing ==> RefreshHistory(s) == s
    ensures !s.isProcessing ==> RefreshHistory(s).historyRx == Some([])
  {
  }

  lemma KeysPreserveInv(s: AppState, pressed: set<Key>, mods: Modifiers)
    requires Inv(s)
    ensures Inv(Keys(s, pressed, mods))
    ensures Keys(s, pressed, mods).requests == s.requests
  {
    if s.editMode == Normal {
      var checks := ScrollChecks(pressed, mods, s.currentScrollOffset, s.lastScrollAreaHeight);
      assert forall i :: 0 <= i < |checks| ==> checks[i].target >= 0.0 by {
        assert checks[0].target >= 0.0 && checks[2].target >= 0.0;
      }
      OverwriteNonNegative(checks, s.pendingScroll);
      var s1 := if PlainI(pressed, mods) then s.(editMode := Insert) else s;
      var s2 := if R in pressed && !mods.Any() then RefreshHistory(s1) else s1;
      RefreshPreservesInv(s1);
      assert Inv(s2);
    }
  }

  lemma BottomPanelPreservesInv(s: AppState, ev: FrameEvents)
    requires Inv(s) && WellFormedRequests(s)
    ensures Inv(BottomPanel(s, ev)) && WellFormedRequests(BottomPanel(s, ev))
  {
    var t := BottomPanel(s, ev);
    if |t.requests| != |s.requests| {
      var e := Wire.Encode(ev.text, s.selectedModel);
      assert e[|ev.text|] == Wire.Separator;
      assert t.requests == s.requests + [e];
    }
  }

  /** The layout write-back and both polls keep the invariant. */
  lemma WriteBackAndPollsPreserveInv(s: AppState, renderedOffset: real, viewportHeight: real, rev: Revision)
    requires Inv(s) && WellFormedRequests(s) && renderedOffset >= 0.0 && viewportHeight >= 0.0
    ensures var t := PollResponse(PollHistory(Render(s, renderedOffset, viewportHeight)), rev);
            Inv(t) && WellFormedRequests(t)
  {
    var s4 := Render(s, renderedOffset, viewportHeight);
    assert Inv(s4) && WellFormedRequests(s4);
    var s5 := PollHistory(s4);
    assert Inv(s5) && WellFormedRequests(s5);
  }

  /** Every frame keeps the invariant and keeps the request queue well formed. */
  lemma FramePreservesInv(s: AppState, ev: FrameEvents, rev: Revision)
    requires Inv(s) && WellFormedRequests(s) && ev.Laid()
    ensures Inv(Frame(s, ev, rev)) && WellFormedRequests(Frame(s, ev, rev))
  {
    var s1 := TopPanel(s, ev.refreshClicked);
    RefreshPreservesInv(s);
    var s2 := Keys(s1, ev.pressed, ev.mods);
    KeysPreserveInv(s1, ev.pressed, ev.mods);
    assert WellFormedRequests(s2);
    BottomPanelPreservesInv(s2, ev);
    var s3 := BottomPanel(s2, ev);
    WriteBackAndPollsPreserveInv(s3, ev.renderedOffset, ev.viewportHeight, rev);
  }

  /** The chat worker turns the queued request into a waiting response, keeping the invariant and the busy flag. */
  lemma ChatWorkerPreservesInv(s: AppState, config: Config.AppConfig, send: Dispatcher.Transport)
    requires Inv(s) && WellFormedRequests(s) && s.requests != []
    ensures Inv(WorkerStep(s, config, send)) && WellFormedRequests(WorkerStep(s, config, send))
    ensures |WorkerStep(s, config, send).responses| == 1 && WorkerStep(s, config, send).isProcessing
  {
  }

  /** The history worker fills the armed slot, keeping the invariant. */
  lemma HistoryWorkerPreservesInv(s: AppState, fetched: HistoryResult)
    requires Inv(s) && WellFormedRequests(s) && s.historyRx == Some([])
    ensures Inv(HistoryWorkerStep(s, fetched)) && WellFormedRequests(HistoryWorkerStep(s, fetched))
    ensures HistoryWorkerStep(s, fetched).isProcessing
  {
  }

  /** `send_message` keeps the invariant, though its request is not well formed. */
  lemma SendMessagePreservesInv(s: AppState, rev: Revision)
    requires Inv(s)
    ensures Inv(SendMessage(s, rev))
  {
  }

  /**
   * A busy session stays busy through a frame exactly when its operation has
   * not yet produced a result.
   */
  lemma BusyClearsOnResult(s: AppState, ev: FrameEvents, rev: Revision)
    requires Inv(s) && s.isProcessing
    ensures !Frame(s, ev, rev).isProcessing <==>
              s.responses != [] || (s.historyRx.Some? && s.historyRx.value != [])
  {
    // Busy, so the refresh button, `r` and the send gate change nothing that matters here.
    var s1 := TopPanel(s, ev.refreshClicked);
    assert s1 == s;
    var s2 := Keys(s1, ev.pressed, ev.mods);
    assert s2.isProcessing && s2.requests == s.requests && s2.responses == s.responses && s2.historyRx == s.historyRx;
    var s3 := BottomPanel(s2, ev);
    assert s3.isProcessing && s3.responses == s.responses && s3.historyRx == s.historyRx;
    var s4 := Render(s3, ev.renderedOffset, ev.viewportHeight);
    var s5 := PollHistory(s4);
    assert s5.responses == s.responses;
    assert s5.isProcessing <==> !(s.historyRx.Some? && s.historyRx.value != []);
  }

  // ---------------------------------------------------------------------------
  // Scroll write-back and the two revisions

  /** src/main.rs: after any frame the request is consumed and the offset is the rendered one. */
  lemma BinaryConsumesScroll(s: AppState, ev: FrameEvents)
    ensures Frame(s, ev, Binary).pendingScroll == None
    ensures Frame(s, ev, Binary).currentScrollOffset == ev.renderedOffset
    ensures Frame(s, ev, Binary).lastScrollAreaHeight == ev.viewportHeight
  {
  }

  /**
   * The revisions differ in one field: after a frame src/app.rs holds a
   * bottom request exactly when the frame received an Ok reply, and src/main.rs
   * holds none.
   */
  lemma RevisionsDiffer(s: AppState, ev: FrameEvents)
    ensures Frame(s, ev, Binary) == Frame(s, ev, Refactor).(pendingScroll := None)
    ensures Frame(s, ev, Refactor).pendingScroll ==
              (if s.responses != [] && s.responses[0].Ok? then Some(BottomSentinel) else None)
  {
    var s1 := TopPanel(s, ev.refreshClicked);
    assert s1.responses == s.responses;
    var s2 := Keys(s1, ev.pressed, ev.mods);
    assert s2.responses == s.responses;
    var s3 := BottomPanel(s2, ev);
    assert s3.responses == s.responses;
    var s4 := Render(s3, ev.renderedOffset, ev.viewportHeight);
    var s5 := PollHistory(s4);
    assert s5.pendingScroll == None && s5.responses == s.responses;
    assert PollResponse(s5, Binary) == PollResponse(s5, Refactor).(pendingScroll := None);
  }

  // ---------------------------------------------------------------------------
  // Any interleaving of frames and workers

  /** One step of any kind keeps the invariant. */
  lemma ApplyPreservesInv(s: AppState, step: Step, config: Config.AppConfig, rev: Revision)
    requires Inv(s) && WellFormedRequests(s)
    requires step.Tick? ==> step.ev.Laid()
    ensures Inv(Apply(s, step, config, rev)) && WellFormedRequests(Apply(s, step, config, rev))
  {
    match step
    case Tick(ev) => FramePreservesInv(s, ev, rev);
    case Serve(send) => if s.requests != [] { ChatWorkerPreservesInv(s, config, send); }
    case Deliver(fetched) => if s.historyRx == Some([]) { HistoryWorkerPreservesInv(s, fetched); }
  }

  /** The state after running `steps` in order from `s`. */
  function Run(s: AppState, steps: seq<Step>, config: Config.AppConfig, rev: Revision): (t: AppState)
    requires Inv(s) && WellFormedRequests(s)
    requires forall i :: 0 <= i < |steps| && steps[i].Tick? ==> steps[i].ev.Laid()
    ensures Inv(t) && WellFormedRequests(t)
    decreases |steps|
  {
    if steps == [] then s
    else
      ApplyPreservesInv(s, steps[0], config, rev);
      Run(Apply(s, steps[0], config, rev), steps[1..], config, rev)
  }

  /** With the history slot armed and empty, a frame or a chat-worker step leaves it so and the session busy. */
  lemma StalledStepKeepsBusy(s: AppState, step: Step, config: Config.AppConfig, rev: Revision)
    requires Inv(s) && WellFormedRequests(s) && s.historyRx == Some([])
    requires !step.Deliver? && (step.Tick? ==> step.ev.Laid())
    ensures Apply(s, step, config, rev).historyRx == Some([])
    ensures Apply(s, step, config, rev).isProcessing
  {
    assert s.requests == [] && s.responses == [] && s.isProcessing;
    if step.Tick? {
      var ev := step.ev;
      var s1 := TopPanel(s, ev.refreshClicked);
      assert s1 == s;
      var s2 := Keys(s1, ev.pressed, ev.mods);
      assert s2.isProcessing && s2.historyRx == s.historyRx && s2.responses == [];
      var s3 := BottomPanel(s2, ev);
      assert s3.isProcessing && s3.historyRx == s.historyRx && s3.responses == [];
      var s4 := Render(s3, ev.renderedOffset, ev.viewportHeight);
      assert PollHistory(s4) == s4;
      assert PollResponse(s4, rev) == s4;
    }
  }

  /**
   * A history worker that dies before sending (its runtime `unwrap` panics)
   * drops its sender, so `try_recv` never yields a result: under any schedule
   * with no delivery the slot stays armed and the session stays busy for good.
   */
  lemma {:induction false} StalledHistoryStaysBusy(s: AppState, steps: seq<Step>, config: Config.AppConfig, rev: Revision)
    requires Inv(s) && WellFormedRequests(s) && s.historyRx == Some([])
    requires forall i :: 0 <= i < |steps| ==> !steps[i].Deliver? && (steps[i].Tick? ==> steps[i].ev.Laid())
    ensures Run(s, steps, config, rev).historyRx == Some([])
    ensures Run(s, steps, config, rev).isProcessing
    decreases |steps|
  {
    if steps != [] {
      StalledStepKeepsBusy(s, steps[0], config, rev);
      ApplyPreservesInv(s, steps[0], config, rev);
      var rest := steps[1..];
      assert forall i :: 0 <= i < |rest| ==> rest[i] == steps[i + 1];
      StalledHistoryStaysBusy(Apply(s, steps[0], config, rev), rest, config, rev);
    }
  }

  /**
   * Whatever the interleaving of frames and worker steps after start-up, at
   * most one chat request or history refresh is outstanding, the busy flag
   * is set exactly when one is, and the system prompt is still first.
   */
  lemma {:induction false} AtMostOneOutstanding(config: Config.AppConfig, startup: HistoryResult,
                                                steps: seq<Step>, rev: Revision)
    requires forall i :: 0 <= i < |steps| && steps[i].Tick? ==> steps[i].ev.Laid()
    ensures var t := Run(Initial(config, startup), steps, config, rev);
            InFlight(t) <= 1 && (t.isProcessing <==> InFlight(t) == 1) &&
            t.messages[0] == SystemMessage()
  {
  }
}
