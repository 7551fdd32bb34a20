/**
 * `MyApp` of src/app.rs, the refactor that no module declaration pulls in.
 * It differs from the binary in routing scroll-to-bottom requests through
 * `scroll_to_bottom`: after `send_message`, for Shift+G, and after an Ok
 * reply, the last of which survives the frame and is consumed by the next.
 */
module RefactorApp {
  import opened Wrappers
  import opened Chat
  import opened Text
  import Wire
  import Config
  import Dispatcher
  import opened Session
  import SessionProperties

  class MyApp {
    /** The configuration the chat worker captured at start-up. */
    const config: Config.AppConfig

    var messages: seq<ChatMessage>
    var input: string
    var isProcessing: bool
    var selectedModel: string
    var models: seq<string>
    var editMode: EditMode
    var pendingScroll: Option<real>
    var currentScrollOffset: real
    var lastScrollAreaHeight: real
    var requests: seq<string>
    var responses: seq<ChatResult>
    var historyRx: Option<seq<HistoryResult>>

    ghost function State(): AppState
      reads this
    {
      AppState(messages, input, isProcessing, selectedModel, models, editMode, pendingScroll,
               currentScrollOffset, lastScrollAreaHeight, requests, responses, historyRx)
    }

    ghost predicate Valid()
      reads this
    {
      Inv(State()) && WellFormedRequests(State())
    }

    /**
     * `MyApp::new`: loads the configuration, then builds the transcript from
     * the system prompt and the start-up history fetch.
     */
    constructor (file: Config.ConfigFile, startup: HistoryResult)
      ensures config == Config.LoadOrCreate(file)
      ensures State() == Initial(config, startup)
      ensures Valid()
    {
      var cfg := Config.LoadOrCreate(file);
      var msgs := [SystemMessage()];
      var pending: Option<real> := None;
      if startup.Ok? {
        msgs := msgs + startup.value;
        pending := Some(BottomSentinel);
      }
      var ms := Config.ModelsOrDefault(cfg);
      config := cfg;
      messages := msgs;
      input := "";
      isProcessing := false;
      selectedModel := if |ms| > 0 then ms[0] else "";
      models := ms;
      editMode := Insert;
      pendingScroll := pending;
      currentScrollOffset := 0.0;
      lastScrollAreaHeight := 0.0;
      requests := [];
      responses := [];
      historyRx := None;
    }

    /** `scroll_to_bottom`. */
    method ScrollToBottom()
      modifies this`pendingScroll
      ensures pendingScroll == Some(BottomSentinel)
    {
      pendingScroll := Some(BottomSentinel);
    }

    /** `send_message` (never called): queues the raw input, with no separator, and scrolls to the bottom. */
    method SendMessage()
      modifies this
      ensures State() == Session.SendMessage(old(State()), Refactor)
    {
      if IsBlank(input) || isProcessing {
        return;
      }
      messages := messages + [ChatMessage(User, input)];
      ScrollToBottom();
      requests := requests + [input];
      input := "";
      isProcessing := true;
    }

    /** `refresh_history`. */
    method RefreshHistory()
      modifies this
      ensures State() == Session.RefreshHistory(old(State()))
    {
      if isProcessing {
        return;
      }
      isProcessing := true;
      historyRx := Some([]);
    }

    /** `handle_normal_mode`. */
    method HandleNormalMode(focused: bool)
      modifies this
      ensures State() == Session.HandleNormalMode(old(State()), focused)
    {
      if focused {
        editMode := Insert;
      }
    }

    /** The top panel's Refresh button. */
    method TopPanel(refreshClicked: bool)
      modifies this
      ensures State() == Session.TopPanel(old(State()), refreshClicked)
    {
      if refreshClicked && !isProcessing {
        RefreshHistory();
      }
    }

    /** Modal key handling (src/app.rs:253-302). */
    method HandleKeys(pressed: set<Key>, mods: Modifiers)
      modifies this
      ensures State() == Keys(old(State()), pressed, mods)
    {
      match editMode {
        case Insert =>
          if Escape in pressed {
            editMode := Normal;
          }
        case Normal =>
          if I in pressed && !mods.shift && !mods.ctrl && !mods.alt && !mods.macCmd && !mods.command {
            editMode := Insert;
          }
          if R in pressed && !mods.Any() {
            RefreshHistory();
          }
          ScrollKeys(pressed, mods);
      }
    }

    /** The Normal-mode scroll checks (src/app.rs:271-300): each firing check overwrites the request. */
    method ScrollKeys(pressed: set<Key>, mods: Modifiers)
      modifies this`pendingScroll
      ensures pendingScroll == Overwrite(ScrollChecks(pressed, mods, currentScrollOffset, lastScrollAreaHeight), old(pendingScroll))
    {
      ghost var checks := ScrollChecks(pressed, mods, currentScrollOffset, lastScrollAreaHeight);
      ghost var requested := Overwrite(checks, pendingScroll);
      var scrollAmount := LineStep;
      if J in pressed && !mods.shift {
        pendingScroll := Some(currentScrollOffset + scrollAmount);
      }
      assert requested == Overwrite(checks[1..], pendingScroll);
      if K in pressed && !mods.shift {
        pendingScroll := Some(Max0(currentScrollOffset - scrollAmount));
      }
      assert requested == Overwrite(checks[2..], pendingScroll) by { assert checks[1..][1..] == checks[2..]; }
      var windowHeight := lastScrollAreaHeight;
      if J in pressed && mods.shift {
        pendingScroll := Some(currentScrollOffset + windowHeight);
      }
      assert requested == Overwrite(checks[3..], pendingScroll) by { assert checks[2..][1..] == checks[3..]; }
      if K in pressed && mods.shift {
        pendingScroll := Some(Max0(currentScrollOffset - windowHeight));
      }
      assert requested == Overwrite(checks[4..], pendingScroll) by { assert checks[3..][1..] == checks[4..]; }
      if G in pressed && mods.shift {
        ScrollToBottom();
      }
      assert requested == Overwrite(checks[5..], pendingScroll) by { assert checks[4..][1..] == checks[5..]; }
      if G in pressed && !mods.shift {
        pendingScroll := Some(0.0);
      }
      assert requested == Overwrite(checks[6..], pendingScroll) by { assert checks[5..][1..] == checks[6..]; }
    }

    /** The bottom panel: text widget, focus rule, then the Send button or Enter (src/app.rs:304-359). */
    method BottomPanel(ev: FrameEvents)
      modifies this
      ensures State() == Session.BottomPanel(old(State()), ev)
    {
      input := ev.text;
      match editMode {
        case Insert =>
        case Normal =>
          HandleNormalMode(ev.textEditFocused);
      }
      if editMode == Insert && (ev.sendClicked || (Enter in ev.pressed && !ev.mods.shift)) {
        InlineSend();
      }
    }

    /** The inline send: gated on non-blank input and not busy, it queues `message\0model`. */
    method InlineSend()
      modifies this
      ensures State() == Session.InlineSend(old(State()))
    {
      if !IsBlank(input) && !isProcessing {
        var message := input;
        var request := Wire.Encode(message, selectedModel);
        input := "";
        messages := messages + [ChatMessage(User, message)];
        requests := requests + [request];
        isProcessing := true;
      }
    }

    /** The scroll area's write-back: the offset egui settled on replaces the request. */
    method Render(renderedOffset: real, viewportHeight: real)
      modifies this
      ensures State() == Session.Render(old(State()), renderedOffset, viewportHeight)
    {
      lastScrollAreaHeight := viewportHeight;
      currentScrollOffset := renderedOffset;
      pendingScroll := None;
    }

    /** The history poll (src/app.rs:405-426). */
    method PollHistory()
      modifies this
      ensures State() == Session.PollHistory(old(State()))
    {
      if historyRx.Some? && historyRx.value != [] {
        var result := historyRx.value[0];
        match result {
          case Ok(history) =>
            if messages != [] {
              messages := messages[..1];
            }
            messages := messages + history;
          case Err(error) =>
            messages := messages + [ChatMessage(System, "Error fetching history: " + error)];
        }
        isProcessing := false;
        historyRx := None;
      }
    }

    /** The chat poll (src/app.rs:428-446). */
    method PollResponse()
      modifies this
      ensures State() == Session.PollResponse(old(State()), Refactor)
    {
      if responses != [] {
        var response := responses[0];
        responses := responses[1..];
        match response {
          case Ok(content) =>
            messages := messages + [ChatMessage(Assistant, content)];
            ScrollToBottom();
          case Err(error) =>
            messages := messages + [ChatMessage(System, "Error: " + error)];
        }
        isProcessing := false;
      }
    }

    /** `update`: one frame. */
    method Update(ev: FrameEvents)
      requires Valid() && ev.Laid()
      modifies this
      ensures State() == Frame(old(State()), ev, Refactor)
      ensures Valid()
      ensures pendingScroll == (if old(responses) != [] && old(responses)[0].Ok? then Some(BottomSentinel) else None)
      ensures currentScrollOffset == ev.renderedOffset
    {
      SessionProperties.FramePreservesInv(State(), ev, Refactor);
      SessionProperties.RevisionsDiffer(State(), ev);
      TopPanel(ev.refreshClicked);
      HandleKeys(ev.pressed, ev.mods);
      BottomPanel(ev);
      Render(ev.renderedOffset, ev.viewportHeight);
      PollHistory();
      PollResponse();
    }

    /** The chat worker takes the oldest request and answers it through the transport. */
    method WorkerStep(send: Dispatcher.Transport)
      requires Valid() && requests != []
      modifies this
      ensures State() == Session.WorkerStep(old(State()), config, send)
      ensures Valid()
    {
      SessionProperties.ChatWorkerPreservesInv(State(), config, send);
      var message := requests[0];
      requests := requests[1..];
      var (content, model) := Wire.SplitOnce(message, Wire.Separator).value;
      var result := send(content, model, Dispatcher.ApiKey(config), Config.CompletionsUrl(config.apiUrl));
      responses := responses + [result];
    }

    /** The one-shot history worker sends its single result. */
    method HistoryWorkerStep(fetched: HistoryResult)
      requires Valid() && historyRx == Some([])
      modifies this
      ensures State() == Session.HistoryWorkerStep(old(State()), fetched)
      ensures Valid()
    {
      SessionProperties.HistoryWorkerPreservesInv(State(), fetched);
      historyRx := Some([fetched]);
    }
  }
}
