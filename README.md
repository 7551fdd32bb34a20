# md-chat session core in Dafny

This project models the per-frame session state machine of the md-chat desktop client, a chat front end written in Rust with egui. One call of `MyApp::update` is one step. In that step the client:

- handles the modal keys (Normal and Insert mode, vi-style scrolling, `r` to refresh);
- gates and performs the inline send, which appends a User message and queues `message\0model` for the chat worker;
- writes the rendered scroll offset back;
- polls the one-shot history channel and the chat response channel.

The busy flag `is_processing` is shared by chat requests and history refreshes.

Both revisions of this logic are modelled:

- `src/main.rs`, the compiled binary: module `ChatApp`.
- `src/app.rs`, an unfinished refactor that no `mod` declaration pulls in: module `RefactorApp`. It asks for scroll-to-bottom after an Ok reply, in `send_message` and for Shift+G, all through `scroll_to_bottom`.

The refactor's input row `InputPanel::show` (`src/components/input_panel.rs`) and the configuration helpers (`src/config.rs`) are modelled too.

Files and modules:

- `wrappers.dfy` (`Wrappers`): Option and Result.
- `chat.dfy` (`Chat`): `Role` and `ChatMessage`.
- `text.dfy` (`Text`): Rust's `str::trim` and `char::is_whitespace`, which the send gates use.
- `wire.dfy` (`Wire`): the NUL-separated request encoding and `split_once`.
- `config.dfy` (`Config`): the completions URL, the default models and the fallback of `load_or_create_config`.
- `dispatcher.dfy` (`Dispatcher`): the chat worker's loop.
- `session.dfy` (`Session`): the `MyApp` fields as a record `AppState`. One function per block of `update`, in frame order: `TopPanel`, `Keys`, `BottomPanel`, `Render`, `PollHistory`, `PollResponse`. Then `Frame`, their composition; the worker steps; and the invariant `Inv`. A `Revision` parameter (`Binary` for `src/main.rs`, `Refactor` for `src/app.rs`) selects where the two revisions differ.
- `session_properties.dfy` (`SessionProperties`): `Run`, any interleaving of frames and worker steps, and the lemmas about the `Session` functions.
- `chat_app.dfy`, `refactor_app.dfy`: class `MyApp` of each revision. It holds the same fields and updates them in place. Each method is proved to compute the matching `Session` function on the snapshot `State()`.
- `input_panel.dfy` (`InputPanel`): `InputPanel::show`.

The channels are fields of the class that hold what the channel contains:

- `requests` is the request channel;
- `responses` is the response channel;
- `historyRx` is the optional history receiver with its contents.

The worker threads are methods that the scheduler may run between frames. `WorkerStep` serves one request through an opaque transport function. `HistoryWorkerStep` delivers the fetched history.

Two facts about the scroll requests:

- Neither revision's inline send asks for scroll-to-bottom. Only the never-called `send_message` of `src/app.rs` does.
- Only `src/app.rs` scrolls to the bottom after an Ok reply.

Every send gate (`send_message`, the inline send, `InputPanel::show`) tests `input.trim().is_empty()`. The model writes that test as `Text.IsBlank(input)`, and `Text.TrimEmptyIffBlank` proves the two equal for every string.

Every step is defined twice on purpose. The `Session` function is the specification on values, and the lemmas are about it. The method of class `MyApp` performs the same step in place on the fields, and its `ensures` says that it computes the `Session` function on `State()`. `chat_app.dfy` and `refactor_app.dfy` are nearly identical because the two source files are; they differ where the revisions differ (`scroll_to_bottom` and the reply poll).

## Model

| member | source | states |
|---|---|---|
| Text.TrimStart | src/main.rs:385 | the result is the suffix of the input after its leading whitespace, as `trim` strips it |
| Text.TrimEnd | src/main.rs:385 | the result is the prefix of the input before its trailing whitespace |
| Text.Trim | src/main.rs:385 | `trim` keeps a prefix of what `trim_start` keeps, and the part it drops after that prefix is all whitespace; the result neither starts nor ends with whitespace |
| Text.TrimEmptyIffBlank | src/main.rs:385 | `input.trim().is_empty()` holds exactly when every character is Unicode whitespace |
| Wire.Encode | src/main.rs:392 | `format!("{}\0{}", message, model)`: the message, then one NUL, then the model, and nothing else |
| Wire.Find | src/main.rs:134 | the first position of the separator, or none exactly when it is absent |
| Wire.SplitOnce | src/main.rs:134 | `split_once` gives the parts around the first separator, and none exactly when there is no separator |
| Wire.SplitUnique | src/main.rs:134 | a split at a character absent from the left part is unique |
| Wire.EncodeSplitRoundTrip | src/main.rs:392 | `split_once('\0')` of `format!("{}\0{}", msg, model)` is `(msg, model)` when `msg` holds no NUL |
| Wire.MessageWithSeparatorMisroutes | src/main.rs:392 | a message `head\0tail` whose `head` holds no NUL is split at that NUL: the worker sees `head` as the message and `tail\0model` as the model |
| Config.Fallback | src/config.rs:23-27 | the fallback configuration has no key, no models and the base URL "https://api.openai.com", so its endpoint is "https://api.openai.com/v1/chat/completions" |
| Config.CompletionsUrl | src/config.rs:18-20 | the result is the base URL followed by exactly "/v1/chat/completions" |
| Config.CompletionsUrlInjective | src/config.rs:18-20 | distinct base URLs give distinct endpoints |
| Config.TrailingSlashDoubles | src/config.rs:19 | a trailing "/" on the base URL gives "//v1/chat/completions": there is no normalisation |
| Config.LoadOrCreate | src/config.rs:22-45 | the parsed file is used when it parses; with no config directory, a missing file, an unreadable file or a parse failure the fallback is used |
| Config.ModelsOrDefault | src/main.rs:163 | a configured `models` list is used as it is; with no `models` entry the list is exactly `default_models()`, four models starting with "gemini-2.0-flash" |
| Config.FirstOrEmpty | src/main.rs:195 | `get(0).cloned().unwrap_or_default()`: the first model when there are any, and "" for an empty list |
| Config.DefaultModels | src/config.rs:47-54 | exactly "gemini-2.0-flash", "gpt-4.1", "gpt-4o-mini", "gpt-4o" in that order, all distinct (the same list as src/main.rs:75-82) |
| Config.FallbackSelectsGemini | src/config.rs:47-54 | without configured models the session starts on "gemini-2.0-flash" |
| Dispatcher.Serve | src/main.rs:133-141 | the worker splits the request at its first NUL and calls the transport with the part before it as the message, the part after it as the model, the configured key or "", and the completions URL |
| Dispatcher.ServeEncoded | src/main.rs:132-142 | the worker calls the transport with exactly the message and model the frame encoded, the configured key or "", and the completions URL |
| Dispatcher.Drain | src/main.rs:132-143 | the worker loop yields one result per request, in submission order |
| Dispatcher.DrainAnswersInOrder | src/main.rs:132-143 | the i-th result answers the i-th sent message with its model |
| Session.Max0 | src/main.rs:329 | `max(0.0)` is non-negative, at least its argument, and is either the argument or 0 |
| Session.Initial | src/main.rs:146-205 | the start state: the system prompt first, then the fetched history if the fetch succeeded, and a request for 100000 exactly then; the models are `ModelsOrDefault(config)` and the selected one is the first of them, or "" if there are none; Insert mode, empty input, not busy, no requests, no responses, no history slot, both offsets 0; the invariant holds |
| Session.ScrollToBottom | src/app.rs:154-156 | the scroll request becomes 100000 and nothing else changes |
| Session.SendMessage | src/main.rs:208-223 | only the transcript, input, busy flag, request channel and (in `src/app.rs`) the scroll request may change; `src/main.rs` keeps the scroll request; the request channel is unchanged or gains exactly the raw input |
| Session.RefreshHistory | src/main.rs:225-237 | a no-op while busy; otherwise the session becomes busy with the history slot armed and empty; nothing but those two fields changes |
| Session.HandleNormalMode | src/main.rs:243-250 | only the mode may change, and it is Insert afterwards exactly when it was Insert or the field is focused |
| Session.TopPanel | src/main.rs:267-274 | without a click on Refresh, or while busy, nothing changes; a click while idle sets busy and arms the empty history slot; only those two fields ever change |
| Session.Keys | src/main.rs:307-350 | key handling never touches the transcript, the input, the channels, the offsets or the models; a plain `r` in Normal mode leaves the session busy, arming the empty history slot if it was idle; any other input leaves the busy flag and the slot alone |
| Session.InlineSend | src/main.rs:385-395 | never touches the mode, the scroll request, the responses or the history slot; either no request is queued, or the session was idle and now is busy with an empty input and exactly one more request |
| Session.BottomPanel | src/main.rs:352-403 | never touches the scroll request, the responses, the history slot or the offsets; the input ends as the typed text or empty |
| Session.Render | src/main.rs:444-446 | the scroll request is consumed, the offsets are the rendered ones, and nothing else changes |
| Session.PollHistory | src/main.rs:449-470 | with no result waiting nothing changes; a waiting result clears busy and the slot; only the transcript, busy flag and slot may change |
| Session.PollResponse | src/main.rs:472-489 | with no response waiting nothing changes; otherwise the oldest response is consumed, one message is appended and busy clears; only those fields and (in `src/app.rs`) the scroll request may change |
| Session.Frame | src/main.rs:254-490 | a frame keeps the models and the selected model, ends with the rendered offsets, and leaves the input as the typed text or empty |
| Session.WorkerStep | src/main.rs:130-143 | the oldest request is removed and exactly one response, the transport's answer to that request (`Dispatcher.Serve`), is appended behind the existing ones; nothing else changes |
| Session.HistoryWorkerStep | src/main.rs:231-235 | the history slot holds exactly the one fetched result; nothing else changes |
| SessionProperties.OverwriteNoneFires | src/main.rs:324-348 | when no scroll key fires, the scroll request is unchanged |
| SessionProperties.OverwriteLastFiring | src/main.rs:324-348 | a later check overwrites an earlier one: the request is the target of the last check that fired |
| SessionProperties.OverwriteNonNegative | src/main.rs:328-341 | scroll requests are never negative |
| SessionProperties.ScrollKeyEffects | src/main.rs:319-348 | `j` requests current+60 and `k` max(0, current−60); Shift+J and Shift+K step by the viewport height; Shift+G requests 100000 and `g` requests 0; with no scroll key the request is unchanged |
| SessionProperties.InsertKeysKeepScroll | src/main.rs:310-314 | in Insert mode keys touch nothing but the mode, and only towards Normal |
| SessionProperties.ShiftJThenClamp | src/main.rs:334-337 | from offset 500 and height 300, Shift+J requests 800; a layout clamped to 650 leaves offset 650 and no request |
| SessionProperties.ScrollToBottomIdempotent | src/app.rs:154-156 | `scroll_to_bottom` always leaves a request for 100000, so calling it twice is the same as once |
| SessionProperties.KeysChangeMode | src/main.rs:309-318 | key handling changes the mode exactly on Escape in Insert mode or a plain `i` in Normal mode |
| SessionProperties.FrameMode | src/main.rs:243-250 | over a frame, Insert ends in Normal only after Escape with the field unfocused; Normal ends in Insert only by a plain `i` or a focused input field |
| SessionProperties.BottomPanelSend | src/main.rs:379-395 | without Insert mode, a trigger, non-blank input and an idle session nothing is sent and the text is kept; otherwise exactly one User message equal to the text and one `text\0model` request are added, the input is emptied and the session is busy |
| SessionProperties.SendMessageEffect | src/main.rs:208-223 | `send_message` is a no-op on blank input or while busy, and otherwise appends the input as a User message and queues the raw input; `src/app.rs` also requests the bottom |
| SessionProperties.SendMessageRequestUnsplittable | src/main.rs:220 | the raw request of `send_message` has no separator, so the worker's split finds none |
| SessionProperties.HelloEnter | src/main.rs:358-395 | typing "hello" and pressing Enter in an idle Insert session, where the focused multiline field has already added the newline, appends User("hello\n"), empties the input, sets busy and queues exactly the one request `hello\n\0model` for the selected model |
| SessionProperties.HistoryResultEffect | src/main.rs:449-470 | an Ok history keeps the system prompt and replaces the rest; an Err appends "Error fetching history: " + e; both clear busy and the slot |
| SessionProperties.AfterHistoryKeepsHead | src/main.rs:453-459 | an Ok history keeps element 0 of a non-empty transcript and gives the history alone for an empty one |
| SessionProperties.ChatResultEffect | src/main.rs:472-489 | a chat result appends one Assistant message or one "Error: " + e notice and clears busy; nothing is queued; `src/main.rs` keeps the scroll request and `src/app.rs` requests the bottom on Ok only |
| SessionProperties.RefreshPreservesInv | src/main.rs:225-237 | `refresh_history` is a no-op while busy and otherwise sets busy and arms the slot, keeping the invariant |
| SessionProperties.KeysPreserveInv | src/main.rs:307-350 | key handling keeps the invariant |
| SessionProperties.BottomPanelPreservesInv | src/main.rs:352-403 | the bottom panel keeps the invariant and queues only splittable requests |
| SessionProperties.WriteBackAndPollsPreserveInv | src/main.rs:444-489 | the write-back and both polls keep the invariant |
| SessionProperties.FramePreservesInv | src/main.rs:254-490 | a frame keeps "at most one operation outstanding, busy exactly when one is, system prompt first, no negative offset" |
| SessionProperties.ChatWorkerPreservesInv | src/main.rs:130-143 | the chat worker turns the one queued request into one waiting response; the invariant holds and the session stays busy |
| SessionProperties.HistoryWorkerPreservesInv | src/main.rs:231-235 | the history worker fills the armed slot with its one result; the invariant holds and the session stays busy |
| SessionProperties.SendMessagePreservesInv | src/main.rs:208-223 | `send_message` keeps the invariant |
| SessionProperties.BusyClearsOnResult | src/main.rs:467 | a busy session stays busy through a frame exactly when its operation has no result yet |
| SessionProperties.BinaryConsumesScroll | src/main.rs:444-446 | after any frame the request is consumed, and the offset and height are the rendered ones |
| SessionProperties.RevisionsDiffer | src/app.rs:429-437 | the revisions' frames agree except that `src/app.rs` ends holding a bottom request exactly when the frame received an Ok reply |
| SessionProperties.StalledStepKeepsBusy | src/main.rs:449-451 | while the history slot is armed and empty, a frame or a chat-worker step keeps it armed and the session busy |
| SessionProperties.StalledHistoryStaysBusy | src/main.rs:229-236 | if the history worker never sends (its runtime `unwrap` panicked), every schedule without a delivery ends with the slot armed and the session busy |
| SessionProperties.Run | src/main.rs:130-144 | any interleaving of frames, chat-worker steps and history-worker steps keeps the invariant |
| SessionProperties.ApplyPreservesInv | src/main.rs:130-144 | any single step of frame or worker keeps the invariant |
| SessionProperties.AtMostOneOutstanding | src/main.rs:385 | from start-up, under any schedule, at most one operation is outstanding, busy holds exactly when one is, and the system prompt stays first |
| ChatApp.MyApp.constructor | src/main.rs:116-206 | `new` loads the configuration and builds the start state |
| ChatApp.MyApp.SendMessage | src/main.rs:208-223 | computes `send_message` |
| ChatApp.MyApp.RefreshHistory | src/main.rs:225-237 | computes `refresh_history` |
| ChatApp.MyApp.HandleNormalMode | src/main.rs:243-250 | a focused input field switches Normal to Insert |
| ChatApp.MyApp.TopPanel | src/main.rs:267-274 | the Refresh button refreshes only when not busy |
| ChatApp.MyApp.HandleKeys | src/main.rs:307-350 | computes modal key handling |
| ChatApp.MyApp.ScrollKeys | src/main.rs:319-348 | the if-chain leaves the target of the last firing check |
| ChatApp.MyApp.BottomPanel | src/main.rs:352-403 | computes the bottom panel |
| ChatApp.MyApp.InlineSend | src/main.rs:385-395 | computes the gated inline send |
| ChatApp.MyApp.Render | src/main.rs:444-446 | stores the rendered offset and clears the request |
| ChatApp.MyApp.PollHistory | src/main.rs:449-470 | computes the history poll |
| ChatApp.MyApp.PollResponse | src/main.rs:472-489 | computes the chat poll |
| ChatApp.MyApp.Update | src/main.rs:254-490 | a frame keeps the invariant and always ends with no pending scroll and the rendered offset |
| ChatApp.MyApp.WorkerStep | src/main.rs:132-142 | the worker moves the oldest request's answer to the response channel and keeps `Valid()`; the separator it splits on is guaranteed by `Valid()` |
| ChatApp.MyApp.HistoryWorkerStep | src/main.rs:231-235 | the history worker delivers its one result and keeps `Valid()` |
| RefactorApp.MyApp.constructor | src/app.rs:46-152 | `new` builds the same start state |
| RefactorApp.MyApp.ScrollToBottom | src/app.rs:154-156 | always leaves a request for 100000 |
| RefactorApp.MyApp.SendMessage | src/app.rs:158-174 | computes `send_message`, including the bottom request |
| RefactorApp.MyApp.RefreshHistory | src/app.rs:176-188 | computes `refresh_history` |
| RefactorApp.MyApp.HandleNormalMode | src/app.rs:194-201 | a focused input field switches Normal to Insert |
| RefactorApp.MyApp.TopPanel | src/app.rs:217-224 | the Refresh button refreshes only when not busy |
| RefactorApp.MyApp.HandleKeys | src/app.rs:253-302 | computes modal key handling |
| RefactorApp.MyApp.ScrollKeys | src/app.rs:271-300 | the if-chain, with Shift+G through `scroll_to_bottom`, leaves the target of the last firing check |
| RefactorApp.MyApp.BottomPanel | src/app.rs:304-359 | computes the bottom panel |
| RefactorApp.MyApp.InlineSend | src/app.rs:340-350 | computes the gated inline send |
| RefactorApp.MyApp.Render | src/app.rs:400-402 | stores the rendered offset and clears the request |
| RefactorApp.MyApp.PollHistory | src/app.rs:405-426 | computes the history poll |
| RefactorApp.MyApp.PollResponse | src/app.rs:428-446 | computes the chat poll, with a bottom request after Ok |
| RefactorApp.MyApp.Update | src/app.rs:205-447 | a frame keeps the invariant and ends holding a bottom request exactly when it received an Ok reply |
| RefactorApp.MyApp.WorkerStep | src/app.rs:62-72 | the worker moves the oldest request's answer to the response channel and keeps `Valid()`; the separator it splits on is guaranteed by `Valid()` |
| RefactorApp.MyApp.HistoryWorkerStep | src/app.rs:182-186 | the history worker delivers its one result and keeps `Valid()` |
| InputPanel.Show | src/components/input_panel.rs:7-84 | Send is enabled exactly in Insert mode while idle; a send is triggered only by a click on the enabled button or by Enter without shift while enabled and focused; a non-blank send calls the callback once with the text and then clears it; a blank one changes nothing; Insert mode is never left; nothing is sent while busy |
| InputPanel.PanelStricterThanApp | src/components/input_panel.rs:30-37 | from Normal mode, whenever the panel switches to Insert `handle_normal_mode` (`Session.HandleNormalMode`) does too; on a focused field without a click the panel stays Normal while `handle_normal_mode` switches, so the panel is strictly stricter |

`src/main.rs:36-82` holds its own copies of `AppConfig`, `get_config_path`, `get_completions_url`, `load_or_create_config` and `default_models`. `src/app.rs:8` imports `default_models`, `fetch_history`, `get_completions_url`, `load_or_create_config` and the `openai` module from the crate root, which is `src/main.rs`; it imports neither `get_config_path` nor `AppConfig`. No `mod` declaration compiles `src/config.rs`. Its copies have the same bodies; they differ only in being `pub` and in `AppConfig` also deriving `Clone`. The `Config` module models those bodies once.

## Left out

- egui rendering is left out: panels, the Send and Copy buttons' drawing, the spinner, the mode label, the dark-mode toggle with `save`, fonts, icons and CommonMark rendering. This is presentation.
- The model-selection ComboBox is left out. It is an egui widget, so `selectedModel` only changes at start-up in the model.
- `message_tops`, `copy_button_tops`, `scroll_offset`, `http_client` and `markdown_cache` are left out. They are written or held but never read by the core.
- egui's internals are inputs to each frame: the multiline text widget's editing (the buffer after typing is given; the widget is laid out before the send gate reads the buffer, so an Enter in the focused field has already added its newline), focus, clicks, the ScrollArea's clamping (the rendered offset is given) and the viewport height. `FrameEvents.Laid` requires the offset and height to be non-negative, which egui guarantees.
- Threads, the tokio runtimes and the mpsc channels are modelled as sequences and worker steps. Blocking and real concurrency are not modelled.
- `openai::send_openai_request` and `fetch_history` are opaque. The first is the `Transport` function parameter. The second is a `HistoryResult` parameter.
- A failure to create the start-up tokio runtime is modelled as an Err start-up history.
- The config file I/O is left out: `get_config_path`, directory creation, writing the default file, TOML (de)serialisation. `LoadOrCreate` takes the outcome of those steps as a `ConfigFile` value.
- `src/components/message_list_panel.rs` and `src/components/top_panel.rs` are left out. Their state changes are those at src/app.rs:400-402 and src/app.rs:217-224, which are modelled.
- `main()` is left out: icon decoding and window options.
- Offsets are `f32` in the source and `real` here. Rounding and NaN are not modelled.
- Dispatcher.Serve: `split_once('\0').unwrap()` panics on a request without a separator. The model makes the separator a precondition of the worker step, which every request queued by a frame meets (`BottomPanelPreservesInv`). `send_message` queues requests that do not meet it (`SendMessageRequestUnsplittable`), so it is not connected to the worker; nothing calls it.
- Panics of the workers and of the send are not modelled as steps; the model's workers always serve. These are `tokio::runtime::Runtime::new().unwrap()` in both workers (src/main.rs:131, 232; src/app.rs:61, 183), `tx.send(result).unwrap()` in both workers (src/main.rs:141, 234; src/app.rs:71, 185) and the inline send's `request_tx.send(request).unwrap()` (src/main.rs:393; src/app.rs:348). The senders' receivers live as long as the application. A dead chat worker would make the next inline send panic the UI thread. A dead history worker drops its sender, so `try_recv` never yields a result; `StalledHistoryStaysBusy` shows that under any schedule with no delivery the slot stays armed and the session stays busy for good.
