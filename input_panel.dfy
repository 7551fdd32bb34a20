/**
 * `InputPanel::show` of src/components/input_panel.rs, the refactor's input
 * row. It writes through `&mut String` and `&mut EditMode` and hands the text
 * to a send callback, so here it takes the buffer and mode in and gives the
 * new ones back, together with the argument of the callback if it was called.
 *
 * Focus follows egui: `request_focus` gives the text widget focus at once and
 * `surrender_focus` takes it away at once, so the later `has_focus` check for
 * Enter sees the focus as the mode handling left it.
 */
module InputPanel {
  import opened Wrappers
  import opened Text
  import opened Session

  /** What egui reports to the panel for one frame. */
  datatype PanelEvents = PanelEvents(
    focused: bool,          // the text widget held focus when it was laid out
    textEditClicked: bool,  // the text widget was clicked
    buttonClicked: bool,    // the Send button was clicked (a disabled button reports no click)
    enterPressed: bool,
    shift: bool)

  /** The Send button is enabled exactly in Insert mode while nothing is outstanding. */
  predicate SendEnabled(mode: EditMode, isProcessing: bool) {
    mode == Insert && !isProcessing
  }

  /** The mode after the panel: Normal becomes Insert only when the focused text widget was clicked. */
  function PanelMode(mode: EditMode, ev: PanelEvents): EditMode {
    if mode == Normal && ev.focused && ev.textEditClicked then Insert else mode
  }

  /**
   * Whether a send is triggered: a click on the enabled button, or Enter
   * without shift while the button is enabled and the widget keeps focus,
   * which it does only when the panel was entered in Insert mode.
   */
  predicate Triggered(mode: EditMode, isProcessing: bool, ev: PanelEvents) {
    var enabled := SendEnabled(PanelMode(mode, ev), isProcessing);
    (enabled && ev.buttonClicked) || (enabled && mode == Insert && ev.enterPressed && !ev.shift)
  }

  method Show(input: string, isProcessing: bool, mode: EditMode, ev: PanelEvents)
    returns (newInput: string, newMode: EditMode, sent: Option<string>)
    ensures newMode == PanelMode(mode, ev)
    ensures mode == Insert ==> newMode == Insert
    ensures sent.Some? <==> Triggered(mode, isProcessing, ev) && !IsBlank(input)
    ensures sent.Some? ==> sent.value == input && newInput == ""
    ensures sent.None? ==> newInput == input
    ensures isProcessing ==> sent.None? && newInput == input
  {
    newInput, newMode := input, mode;
    var hasFocus := ev.focused;
    match newMode {
      case Insert =>
        hasFocus := true;
      case Normal =>
        if hasFocus {
          hasFocus := false;
          if ev.textEditClicked {
            newMode := Insert;
          }
        }
    }
    var sendButtonEnabled := newMode == Insert && !isProcessing;
    var sendTriggered := false;
    if sendButtonEnabled && ev.buttonClicked {
      sendTriggered := true;
    }
    if sendButtonEnabled && hasFocus && ev.enterPressed && !ev.shift {
      sendTriggered := true;
    }
    sent := None;
    if sendTriggered {
      if !IsBlank(newInput) {
        sent := Some(newInput);
        newInput := "";
      }
    }
  }

  /**
   * The panel's Normal-to-Insert rule is stricter than `handle_normal_mode`
   * (src/app.rs:194-201), which needs focus alone: whenever the panel enters
   * Insert, `HandleNormalMode` does too, and a focused field that was not
   * clicked separates them.
   */
  lemma PanelStricterThanApp(s: AppState, ev: PanelEvents)
    requires s.editMode == Normal
    ensures PanelMode(Normal, ev) == Insert ==> HandleNormalMode(s, ev.focused).editMode == Insert
    ensures ev.focused && !ev.textEditClicked ==>
              PanelMode(Normal, ev) == Normal && HandleNormalMode(s, ev.focused).editMode == Insert
  {
  }
}
