/**
 * The base of the editor actions that send the selected code to the chat: when the
 * action is enabled, and what one invocation hands to the chat window.
 *
 * The action has no fields, so both entry points are functions of the platform's answers;
 * the prompt builder a concrete action supplies is a function parameter.
 */
module RoninAction {
  import opened Wrappers

  /** The id under which the chat tool window is registered. */
  const ChatToolWindowId: string := "Ronin Chat"

  datatype Project = Project(name: string)

  /** What the action reads from the editor's selection model. */
  datatype Editor = Editor(hasSelection: bool, selectedText: Option<string>)

  /** The data an action event carries: the project and the editor, each possibly absent. */
  datatype ActionEvent = ActionEvent(project: Option<Project>, editor: Option<Editor>)

  /**
   * The platform lookups: the tool windows registered for a project, and whether the chat
   * window instance of a project exists.
   */
  datatype Platform = Platform(toolWindows: Project -> set<string>, chatWindowExists: Project -> bool)

  /**
   * What one invocation did: the text `getPrompt` was called with, whether the chat tool
   * window was asked to show itself, and the prompt handed to the chat window.
   */
  datatype Outcome = Outcome(promptInput: Option<string>, shown: bool, sent: Option<string>)

  const Silent: Outcome := Outcome(None, false, None)

  /** `update`: enabled and visible exactly when there is an editor with a selection. */
  function Update(e: ActionEvent): (enabled: bool)
    ensures enabled <==> e.editor.Some? && e.editor.value.hasSelection
  {
    match e.editor
    case None => false
    case Some(editor) => editor.hasSelection
  }

  /**
   * `actionPerformed`: give up silently without a project, an editor or selected text;
   * otherwise build the prompt, show the chat tool window if it is registered and, once it
   * is shown, hand the prompt to the chat window if that exists.
   */
  function ActionPerformed(e: ActionEvent, platform: Platform, getPrompt: string -> string): (o: Outcome)
    ensures o.promptInput.Some? <==> e.project.Some? && e.editor.Some? && e.editor.value.selectedText.Some?
    ensures o.promptInput.Some? ==> o.promptInput == e.editor.value.selectedText
    ensures o.shown <==> o.promptInput.Some? && ChatToolWindowId in platform.toolWindows(e.project.value)
    ensures o.sent.Some? <==> o.shown && platform.chatWindowExists(e.project.value)
    ensures o.sent.Some? ==> o.sent.value == getPrompt(o.promptInput.value)
  {
    match e.project
    case None => Silent
    case Some(project) =>
      match e.editor
      case None => Silent
      case Some(editor) =>
        match editor.selectedText
        case None => Silent
        case Some(selectedText) =>
          var prompt := getPrompt(selectedText);
          if ChatToolWindowId !in platform.toolWindows(project) then
            Outcome(Some(selectedText), false, None)
          else if !platform.chatWindowExists(project) then
            Outcome(Some(selectedText), true, None)
          else
            Outcome(Some(selectedText), true, Some(prompt))
  }

  /** Without a project, an editor or selected text nothing happens, and `getPrompt` is not called. */
  lemma MissingContextIsSilent(e: ActionEvent, platform: Platform, getPrompt: string -> string)
    requires e.project.None? || e.editor.None? || e.editor.value.selectedText.None?
    ensures ActionPerformed(e, platform, getPrompt) == Silent
  {
  }

  /**
   * With the context present, the prompt is built from exactly the selected text; it is
   * lost without a trace when the tool window is not registered or the chat window does
   * not exist yet: there is no retry and nothing is queued.
   */
  lemma PromptDroppedWithoutChatWindow(p: Project, editor: Editor, platform: Platform, getPrompt: string -> string)
    requires editor.selectedText.Some?
    requires ChatToolWindowId !in platform.toolWindows(p) || !platform.chatWindowExists(p)
    ensures var o := ActionPerformed(ActionEvent(Some(p), Some(editor)), platform, getPrompt);
      o.promptInput == editor.selectedText && o.sent.None?
  {
  }

  /** When everything is present, exactly `getPrompt(selectedText)` is sent. */
  lemma DispatchesPromptOfSelection(p: Project, text: string, hasSelection: bool, platform: Platform, getPrompt: string -> string)
    requires ChatToolWindowId in platform.toolWindows(p) && platform.chatWindowExists(p)
    ensures ActionPerformed(ActionEvent(Some(p), Some(Editor(hasSelection, Some(text)))), platform, getPrompt)
      == Outcome(Some(text), true, Some(getPrompt(text)))
  {
  }

  /**
   * An invocation that sends something had an editor, so `update` did not hide the action
   * for lack of one.
   */
  lemma DispatchImpliesEditor(e: ActionEvent, platform: Platform, getPrompt: string -> string)
    requires ActionPerformed(e, platform, getPrompt).sent.Some?
    ensures e.editor.Some?
  {
  }

  /**
   * `update` asks `hasSelection` and `actionPerformed` asks for the selected text, two
   * separate answers of the selection model. When the selection model reports selected
   * text only while it has a selection, every invocation that sends was one that `update`
   * had enabled.
   */
  lemma DispatchImpliesEnabled(e: ActionEvent, platform: Platform, getPrompt: string -> string)
    requires ActionPerformed(e, platform, getPrompt).sent.Some?
    requires e.editor.Some? && e.editor.value.selectedText.Some? ==> e.editor.value.hasSelection
    ensures Update(e)
  {
  }
}
