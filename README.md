# Ronin chat components in Dafny

This project models the decision and state logic of three pieces of the Ronin IDE plugin's
chat feature, and proves what each promises:

- **ControlBar** (`control_bar.dfy`, module `ControlBarComponent`): the chat window's control
  bar. It has a model selector (a combo box, modelled as the record `Combo(items, selected, enabled)`),
  a reset/stop action button and an attach button. The class `ControlBar` keeps the bar's state
  in fields. Its methods `UpdateModels`, `SetModelsLoading` and `SetGenerating`, its
  constructor and its three listener methods overwrite those fields in place. Each method is
  proved to perform one `Step` of the pure transition function. The lemmas about `Step` and `Run`
  (a sequence of calls) state the selection rule, the "nothing else changes" discipline
  between the setters, and the state invariant `Consistent`.
- **ChatInputField** (`chat_input_field.dfy`, module `ChatInputFieldComponent`): the message
  input. The class `ChatInputField` holds the text buffer and the log of messages passed to
  `onSendMessage`. `SendMessage` trims the buffer, sends the result only when it is not
  blank, and then clears the buffer. `KeyPressed` submits on Enter without Shift.
  `DocumentChanged` sets the preferred height from the line count. The height rule
  (`VisibleLines`, `PreferredHeight`) is a pure function with bound, monotonicity and
  saturation lemmas.
- **BaseRoninAction** (`base_ronin_action.dfy`, module `RoninAction`): the base of the editor
  actions that send selected code to the chat. `Update` is the enabled/visible predicate.
  `ActionPerformed` is the chain of early returns and the dispatch, written as a function of
  the optional project and editor and the platform's lookups. The prompt builder that concrete
  actions supply (`getPrompt`) is a function parameter, so every property holds for every
  prompt builder. The action has no fields, so it keeps no state between invocations by
  construction, and `Outcome.sent` is an `Option`, so one invocation sends at most one message.
- **Kotlin text functions** (`kotlin_text.dfy`, module `KotlinText`): `Char.isWhitespace`,
  `isBlank` and `trim()` as the input field uses them. `trim()` is modelled as Kotlin writes it, as `trim(predicate)` with a forward and a backward index scan. `Option` is in `wrappers.dfy`.

## Model

| member | source | states |
|---|---|---|
| `ControlBarComponent.ResolveSelection` | src/main/kotlin/com/ronin/ui/chat/components/ControlBar.kt:70-74 | the assigned selection is the requested model when it is in the list, else the first model; it is always a member of the list, and it is present exactly when the list is non-empty |
| `ControlBarComponent.ControlBar.constructor` | src/main/kotlin/com/ronin/ui/chat/components/ControlBar.kt:22-26 | initial bar: empty enabled selector, not generating, Refresh icon and tooltip "Reset Chat", an empty callback log, and the invariant holds |
| `ControlBarComponent.ControlBar.UpdateModels` | src/main/kotlin/com/ronin/ui/chat/components/ControlBar.kt:66-75 | the items become `models` exactly and in order; the selection is the requested model when listed, else `models[0]`, else none; the enabled flag, the generation state, the button and the log are unchanged |
| `ControlBarComponent.ControlBar.SetModelsLoading` | src/main/kotlin/com/ronin/ui/chat/components/ControlBar.kt:80-87 | `true` makes the combo exactly `["Loading..."]` and disabled; `false` only re-enables it and keeps its items and selection; nothing else changes |
| `ControlBarComponent.ControlBar.SetGenerating` | src/main/kotlin/com/ronin/ui/chat/components/ControlBar.kt:92-101 | sets the flag to `g`; `g` gives Suspend and "Stop Generation", `!g` gives Refresh and "Reset Chat (Keep Settings)"; the combo and the log are unchanged |
| `ControlBarComponent.ControlBar.ComboActionPerformed` | src/main/kotlin/com/ronin/ui/chat/components/ControlBar.kt:35-40 | the combo listener calls `onModelChange` with the selected item when there is one and makes no call otherwise |
| `ControlBarComponent.ControlBar.ActionButtonPressed` | src/main/kotlin/com/ronin/ui/chat/components/ControlBar.kt:51 | one press makes exactly one `onActionButtonClick` call |
| `ControlBarComponent.ControlBar.AttachButtonPressed` | src/main/kotlin/com/ronin/ui/chat/components/ControlBar.kt:54 | one press makes exactly one `onAttachClick` call |
| `ControlBarComponent.Step` | src/main/kotlin/com/ronin/ui/chat/components/ControlBar.kt:35-101 | the frame of every call: only `setModelsLoading` changes the enabled flag (to `!loading`), only `setGenerating` changes the generation flag and the action button, the setters leave the callback log unchanged, every call adds at most one callback at the end of the log, and the attach button never changes |
| `ControlBarComponent.Run` | src/main/kotlin/com/ronin/ui/chat/components/ControlBar.kt:35-101 | over any sequence of calls the callback log only grows at its end, by at most one entry a call, and the attach button never changes |
| `ControlBarComponent.StepConsistent` | src/main/kotlin/com/ronin/ui/chat/components/ControlBar.kt:66-101 | every setter and listener keeps the invariant: the selection is one of the items, and the icon and tooltip match the generation flag |
| `ControlBarComponent.RunConsistent` | src/main/kotlin/com/ronin/ui/chat/components/ControlBar.kt:66-101 | every sequence of calls keeps that invariant |
| `ControlBarComponent.EnabledFollowsLastLoading` | src/main/kotlin/com/ronin/ui/chat/components/ControlBar.kt:66-87 | after any sequence of calls, the selector is enabled exactly when the last `setModelsLoading` was `false`, or, when there was none, when it was enabled before |
| `ControlBarComponent.StaysDisabledUntilLoadingEnds` | src/main/kotlin/com/ronin/ui/chat/components/ControlBar.kt:80-85 | a disabled selector (as `setModelsLoading(true)` leaves it) stays disabled through any sequence of calls without `setModelsLoading(false)` |
| `ControlBarComponent.GeneratingFollowsLastSetGenerating` | src/main/kotlin/com/ronin/ui/chat/components/ControlBar.kt:92-93 | after any sequence of calls, the generation flag is the last `setGenerating` argument, or its earlier value when there was none |
| `ControlBarComponent.SetterStatementsCallNoCallback` | src/main/kotlin/com/ronin/ui/chat/components/ControlBar.kt:66-101 | the setters' own statements call no callback: a sequence of `updateModels`, `setModelsLoading` and `setGenerating` calls leaves the callback log unchanged (a listener run that Swing triggers is a separate `ComboAction` step) |
| `ControlBarComponent.UpdateThenListenerReportsSelection` | src/main/kotlin/com/ronin/ui/chat/components/ControlBar.kt:35-73 | when the combo's listener runs right after `updateModels` with a non-empty list, `onModelChange` is called once, with the selection `updateModels` resolved |
| `ControlBarComponent.UpdateModelsReplacesOnlyTheList` | src/main/kotlin/com/ronin/ui/chat/components/ControlBar.kt:66-75 | `updateModels` sets the items to `models`; for a non-empty list the selection is a member; everything outside items and selection is unchanged; a second identical call changes nothing |
| `ControlBarComponent.UpdateModelsKeepsCurrentSelection` | src/main/kotlin/com/ronin/ui/chat/components/ControlBar.kt:70-71 | refreshing with the current selection keeps it when it is still listed |
| `ControlBarComponent.SetModelsLoadingEffect` | src/main/kotlin/com/ronin/ui/chat/components/ControlBar.kt:80-87 | loading shows only the disabled `"Loading..."` entry; ending loading re-enables the combo without restoring the earlier list; a second identical call changes nothing |
| `ControlBarComponent.SetGeneratingEffect` | src/main/kotlin/com/ronin/ui/chat/components/ControlBar.kt:92-101 | icon and tooltip depend on `g` alone; the combo and the log are untouched; a second identical call changes nothing, and only the last call counts |
| `ControlBarComponent.InitialTooltipDiffersFromReset` | src/main/kotlin/com/ronin/ui/chat/components/ControlBar.kt:23-50 | the constructed bar is not generating and shows Refresh with "Reset Chat"; `setGenerating(false)` (line 99) replaces that tooltip with a different text |
| `ControlBarComponent.ComboActionReportsSelection` | src/main/kotlin/com/ronin/ui/chat/components/ControlBar.kt:35-40 | the listener adds `ModelChange(selected)` to the log when there is a selection and leaves the bar unchanged otherwise |
| `ControlBarComponent.UpdateModelsExamples` | src/main/kotlin/com/ronin/ui/chat/components/ControlBar.kt:66-75 | `(["a","b","c"], "b")` selects "b"; `(["a","b","c"], "z")` selects "a"; `([], null)` selects nothing |
| `KotlinText.IsWhitespace` | src/main/kotlin/com/ronin/ui/chat/components/ChatInputField.kt:66 | `Char.isWhitespace`: space, tab, line feed and carriage return are whitespace; ASCII letters and digits are not; nothing below U+0009 or above U+3000 is |
| `KotlinText.IsBlank` | src/main/kotlin/com/ronin/ui/chat/components/ChatInputField.kt:67 | `isBlank` (negated as `isNotBlank`): the empty string is blank; a string with any non-whitespace character is not; a non-empty blank string starts and ends with whitespace |
| `KotlinText.TrimStartIndex` | src/main/kotlin/com/ronin/ui/chat/components/ChatInputField.kt:66 | the forward scan stops at the first non-matching character at or after its start, or at the end; everything it passes matches |
| `KotlinText.TrimEndIndex` | src/main/kotlin/com/ronin/ui/chat/components/ChatInputField.kt:66 | the backward scan stops one past the last non-matching character, never below the forward scan's result; everything it passes matches |
| `KotlinText.TrimBy` | src/main/kotlin/com/ronin/ui/chat/components/ChatInputField.kt:66 | `trim(predicate)`: a non-empty result starts and ends with a non-matching character; the result is empty exactly when every character matches |
| `KotlinText.Trim` | src/main/kotlin/com/ronin/ui/chat/components/ChatInputField.kt:66 | `trim()` with `Char.isWhitespace`: a non-empty result starts and ends with non-whitespace; it is empty exactly when the input is blank |
| `KotlinText.TrimByIsMaximalSlice` | src/main/kotlin/com/ronin/ui/chat/components/ChatInputField.kt:66 | the trimmed text is the slice between the two scans, and everything outside that slice matches |
| `KotlinText.TrimByIdempotent` | src/main/kotlin/com/ronin/ui/chat/components/ChatInputField.kt:66 | trimming twice equals trimming once |
| `ChatInputFieldComponent.Submission` | src/main/kotlin/com/ronin/ui/chat/components/ChatInputField.kt:65-70 | a message goes out exactly when the buffer is not blank; the message is non-empty, no longer than the buffer, and has no leading or trailing whitespace |
| `ChatInputFieldComponent.SubmissionIsTrimmedSlice` | src/main/kotlin/com/ronin/ui/chat/components/ChatInputField.kt:66 | the sent message is the trimmed buffer: a contiguous slice of the buffer with only whitespace around it |
| `ChatInputFieldComponent.SubmissionIdempotent` | src/main/kotlin/com/ronin/ui/chat/components/ChatInputField.kt:66-67 | the sent message would go out unchanged if submitted again |
| `ChatInputFieldComponent.ChatInputField.constructor` | src/main/kotlin/com/ronin/ui/chat/components/ChatInputField.kt:15-34 | a new field has an empty buffer, has sent nothing, and has the editor's initial preferred size |
| `ChatInputFieldComponent.ChatInputField.SendMessage` | src/main/kotlin/com/ronin/ui/chat/components/ChatInputField.kt:65-71 | a non-blank buffer makes exactly one `onSendMessage` call, with the trimmed text, and then the buffer is empty; clearing the buffer runs the document listener on the empty document, so the height becomes the one-line 30 pixels; a blank buffer makes no call and keeps the buffer and the height; the width is always kept |
| `ChatInputFieldComponent.KeyRule` | src/main/kotlin/com/ronin/ui/chat/components/ChatInputField.kt:40-45 | a key press is consumed exactly when it submits, and that happens exactly for Enter without Shift |
| `ChatInputFieldComponent.ShiftNeverSubmits` | src/main/kotlin/com/ronin/ui/chat/components/ChatInputField.kt:41 | with Shift down, no key is consumed or submits |
| `ChatInputFieldComponent.ChatInputField.KeyPressed` | src/main/kotlin/com/ronin/ui/chat/components/ChatInputField.kt:39-46 | Enter without Shift is consumed and sends as `SendMessage` does; Shift+Enter and other keys leave the buffer, the log and the height untouched; the width is always kept |
| `ChatInputFieldComponent.VisibleLines` | src/main/kotlin/com/ronin/ui/chat/components/ChatInputField.kt:55 | `coerceIn(1, 10)`: the result is in 1..10, equals the count inside that range, and is 1 below it and 10 above it |
| `ChatInputFieldComponent.PreferredHeight` | src/main/kotlin/com/ronin/ui/chat/components/ChatInputField.kt:55-58 | the height is always in [30, 210] and is ten pixels past a whole number of 20-pixel lines |
| `ChatInputFieldComponent.HeightEncodesVisibleLines` | src/main/kotlin/com/ronin/ui/chat/components/ChatInputField.kt:55-58 | the number of visible lines can be read back from the height |
| `ChatInputFieldComponent.HeightMonotone` | src/main/kotlin/com/ronin/ui/chat/components/ChatInputField.kt:55-58 | more lines never give a smaller height |
| `ChatInputFieldComponent.HeightGrowsPerLine` | src/main/kotlin/com/ronin/ui/chat/components/ChatInputField.kt:58 | between 1 and 10 lines, each extra line adds exactly 20 pixels |
| `ChatInputFieldComponent.HeightSaturates` | src/main/kotlin/com/ronin/ui/chat/components/ChatInputField.kt:55 | the height is constant (30) for every count ≤ 1 and constant (210) for every count ≥ 10 |
| `ChatInputFieldComponent.HeightExamples` | src/main/kotlin/com/ronin/ui/chat/components/ChatInputField.kt:55-58 | 1, 5 and 12 lines give 30, 110 and 210 pixels, and an empty document is as tall as one line |
| `ChatInputFieldComponent.ChatInputField.Edit` | src/main/kotlin/com/ronin/ui/chat/components/ChatInputField.kt:51-61 | an edit replaces the buffer and runs the document listener, so the height follows the new line count; the log and the width are kept |
| `ChatInputFieldComponent.ChatInputField.DocumentChanged` | src/main/kotlin/com/ronin/ui/chat/components/ChatInputField.kt:53-61 | a document change sets the height from the line count, keeps the preferred width, and leaves the buffer and the log alone |
| `RoninAction.Update` | src/main/kotlin/com/ronin/actions/BaseRoninAction.kt:20-24 | the action is enabled and visible exactly when there is an editor and it has a selection |
| `RoninAction.ActionPerformed` | src/main/kotlin/com/ronin/actions/BaseRoninAction.kt:26-44 | `getPrompt` is called, with exactly the selected text, iff project, editor and selected text are all present; the tool window is shown iff, in addition, "Ronin Chat" is registered; a message is sent iff, in addition, the chat window exists, and that message is `getPrompt(selectedText)` |
| `RoninAction.MissingContextIsSilent` | src/main/kotlin/com/ronin/actions/BaseRoninAction.kt:27-29 | with no project, no editor or no selected text, nothing is shown or sent and `getPrompt` is not called |
| `RoninAction.PromptDroppedWithoutChatWindow` | src/main/kotlin/com/ronin/actions/BaseRoninAction.kt:34-41 | when the tool window is not registered or the chat window does not exist, the prompt is built and then dropped: nothing is sent, retried or queued |
| `RoninAction.DispatchesPromptOfSelection` | src/main/kotlin/com/ronin/actions/BaseRoninAction.kt:31-41 | with everything present, the invocation shows the tool window and sends exactly `getPrompt(text)` for the selected text |
| `RoninAction.DispatchImpliesEditor` | src/main/kotlin/com/ronin/actions/BaseRoninAction.kt:22-29 | an invocation that sends had an editor, so the action was not hidden for lack of one |
| `RoninAction.DispatchImpliesEnabled` | src/main/kotlin/com/ronin/actions/BaseRoninAction.kt:20-41 | when the selection model reports selected text only while it has a selection, every invocation that sends was enabled by `update` |

## Left out

- Layout, borders, the placeholder text and icon rendering are presentation. Icons are tags of `Icon`.
- Swing's event firing is not modelled. Whether a programmatic `model =` or `selectedItem =` fires the combo's action listener is decided by JComboBox code that is not part of this model. Whether a setter triggers the listener is not modelled; a run with `ComboAction` right after `UpdateModels` represents Swing firing it.
- ControlBarComponent.ControlBar.SetModelsLoading: the placeholder model's selection is modelled as none. `DefaultComboBoxModel`'s constructor may pre-select its first entry, but that is library behaviour, and the code itself assigns no selection there.
- ControlBarComponent.ControlBar.UpdateModels: for an empty list the selection is modelled as none, because the code assigns nothing and an empty model holds no item. What `DefaultComboBoxModel`'s constructor selects is not modelled.
- The constructed combo box is modelled as empty, enabled and without a selection, which is what an empty `ComboBox` starts with.
- The IntelliJ platform lookups (`ToolWindowManager`, `ChatToolWindow.getInstance`, the editor's selection model) are inputs. `Platform` gives them per project and `Editor` gives the selection answers. What `sendMessageProgrammatically` does with the prompt (transcript, language-model call, streaming) is not part of this model; the prompt it receives is the output `Outcome.sent`.
- The `toolWindow.show { ... }` callback is treated as running at once. Its scheduling on the UI thread is platform concurrency.
- `Document.lineCount` is an input to `DocumentChanged`, not derived from the text. Line wrapping is not modelled.
- The editor's own editing is not modelled: typing, pasting, and the newline that Shift+Enter inserts once the listener lets the event pass. `ChatInputField.Edit` stands for any such change of the buffer, with the line count the editor reports.
- `setEnabled` and focus handling (ChatInputField.kt:76-81) are not modelled. The assignment `isEnabled = enabled` inside the override appears to resolve back to the same setter, so no terminating "re-enable, then focus" contract is claimed.
- `revalidate()` and `e.consume()` stand only as the unchanged-elsewhere state and the `consumed` result.
- KotlinText.IsWhitespace follows Kotlin/JVM `Char.isWhitespace` (`Character.isWhitespace || Character.isSpaceChar`) for one Unicode version. U+180E, which older JVMs classify as a space separator, is not included.
