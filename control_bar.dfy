/**
 * The chat tool window's control bar: a model selector (a combo box) and two buttons,
 * the reset/stop button and the attach button.
 *
 * The pure part (`Bar`, `Step`, `Run`) states what each setter and listener does to the
 * whole bar; the class `ControlBar` holds the same state in fields that its methods
 * overwrite in place, and each method is proved to perform exactly one `Step`.
 */
module ControlBarComponent {
  import opened Wrappers

  /** The IDE icons the buttons show, as tags. */
  datatype Icon = Refresh | Suspend | AnyType

  /** The combo box, as a plain record: its items in order, the selected item, the enabled flag. */
  datatype Combo = Combo(items: seq<string>, selected: Option<string>, enabled: bool)

  /** The calls the bar makes into the callbacks it was constructed with, in order. */
  datatype Event = ActionButtonClick | AttachClick | ModelChange(name: string)

  /** Everything observable about the bar. */
  datatype Bar = Bar(
    combo: Combo,
    generating: bool,
    actionIcon: Icon,
    actionTooltip: string,
    attachIcon: Icon,
    attachTooltip: string,
    events: seq<Event>)

  /** The entry points: the three setters and the three listeners. */
  datatype Op =
    | UpdateModels(models: seq<string>, selectedModel: Option<string>)
    | SetModelsLoading(loading: bool)
    | SetGenerating(generating: bool)
    | ComboAction
    | ActionButtonPress
    | AttachButtonPress

  const LoadingPlaceholder: string := "Loading..."
  const InitialActionTooltip: string := "Reset Chat"
  const ResetTooltip: string := "Reset Chat (Keep Settings)"
  const StopTooltip: string := "Stop Generation"
  const AttachTooltip: string := "Attach Image"

  /**
   * The selection `updateModels` assigns: the requested model when it is in the list,
   * otherwise the first model, otherwise nothing.
   */
  function ResolveSelection(models: seq<string>, selectedModel: Option<string>): (r: Option<string>)
    ensures r.Some? ==> r.value in models
    ensures r.Some? <==> models != []
    ensures selectedModel.Some? && selectedModel.value in models ==> r == selectedModel
    ensures (selectedModel.None? || selectedModel.value !in models) && models != [] ==> r == Some(models[0])
  {
    if selectedModel.Some? && selectedModel.value in models then selectedModel
    else if |models| > 0 then Some(models[0])
    else None
  }

  /** The icon of the action button for a generation state. */
  function ActionIconFor(generating: bool): Icon {
    if generating then Suspend else Refresh
  }

  /** The tooltip of the action button for a generation state, as `setGenerating` sets it. */
  function ActionTooltipFor(generating: bool): string {
    if generating then StopTooltip else ResetTooltip
  }

  /** The bar as constructed: empty, enabled selector; not generating; the initial tooltips. */
  function Initial(): Bar {
    Bar(Combo([], None, true), false, Refresh, InitialActionTooltip, AnyType, AttachTooltip, [])
  }

  /**
   * What holds in every reachable state: the selection, if any, is one of the items; the
   * action button shows Suspend/"Stop Generation" exactly while generating and Refresh with
   * one of the two reset tooltips otherwise; the attach button never changes.
   */
  predicate Consistent(b: Bar) {
    && (b.combo.selected.Some? ==> b.combo.selected.value in b.combo.items)
    && b.actionIcon == ActionIconFor(b.generating)
    && (b.generating ==> b.actionTooltip == StopTooltip)
    && (!b.generating ==> b.actionTooltip in {InitialActionTooltip, ResetTooltip})
    && b.attachIcon == AnyType && b.attachTooltip == AttachTooltip
  }

  /**
   * One entry point applied to the bar. Only `setModelsLoading` touches the enabled flag,
   * only `setGenerating` the generation flag and the action button, and only the listeners
   * the callback log, which they extend and never rewrite; the attach button never changes.
   */
  function Step(b: Bar, op: Op): (r: Bar)
    ensures r.combo.enabled == if op.SetModelsLoading? then !op.loading else b.combo.enabled
    ensures r.generating == if op.SetGenerating? then op.generating else b.generating
    ensures !op.SetGenerating? ==> r.actionIcon == b.actionIcon && r.actionTooltip == b.actionTooltip
    ensures op.UpdateModels? || op.SetModelsLoading? || op.SetGenerating? ==> r.events == b.events
    ensures |b.events| <= |r.events| <= |b.events| + 1 && r.events[..|b.events|] == b.events
    ensures r.attachIcon == b.attachIcon && r.attachTooltip == b.attachTooltip
  {
    match op
    case UpdateModels(models, selectedModel) =>
      b.(combo := b.combo.(items := models, selected := ResolveSelection(models, selectedModel)))
    case SetModelsLoading(loading) =>
      if loading then b.(combo := Combo([LoadingPlaceholder], None, false))
      else b.(combo := b.combo.(enabled := true))
    case SetGenerating(g) =>
      b.(generating := g, actionIcon := ActionIconFor(g), actionTooltip := ActionTooltipFor(g))
    case ComboAction =>
      if b.combo.selected.Some? then b.(events := b.events + [ModelChange(b.combo.selected.value)]) else b
    case ActionButtonPress =>
      b.(events := b.events + [ActionButtonClick])
    case AttachButtonPress =>
      b.(events := b.events + [AttachClick])
  }

  /**
   * A sequence of entry points applied in order. The callback log only grows, by at most
   * one call per entry point, and the attach button never changes.
   */
  function Run(b: Bar, ops: seq<Op>): (r: Bar)
    ensures |b.events| <= |r.events| <= |b.events| + |ops| && r.events[..|b.events|] == b.events
    ensures r.attachIcon == b.attachIcon && r.attachTooltip == b.attachTooltip
    decreases |ops|
  {
    if ops == [] then b else Run(Step(b, ops[0]), ops[1..])
  }

  /** The argument of the last `setModelsLoading` call in `ops`, if there is one. */
  function LastLoading(ops: seq<Op>): Option<bool>
    decreases |ops|
  {
    if ops == [] then None
    else if ops[|ops| - 1].SetModelsLoading? then Some(ops[|ops| - 1].loading)
    else LastLoading(ops[..|ops| - 1])
  }

  /** The argument of the last `setGenerating` call in `ops`, if there is one. */
  function LastGenerating(ops: seq<Op>): Option<bool>
    decreases |ops|
  {
    if ops == [] then None
    else if ops[|ops| - 1].SetGenerating? then Some(ops[|ops| - 1].generating)
    else LastGenerating(ops[..|ops| - 1])
  }

  lemma {:induction false} RunSnoc(b: Bar, ops: seq<Op>, op: Op)
    ensures Run(b, ops + [op]) == Step(Run(b, ops), op)
    decreases |ops|
  {
    if ops == [] {
      assert ops + [op] == [op];
    } else {
      assert (ops + [op])[1..] == ops[1..] + [op];
      RunSnoc(Step(b, ops[0]), ops[1..], op);
    }
  }

  /** Every entry point keeps the bar consistent. */
  lemma StepConsistent(b: Bar, op: Op)
    requires Consistent(b)
    ensures Consistent(Step(b, op))
  {
  }

  /** The constructed bar is consistent and, from it, every sequence of calls keeps it so. */
  lemma {:induction false} RunConsistent(b: Bar, ops: seq<Op>)
    requires Consistent(b)
    ensures Consistent(Run(b, ops))
    decreases |ops|
  {
    if ops != [] {
      StepConsistent(b, ops[0]);
      RunConsistent(Step(b, ops[0]), ops[1..]);
    }
  }

  /**
   * The selector is enabled after a sequence of calls exactly when the last
   * `setModelsLoading` among them was `false`, or, if there was none, when it was enabled
   * before: `updateModels`, `setGenerating` and the listeners never touch the flag.
   */
  lemma {:induction false} EnabledFollowsLastLoading(b: Bar, ops: seq<Op>)
    ensures Run(b, ops).combo.enabled == match LastLoading(ops) {
      case None => b.combo.enabled
      case Some(loading) => !loading
    }
    decreases |ops|
  {
    if ops != [] {
      var init, last := ops[..|ops| - 1], ops[|ops| - 1];
      assert ops == init + [last];
      RunSnoc(b, init, last);
      EnabledFollowsLastLoading(b, init);
    }
  }

  /**
   * Once disabled (as `setModelsLoading(true)` leaves it), the selector stays disabled
   * through every sequence of calls that contains no `setModelsLoading(false)`.
   */
  lemma {:induction false} StaysDisabledUntilLoadingEnds(b: Bar, ops: seq<Op>)
    requires !b.combo.enabled
    requires forall i :: 0 <= i < |ops| ==> ops[i] != SetModelsLoading(false)
    ensures !Run(b, ops).combo.enabled
    decreases |ops|
  {
    if ops != [] {
      StaysDisabledUntilLoadingEnds(Step(b, ops[0]), ops[1..]);
    }
  }

  /**
   * The generation flag after a sequence of calls is the argument of the last
   * `setGenerating`, or what it was before if there was none.
   */
  lemma {:induction false} GeneratingFollowsLastSetGenerating(b: Bar, ops: seq<Op>)
    ensures Run(b, ops).generating == match LastGenerating(ops) {
      case None => b.generating
      case Some(g) => g
    }
    decreases |ops|
  {
    if ops != [] {
      var init, last := ops[..|ops| - 1], ops[|ops| - 1];
      assert ops == init + [last];
      RunSnoc(b, init, last);
      GeneratingFollowsLastSetGenerating(b, init);
    }
  }

  /**
   * The setters' own statements call no callback: over a sequence of setter calls the log
   * is unchanged. Whether Swing fires the combo's listener while a setter assigns the model
   * or the selection is decided outside this code; such a firing is an explicit
   * `ComboAction` in the sequence (see `UpdateThenListenerReportsSelection`).
   */
  lemma {:induction false} SetterStatementsCallNoCallback(b: Bar, ops: seq<Op>)
    requires forall i :: 0 <= i < |ops| ==> ops[i].UpdateModels? || ops[i].SetModelsLoading? || ops[i].SetGenerating?
    ensures Run(b, ops).events == b.events
    decreases |ops|
  {
    if ops != [] {
      SetterStatementsCallNoCallback(Step(b, ops[0]), ops[1..]);
    }
  }

  /**
   * When the combo's listener fires right after `updateModels` with a non-empty list, it
   * reports the selection `updateModels` assigned: the requested model if listed, else the first.
   */
  lemma UpdateThenListenerReportsSelection(b: Bar, models: seq<string>, selectedModel: Option<string>)
    requires models != []
    ensures Run(b, [UpdateModels(models, selectedModel), ComboAction]).events
      == b.events + [ModelChange(ResolveSelection(models, selectedModel).value)]
  {
    var b1 := Step(b, UpdateModels(models, selectedModel));
    assert Run(b, [UpdateModels(models, selectedModel), ComboAction]) == Run(b1, [ComboAction]);
    assert [UpdateModels(models, selectedModel), ComboAction][1..] == [ComboAction];
    assert Run(b1, [ComboAction]) == Run(Step(b1, ComboAction), []);
  }

  /** `updateModels` replaces items and selection and leaves everything else alone; calling it again changes nothing. */
  lemma UpdateModelsReplacesOnlyTheList(b: Bar, models: seq<string>, selectedModel: Option<string>)
    ensures var b' := Step(b, UpdateModels(models, selectedModel));
      && b'.combo.items == models
      && (models != [] ==> b'.combo.selected.Some? && b'.combo.selected.value in models)
      && b'.combo.enabled == b.combo.enabled
      && b' == b.(combo := b'.combo)
      && Step(b', UpdateModels(models, selectedModel)) == b'
  {
  }

  /** Refreshing the list with the current selection keeps that selection. */
  lemma UpdateModelsKeepsCurrentSelection(b: Bar, models: seq<string>)
    requires b.combo.selected.Some? && b.combo.selected.value in models
    ensures Step(b, UpdateModels(models, b.combo.selected)).combo.selected == b.combo.selected
  {
  }

  /** `setModelsLoading(true)` shows only the disabled placeholder; `false` re-enables and restores nothing; repeating a call changes nothing. */
  lemma SetModelsLoadingEffect(b: Bar)
    ensures Step(b, SetModelsLoading(true)).combo == Combo(["Loading..."], None, false)
    ensures Step(b, SetModelsLoading(false)).combo == b.combo.(enabled := true)
    ensures Step(Step(b, SetModelsLoading(true)), SetModelsLoading(false)).combo.items == ["Loading..."]
    ensures forall l :: Step(Step(b, SetModelsLoading(l)), SetModelsLoading(l)) == Step(b, SetModelsLoading(l))
  {
  }

  /**
   * `setGenerating(g)` sets the flag, the icon and the tooltip from `g` alone, touches
   * neither the selector nor the log, and only its last call counts.
   */
  lemma SetGeneratingEffect(b: Bar, g: bool, h: bool)
    ensures var b' := Step(b, SetGenerating(g));
      && b'.generating == g
      && (g ==> b'.actionIcon == Suspend && b'.actionTooltip == "Stop Generation")
      && (!g ==> b'.actionIcon == Refresh && b'.actionTooltip == "Reset Chat (Keep Settings)")
      && b'.combo == b.combo && b'.events == b.events
      && Step(b', SetGenerating(g)) == b'
      && Step(Step(b, SetGenerating(h)), SetGenerating(g)) == b'
  {
  }

  /** The constructed bar says "Reset Chat", which `setGenerating(false)` replaces by a different text. */
  lemma InitialTooltipDiffersFromReset()
    ensures !Initial().generating && Initial().actionIcon == Refresh
    ensures Initial().actionTooltip == "Reset Chat"
    ensures Step(Initial(), SetGenerating(false)).actionTooltip != Initial().actionTooltip
  {
  }

  /** The combo listener reports the selected model when there is one and stays silent otherwise. */
  lemma ComboActionReportsSelection(b: Bar)
    ensures b.combo.selected.Some? ==> Step(b, ComboAction).events == b.events + [ModelChange(b.combo.selected.value)]
    ensures b.combo.selected.None? ==> Step(b, ComboAction) == b
  {
  }

  /** The three `updateModels` examples: keep "b", fall back to "a", and select nothing in an empty list. */
  lemma UpdateModelsExamples(b: Bar)
    ensures Step(b, UpdateModels(["a", "b", "c"], Some("b"))).combo.selected == Some("b")
    ensures Step(b, UpdateModels(["a", "b", "c"], Some("z"))).combo.selected == Some("a")
    ensures Step(b, UpdateModels([], None)).combo.selected == None
  {
    assert "b" in ["a", "b", "c"];
    assert "z" !in ["a", "b", "c"];
  }

  /** The control bar widget, with its state in fields that its setters overwrite. */
  class ControlBar {
    var combo: Combo
    var generating: bool
    var actionIcon: Icon
    var actionTooltip: string
    var attachIcon: Icon
    var attachTooltip: string
    var events: seq<Event>

    ghost function State(): Bar
      reads this
    {
      Bar(combo, generating, actionIcon, actionTooltip, attachIcon, attachTooltip, events)
    }

    ghost predicate Valid()
      reads this
    {
      Consistent(State())
    }

    constructor ()
      ensures Valid()
      ensures State() == Initial()
      ensures !generating && actionIcon == Refresh && actionTooltip == "Reset Chat"
    {
      combo := Combo([], None, true);
      generating := false;
      actionIcon := Refresh;
      actionTooltip := InitialActionTooltip;
      attachIcon := AnyType;
      attachTooltip := AttachTooltip;
      events := [];
    }

    /** Replaces the list and selects the requested model, else the first, else nothing. */
    method UpdateModels(models: seq<string>, selectedModel: Option<string>)
      requires Valid()
      modifies this
      ensures Valid()
      ensures State() == Step(old(State()), Op.UpdateModels(models, selectedModel))
      ensures combo.items == models
      ensures selectedModel.Some? && selectedModel.value in models ==> combo.selected == selectedModel
      ensures (selectedModel.None? || selectedModel.value !in models) && models != [] ==> combo.selected == Some(models[0])
      ensures models == [] ==> combo.selected == None
      ensures combo.enabled == old(combo.enabled) && generating == old(generating)
      ensures actionIcon == old(actionIcon) && actionTooltip == old(actionTooltip) && events == old(events)
    {
      combo := Combo(models, None, combo.enabled);
      if selectedModel.Some? && selectedModel.value in models {
        combo := combo.(selected := selectedModel);
      } else if |models| > 0 {
        combo := combo.(selected := Some(models[0]));
      }
    }

    /** Shows the disabled "Loading..." placeholder, or just re-enables the selector. */
    method SetModelsLoading(loading: bool)
      requires Valid()
      modifies this
      ensures Valid()
      ensures State() == Step(old(State()), Op.SetModelsLoading(loading))
      ensures loading ==> combo == Combo([LoadingPlaceholder], None, false)
      ensures !loading ==> combo == old(combo).(enabled := true)
      ensures generating == old(generating) && actionIcon == old(actionIcon)
      ensures actionTooltip == old(actionTooltip) && events == old(events)
    {
      if loading {
        combo := Combo([LoadingPlaceholder], None, combo.enabled);
        combo := combo.(enabled := false);
      } else {
        combo := combo.(enabled := true);
      }
    }

    /** Records the generation state and switches the action button between stop and reset. */
    method SetGenerating(g: bool)
      requires Valid()
      modifies this
      ensures Valid()
      ensures State() == Step(old(State()), Op.SetGenerating(g))
      ensures generating == g
      ensures g ==> actionIcon == Suspend && actionTooltip == StopTooltip
      ensures !g ==> actionIcon == Refresh && actionTooltip == ResetTooltip
      ensures combo == old(combo) && events == old(events)
    {
      generating := g;
      if g {
        actionIcon := Suspend;
        actionTooltip := StopTooltip;
      } else {
        actionIcon := Refresh;
        actionTooltip := ResetTooltip;
      }
    }

    /** The combo box's action listener: reports the selected item, if there is one. */
    method ComboActionPerformed()
      requires Valid()
      modifies this
      ensures Valid()
      ensures State() == Step(old(State()), ComboAction)
      ensures combo.selected.Some? ==> events == old(events) + [ModelChange(combo.selected.value)]
      ensures combo.selected.None? ==> events == old(events)
      ensures combo == old(combo) && generating == old(generating)
    {
      var selected := combo.selected;
      if selected.Some? {
        events := events + [ModelChange(selected.value)];
      }
    }

    /** The action button's listener. */
    method ActionButtonPressed()
      requires Valid()
      modifies this
      ensures Valid()
      ensures State() == Step(old(State()), ActionButtonPress)
      ensures events == old(events) + [ActionButtonClick]
    {
      events := events + [ActionButtonClick];
    }

    /** The attach button's listener. */
    method AttachButtonPressed()
      requires Valid()
      modifies this
      ensures Valid()
      ensures State() == Step(old(State()), AttachButtonPress)
      ensures events == old(events) + [AttachClick]
    {
      events := events + [AttachClick];
    }
  }
}
