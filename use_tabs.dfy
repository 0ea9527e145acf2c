/**
 * The tab state machine of react-frontend/src/hooks/useTabs.ts: the pure initial state and
 * transition function, and the hook, whose held state slot each callback replaces by the
 * transition's result.
 */
module UseTabs {
  import opened TabTypes

  /** `createInitialContext`. */
  function CreateInitialContext(): (c: TabContext)
    ensures c.inputValue == ""
  {
    TabContext("")
  }

  /** `createInitialState`: the first tab is active and every tab's input is empty. */
  function CreateInitialState(): (s: TabMachineState)
    ensures s.state == Tab1
    ensures forall id :: s.context.Get(id).inputValue == ""
  {
    var c := CreateInitialContext();
    TabMachineState(Tab1, TabContexts(c, c, c, c))
  }

  /**
   * `transition`. Switching moves only the active pointer; updating rewrites only the
   * input of the named tab. The source's final `return current` is for events of no
   * known type, which the datatype rules out.
   */
  function Transition(current: TabMachineState, event: TabEvent): (next: TabMachineState)
    ensures event.SwitchTab? ==> next.state == event.tabId && next.context == current.context
    ensures event.UpdateContext? ==>
      next.state == current.state &&
      next.context.Get(event.tabId).inputValue == event.inputValue &&
      forall other :: other != event.tabId ==> next.context.Get(other) == current.context.Get(other)
  {
    match event
    case SwitchTab(id) => current.(state := id)
    case UpdateContext(id, v) =>
      current.(context := current.context.With(id, current.context.Get(id).(inputValue := v)))
  }

  /** `currentTabContext`: the context of the active tab. */
  function CurrentTabContext(s: TabMachineState): TabContext
  {
    s.context.Get(s.state)
  }

  /** The events applied one after another, left to right. */
  function Run(s: TabMachineState, events: seq<TabEvent>): TabMachineState
    decreases |events|
  {
    if events == [] then s else Run(Transition(s, events[0]), events[1..])
  }

  /** Whether some event in `events` updates the context of tab `id`. */
  predicate UpdatesTab(events: seq<TabEvent>, id: TabId)
  {
    exists i :: 0 <= i < |events| && events[i].UpdateContext? && events[i].tabId == id
  }

  /** Switching to the same tab twice is switching once. */
  lemma SwitchTabIdempotent(s: TabMachineState, id: TabId)
    ensures Transition(Transition(s, SwitchTab(id)), SwitchTab(id)) == Transition(s, SwitchTab(id))
  {
  }

  /** Of two updates of the same tab, the last one wins. */
  lemma UpdateContextLastWriteWins(s: TabMachineState, id: TabId, first: string, second: string)
    ensures Transition(Transition(s, UpdateContext(id, first)), UpdateContext(id, second))
         == Transition(s, UpdateContext(id, second))
  {
  }

  /** Events that never update tab `id` leave its context as it was. */
  lemma {:induction false} RunPreservesUntouchedContext(s: TabMachineState, events: seq<TabEvent>, id: TabId)
    requires !UpdatesTab(events, id)
    ensures Run(s, events).context.Get(id) == s.context.Get(id)
    decreases |events|
  {
    if events != [] {
      assert !UpdatesTab(events[1..], id) by {
        forall i | 0 <= i < |events[1..]| ensures !(events[1..][i].UpdateContext? && events[1..][i].tabId == id) {
          assert events[1..][i] == events[i + 1];
        }
      }
      RunPreservesUntouchedContext(Transition(s, events[0]), events[1..], id);
    }
  }

  /**
   * Switching away, doing anything that does not update the original tab, and switching
   * back shows the original tab's context again.
   */
  lemma {:induction false} SwitchBackRestoresContext(s: TabMachineState, away: TabId, events: seq<TabEvent>)
    requires !UpdatesTab(events, s.state)
    ensures CurrentTabContext(Run(s, [SwitchTab(away)] + events + [SwitchTab(s.state)])) == CurrentTabContext(s)
  {
    var all := [SwitchTab(away)] + events + [SwitchTab(s.state)];
    assert !UpdatesTab(all, s.state) by {
      forall i | 0 <= i < |all| ensures !(all[i].UpdateContext? && all[i].tabId == s.state) {
        if 0 < i < |all| - 1 { assert all[i] == events[i - 1]; }
      }
    }
    RunPreservesUntouchedContext(s, all, s.state);
    RunLast(s, [SwitchTab(away)] + events, SwitchTab(s.state));
  }

  /** Running `events + [e]` is running `events`, then `e`. */
  lemma {:induction false} RunLast(s: TabMachineState, events: seq<TabEvent>, e: TabEvent)
    ensures Run(s, events + [e]) == Transition(Run(s, events), e)
    decreases |events|
  {
    if events == [] {
      assert [e][1..] == [];
    } else {
      assert (events + [e])[1..] == events[1..] + [e];
      RunLast(Transition(s, events[0]), events[1..], e);
    }
  }

  /** From the initial state, switching to tab 3 and typing "x" there leaves tab 1 as it was. */
  lemma SwitchThenUpdateExample()
    ensures var s := Run(CreateInitialState(), [SwitchTab(Tab3), UpdateContext(Tab3, "x")]);
      s.state == Tab3 && s.context.Get(Tab3).inputValue == "x" &&
      s.context.Get(Tab1) == CreateInitialState().context.Get(Tab1)
  {
  }

  /** The hook: one held machine state, replaced by `transition` on every callback. */
  class TabsHook {
    var machineState: TabMachineState

    /** `useState(createInitialState)`. */
    constructor ()
      ensures machineState == CreateInitialState()
    {
      machineState := CreateInitialState();
    }

    /** `activeTab`. */
    function ActiveTab(): TabId
      reads this
    {
      machineState.state
    }

    /** `currentTabContext`: always the context of the active tab. */
    function CurrentContext(): TabContext
      reads this
    {
      CurrentTabContext(machineState)
    }

    /** `switchTab`. */
    method SwitchTab(id: TabId)
      modifies this
      ensures machineState == Transition(old(machineState), TabEvent.SwitchTab(id))
      ensures machineState.state == id && machineState.context == old(machineState.context)
      ensures ActiveTab() == id && CurrentContext() == old(machineState.context.Get(id))
    {
      machineState := Transition(machineState, TabEvent.SwitchTab(id));
    }

    /** `updateTabContext`. */
    method UpdateTabContext(id: TabId, inputValue: string)
      modifies this
      ensures machineState == Transition(old(machineState), UpdateContext(id, inputValue))
      ensures machineState.state == old(machineState.state)
      ensures machineState.context.Get(id) == TabContext(inputValue)
      ensures forall other :: other != id ==> machineState.context.Get(other) == old(machineState.context.Get(other))
      ensures ActiveTab() == old(ActiveTab())
      ensures CurrentContext() == if id == ActiveTab() then TabContext(inputValue) else old(CurrentContext())
    {
      machineState := Transition(machineState, UpdateContext(id, inputValue));
    }
  }
}
