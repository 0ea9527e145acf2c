/**
 * The tab state machine's types (react-frontend/src/types/tabs.ts): four fixed tab ids,
 * one context record per tab and the two events. `Record<TabId, TabContext>` is a record
 * with one field per tab, so no tab can lack a context.
 */
module TabTypes {
  datatype TabId = Tab1 | Tab2 | Tab3 | Tab4

  /** The per-tab context; today it holds only the free-text input. */
  datatype TabContext = TabContext(inputValue: string)

  /** One context per tab, all held at once. */
  datatype TabContexts = TabContexts(tab1: TabContext, tab2: TabContext, tab3: TabContext, tab4: TabContext)
  {
    /** `context[id]`. */
    function Get(id: TabId): TabContext
    {
      match id
      case Tab1 => tab1
      case Tab2 => tab2
      case Tab3 => tab3
      case Tab4 => tab4
    }

    /** `{...context, [id]: c}`: the contexts with the one for `id` replaced. */
    function With(id: TabId, c: TabContext): (r: TabContexts)
      ensures r.Get(id) == c
      ensures forall other :: other != id ==> r.Get(other) == Get(other)
    {
      match id
      case Tab1 => this.(tab1 := c)
      case Tab2 => this.(tab2 := c)
      case Tab3 => this.(tab3 := c)
      case Tab4 => this.(tab4 := c)
    }
  }

  /** `TabMachineState`: the active tab (`state`) and the contexts. */
  datatype TabMachineState = TabMachineState(state: TabId, context: TabContexts)

  /** `TabEvent`. */
  datatype TabEvent =
    | SwitchTab(tabId: TabId)
    | UpdateContext(tabId: TabId, inputValue: string)
}
