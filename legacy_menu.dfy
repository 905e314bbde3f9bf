// The original background script: it keeps its fixed menu items, removes
// the prompt and chain items one by one, and adds the first five prompts and
// the first three chains as they are stored, without validating or
// shortening them. A click neither checks the tab nor waits for the content
// script before it records the chain in progress.

module LegacyMenu {
  import opened Seqs
  import opened Text
  import opened Records
  import opened Menu

  const LegacyParentId: string := "prompthub-menu"

  /** The items the original script removes before adding the dynamic ones. */
  predicate StaleId(id: string)
  {
    StartsWith(id, PromptPrefix) || StartsWith(id, ChainPrefix)
  }

  function NotStale(x: MenuItem): bool
  {
    !StaleId(x.id)
  }

  /** The fixed items created when the extension is installed. */
  function LegacyBaseItems(): seq<MenuItem>
  {
    [ MenuItem(LegacyParentId, None, "PromptHub", Normal, ["editable"]),
      MenuItem("manage-prompts", Some(LegacyParentId), "Manage Prompts...", Normal, ["editable"]),
      MenuItem("separator", Some(LegacyParentId), "", Separator, ["editable"]),
      MenuItem("openPromptHub", None, "Open PromptHub", Normal, ["page", "selection", "editable"]) ]
  }

  function LegacyPromptItem(p: Prompt): MenuItem
  {
    MenuItem(PromptPrefix + Shown(p.id), Some(LegacyParentId), StrOf(p.title), Normal, ["editable"])
  }

  function LegacyChainItem(c: Chain): MenuItem
  {
    MenuItem(ChainPrefix + Shown(c.id), Some(LegacyParentId), ChainMark + StrOf(c.title), Normal, ["editable"])
  }

  function LegacyChainSeparator(): MenuItem
  {
    MenuItem("chain-separator", Some(LegacyParentId), "", Separator, ["editable"])
  }

  /** The items updateContextMenu creates, in order: five prompts, a separator when there are chains, three chains. */
  function LegacyPlan(prompts: seq<Prompt>, chains: seq<Chain>): seq<MenuItem>
  {
    Map(Take(prompts, 5), LegacyPromptItem)
      + (if chains != [] then [LegacyChainSeparator()] else [])
      + Map(Take(chains, 3), LegacyChainItem)
  }

  predicate HasId(items: seq<MenuItem>, id: string)
  {
    exists i :: 0 <= i < |items| && items[i].id == id
  }

  function IdIsNot(id: string): MenuItem -> bool
  {
    (x: MenuItem) => x.id != id
  }

  function IdNotIn(removed: set<string>): MenuItem -> bool
  {
    (x: MenuItem) => x.id !in removed
  }

  /** The ids of the items of `s` that carry a dynamic prefix. */
  ghost function StaleIds(s: seq<MenuItem>): set<string>
  {
    if s == [] then {}
    else StaleIds(s[..|s| - 1]) + (if StaleId(s[|s| - 1].id) then {s[|s| - 1].id} else {})
  }

  lemma {:induction false} StaleIdsExact(s: seq<MenuItem>)
    ensures forall x :: x in s ==> IdNotIn(StaleIds(s))(x) == NotStale(x)
  {
    if s != [] {
      StaleIdsExact(s[..|s| - 1]);
      assert forall x :: x in s ==> x in s[..|s| - 1] || x == s[|s| - 1];
      assert forall id :: id in StaleIds(s) ==> StaleId(id) by {
        StaleIdsAreStale(s);
      }
    }
  }

  lemma {:induction false} StaleIdsAreStale(s: seq<MenuItem>)
    ensures forall id :: id in StaleIds(s) ==> StaleId(id)
  {
    if s != [] {
      StaleIdsAreStale(s[..|s| - 1]);
    }
  }

  /** The menu after creating `plan` item by item: the browser refuses an item whose id is already present. */
  function Created(items: seq<MenuItem>, plan: seq<MenuItem>): seq<MenuItem>
  {
    if plan == [] then items
    else
      var before := Created(items, plan[..|plan| - 1]);
      var x := plan[|plan| - 1];
      if HasId(before, x.id) then before else before + [x]
  }

  /** What a click of the original script leads to. */
  datatype Action =
    | OpenedPopup
    | OpenedLegacyPanel(tab: nat)
    | SentPrompt(tab: nat, text: Field)
    | StartedLegacyChain(tab: nat, text: Field, cursor: ChainCursor)
    | Nothing

  /**
   * The click handler of the original script. `tab.id` of a missing tab
   * throws, which ends the handler before anything is sent or stored; a
   * chain whose steps are not an array has no usable length and is ignored.
   */
  function LegacyHandleClick(itemId: string, tab: Option<nat>, prompts: seq<Prompt>, chains: seq<Chain>): Action
  {
    match DecodeItem(itemId)
    case Manage => OpenedPopup
    case PromptPick(id) =>
      (match FindByKey(prompts, PromptKey, Str(id))
       case None => Nothing
       case Some(p) => if tab.Some? then SentPrompt(tab.value, p.content) else Nothing)
    case ChainPick(id) =>
      (match FindByKey(chains, ChainKey, Str(id))
       case None => Nothing
       case Some(c) =>
         if !c.steps.JsArray? || c.steps.items == [] then Nothing
         else
           match FindByKey(prompts, PromptKey, c.steps.items[0])
           case None => Nothing
           case Some(p) =>
             if tab.Some? then StartedLegacyChain(tab.value, p.content, ChainCursor(c.id, 0)) else Nothing)
    case OpenVault => Nothing
    case Ignored => if itemId == "openPromptHub" && tab.Some? then OpenedLegacyPanel(tab.value) else Nothing
  }

  /** The menu registry and the stored chain in progress, as the original background script sees them. */
  class LegacyBackground {
    var menu: seq<MenuItem>
    var currentChain: Option<ChainCursor>

    /** onInstalled: the fixed items (the asynchronous menu update that follows is UpdateContextMenu). */
    constructor()
      ensures menu == LegacyBaseItems() && currentChain == None
    {
      menu := LegacyBaseItems();
      currentChain := None;
    }

    /** chrome.contextMenus.remove. */
    method Remove(id: string)
      modifies this`menu
      ensures menu == Filter(old(menu), IdIsNot(id))
    {
      menu := Filter(menu, IdIsNot(id));
    }

    /** chrome.contextMenus.create; an id already in use is refused. */
    method Create(item: MenuItem)
      modifies this`menu
      ensures menu == if HasId(old(menu), item.id) then old(menu) else old(menu) + [item]
    {
      if !HasId(menu, item.id) {
        menu := menu + [item];
      }
    }

    /** The loop over getAll: every item whose id starts with a dynamic prefix is removed. */
    method RemoveStale()
      modifies this`menu
      ensures menu == Filter(old(menu), NotStale)
    {
      var menuItems := menu;
      ghost var removed: set<string> := {};
      FilterKeepsAll(menuItems, IdNotIn(removed));
      for i := 0 to |menuItems|
        invariant menu == Filter(menuItems, IdNotIn(removed))
        invariant removed == StaleIds(menuItems[..i])
      {
        removed := RemoveIfStale(menuItems, i, removed);
      }
      assert menuItems[..|menuItems|] == menuItems;
      StaleIdsExact(menuItems);
      FilterExt(menuItems, IdNotIn(removed), NotStale);
    }

    /** One pass of RemoveStale's loop: item `i` is removed when its id carries a dynamic prefix. */
    method RemoveIfStale(menuItems: seq<MenuItem>, i: nat, ghost removed: set<string>) returns (ghost removed': set<string>)
      requires i < |menuItems|
      requires menu == Filter(menuItems, IdNotIn(removed)) && removed == StaleIds(menuItems[..i])
      modifies this`menu
      ensures menu == Filter(menuItems, IdNotIn(removed')) && removed' == StaleIds(menuItems[..i + 1])
    {
      var item := menuItems[i];
      assert menuItems[..i + 1][..i] == menuItems[..i];
      removed' := removed;
      if StaleId(item.id) {
        RemoveItem(item.id, menuItems, removed);
        removed' := removed + {item.id};
      }
    }

    /** One removal inside RemoveStale: the ids removed so far grow by `id`. */
    method RemoveItem(id: string, ghost menuItems: seq<MenuItem>, ghost removed: set<string>)
      requires menu == Filter(menuItems, IdNotIn(removed))
      modifies this`menu
      ensures menu == Filter(menuItems, IdNotIn(removed + {id}))
    {
      Remove(id);
      FilterTwice(menuItems, IdNotIn(removed), IdIsNot(id), IdNotIn(removed + {id}));
    }

    /** Creating the planned items one after the other. */
    method CreateAll(plan: seq<MenuItem>)
      modifies this`menu
      ensures menu == Created(old(menu), plan)
    {
      for i := 0 to |plan|
        invariant menu == Created(old(menu), plan[..i])
      {
        Create(plan[i]);
        assert plan[..i + 1][..i] == plan[..i];
      }
      assert plan[..|plan|] == plan;
    }

    /** updateContextMenu of the original script. */
    method UpdateContextMenu(prompts: seq<Prompt>, chains: seq<Chain>)
      modifies this`menu
      ensures menu == Created(Filter(old(menu), NotStale), LegacyPlan(prompts, chains))
    {
      RemoveStale();
      var topPrompts := Take(prompts, 5);
      var plan := Map(topPrompts, LegacyPromptItem);
      if chains != [] {
        plan := plan + [LegacyChainSeparator()];
      }
      plan := plan + Map(Take(chains, 3), LegacyChainItem);
      assert plan == LegacyPlan(prompts, chains);
      CreateAll(plan);
    }

    /** contextMenus.onClicked: the action taken, and the chain in progress recorded when a chain was started. */
    method OnClicked(itemId: string, tab: Option<nat>, prompts: seq<Prompt>, chains: seq<Chain>) returns (a: Action)
      modifies this`currentChain
      ensures a == LegacyHandleClick(itemId, tab, prompts, chains)
      ensures currentChain == if a.StartedLegacyChain? then Some(a.cursor) else old(currentChain)
    {
      a := LegacyHandleClick(itemId, tab, prompts, chains);
      if a.StartedLegacyChain? {
        currentChain := Some(a.cursor);
      }
    }
  }
}

// Properties of the original context menu.
module LegacyMenuFacts {
  import opened Seqs
  import opened Text
  import opened Records
  import opened Menu
  import opened LegacyMenu

  /** An id whose first characters differ from both prefixes is kept. */
  lemma KeptId(id: string)
    requires |id| >= 7 && id[0] != 'c' && (id[0] != 'p' || id[6] != '-')
    ensures !StaleId(id)
  {
    assert PromptPrefix[6] == '-' && ChainPrefix[0] == 'c';
  }

  /** The fixed items survive the removal; the chain separator does not, so it is re-created on every update. */
  lemma {:induction false} BaseSurvives()
    ensures forall i :: 0 <= i < |LegacyBaseItems()| ==> NotStale(LegacyBaseItems()[i])
    ensures !NotStale(LegacyChainSeparator())
  {
    var base := LegacyBaseItems();
    KeptId(base[0].id);
    KeptId(base[1].id);
    KeptId(base[2].id);
    KeptId(base[3].id);
    assert LegacyChainSeparator().id[..6] == ChainPrefix;
  }

  /** Every planned item carries a dynamic prefix, so the next update removes it. */
  lemma {:induction false} PlanIsStale(prompts: seq<Prompt>, chains: seq<Chain>)
    ensures forall i :: 0 <= i < |LegacyPlan(prompts, chains)| ==> StaleId(LegacyPlan(prompts, chains)[i].id)
  {
    var plan := LegacyPlan(prompts, chains);
    forall i | 0 <= i < |plan| ensures StaleId(plan[i].id) {
      var x := plan[i];
      assert x.id[..6] == ChainPrefix || x.id[..7] == PromptPrefix;
    }
  }

  /** Creating items whose ids are new and distinct appends them all. */
  lemma {:induction false} CreatedAppends(items: seq<MenuItem>, plan: seq<MenuItem>)
    requires forall i :: 0 <= i < |plan| ==> !HasId(items, plan[i].id)
    requires forall i, j :: 0 <= i < j < |plan| ==> plan[i].id != plan[j].id
    ensures Created(items, plan) == items + plan
  {
    if plan != [] {
      var init := plan[..|plan| - 1];
      var x := plan[|plan| - 1];
      CreatedAppends(items, init);
      forall k | 0 <= k < |items + init| ensures (items + init)[k].id != x.id {
        if k >= |items| {
          assert (items + init)[k] == plan[k - |items|];
        }
      }
      assert init + [x] == plan;
    }
  }

  /**
   * An update leaves the items without a dynamic prefix in place and adds
   * the plan behind them, when the ids it creates are distinct.
   */
  lemma {:induction false} UpdateResult(menu: seq<MenuItem>, prompts: seq<Prompt>, chains: seq<Chain>)
    requires var plan := LegacyPlan(prompts, chains);
      forall i, j :: 0 <= i < j < |plan| ==> plan[i].id != plan[j].id
    ensures Created(Filter(menu, NotStale), LegacyPlan(prompts, chains)) == Filter(menu, NotStale) + LegacyPlan(prompts, chains)
  {
    var plan := LegacyPlan(prompts, chains);
    var kept := Filter(menu, NotStale);
    PlanIsStale(prompts, chains);
    forall i | 0 <= i < |plan| ensures !HasId(kept, plan[i].id) {
      forall k | 0 <= k < |kept| ensures kept[k].id != plan[i].id {
        assert NotStale(kept[k]);
      }
    }
    CreatedAppends(kept, plan);
  }

  /**
   * The plan lists the first five prompts untouched and unvalidated, the
   * separator exactly when chains are stored, and the first three chains.
   */
  lemma {:induction false} LegacyPlanLayout(prompts: seq<Prompt>, chains: seq<Chain>)
    ensures var plan := LegacyPlan(prompts, chains);
      var n := Min(5, |prompts|);
      var sep := if chains != [] then 1 else 0;
      |plan| == n + sep + Min(3, |chains|)
      && (forall i :: 0 <= i < n ==> plan[i].id == PromptPrefix + Shown(prompts[i].id) && plan[i].title == StrOf(prompts[i].title))
      && (chains != [] <==> exists i :: 0 <= i < |plan| && plan[i] == LegacyChainSeparator())
      && (forall i :: 0 <= i < Min(3, |chains|) ==> plan[n + sep + i] == LegacyChainItem(chains[i]))
  {
    var items := Map(Take(prompts, 5), LegacyPromptItem);
    var mark: seq<MenuItem> := if chains != [] then [LegacyChainSeparator()] else [];
    var links := Map(Take(chains, 3), LegacyChainItem);
    var plan := LegacyPlan(prompts, chains);
    assert plan == items + mark + links;
    var n := |items|;
    forall i | 0 <= i < n
      ensures plan[i] == LegacyPromptItem(prompts[i])
    {
      assert plan[i] == items[i];
    }
    forall i | 0 <= i < |links|
      ensures plan[n + |mark| + i] == LegacyChainItem(chains[i])
    {
      assert plan[n + |mark| + i] == links[i];
    }
    if chains != [] {
      assert plan[n] == LegacyChainSeparator();
    } else {
      assert plan == items;
    }
  }

  /**
   * A chain is started exactly when the clicked chain exists, its steps are
   * a non-empty array, its first prompt exists and a tab was given; the
   * answer of the content script plays no part.
   */
  lemma {:induction false} LegacyChainStarts(chainId: string, tab: Option<nat>, prompts: seq<Prompt>, chains: seq<Chain>)
    ensures var a := LegacyHandleClick(ChainPrefix + chainId, tab, prompts, chains);
      var c := FindByKey(chains, ChainKey, Str(chainId));
      a.StartedLegacyChain? <==>
        c.Some? && c.value.steps.JsArray? && c.value.steps.items != []
        && FindByKey(prompts, PromptKey, c.value.steps.items[0]).Some? && tab.Some?
    ensures var a := LegacyHandleClick(ChainPrefix + chainId, tab, prompts, chains);
      a.StartedLegacyChain? ==> a.cursor.currentStep == 0 && a.cursor.chainId == FindByKey(chains, ChainKey, Str(chainId)).value.id
  {
    StripPrefix(ChainPrefix, chainId);
    assert (ChainPrefix + chainId)[0] == 'c';
    assert DecodeItem(ChainPrefix + chainId) == ChainPick(chainId);
  }

  /** A prompt click sends the content of the first stored prompt with that id, or does nothing. */
  lemma {:induction false} LegacyPromptSends(promptId: string, tab: nat, prompts: seq<Prompt>)
    ensures var a := LegacyHandleClick(PromptPrefix + promptId, Some(tab), prompts, []);
      match FindByKey(prompts, PromptKey, Str(promptId))
      case None => a == Nothing
      case Some(p) => a == SentPrompt(tab, p.content)
  {
    StripPrefix(PromptPrefix, promptId);
    assert (PromptPrefix + promptId)[0] == 'p';
    assert (PromptPrefix + promptId)[..|PromptPrefix|] == PromptPrefix;
  }
}
