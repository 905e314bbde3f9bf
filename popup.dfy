// The toolbar popup: two tabs, prompts and chains, a search box that
// reloads the list of the visible tab, and starting a chain from its first
// step. Its previews, step labels and chain copies are the ChainViews ones.

module Popup {
  import opened Seqs
  import opened Text
  import opened Records
  import opened Storage
  import opened Panel

  /** The `active` class of the two tab buttons and the two content panes. */
  datatype TabState = TabState(promptsTab: bool, chainsTab: bool, promptsContent: bool, chainsContent: bool)

  /** The state setActiveTab leaves: each element active exactly when it belongs to the named tab. */
  function TabsAfter(tabName: string): TabState
  {
    TabState(tabName == "prompts", tabName == "chains", tabName == "prompts", tabName == "chains")
  }

  /** The list a search reloads, with the query it passes. */
  datatype Reload = ReloadPrompts(query: string) | ReloadChains(query: string)

  /** The debounced search: the prompts list when the prompts pane is active, the chains list otherwise. */
  function SearchTarget(tabs: TabState, input: string): Reload
  {
    var query := Trim(input);
    if tabs.promptsContent then ReloadPrompts(query) else ReloadChains(query)
  }

  /** loadPrompts: every valid prompt for an empty query, the search result otherwise, nothing when the search fails. */
  function ListedPrompts(stored: seq<Prompt>, query: string): seq<Prompt>
  {
    if query == "" then ValidPrompts(stored)
    else
      match SearchPrompts(stored, Str(query))
      case Ok(ps) => ps
      case Err(_) => []
  }

  /** loadChains, the same on chains. */
  function ListedChains(stored: seq<Chain>, query: string): seq<Chain>
  {
    if query == "" then ValidChains(stored)
    else
      match SearchChains(stored, Str(query))
      case Ok(cs) => cs
      case Err(_) => []
  }

  /**
   * The popup's insertChain: CHAIN_NOT_FOUND, EMPTY_CHAIN,
   * FIRST_STEP_NOT_FOUND, NO_ACTIVE_TAB, then the first step's content is
   * sent and a falsy answer is INSERT_FAILED. The cursor `{id, currentStep: 0}`
   * is stored only after a successful insert.
   */
  function PopupChainStart(chains: seq<Chain>, prompts: seq<Prompt>, chainId: Field, tab: Option<nat>, d: Delivery): Result<StepInsertion>
  {
    match ChainById(chains, chainId)
    case Err(e) => Err(e)
    case Ok(None) => Err(ChainNotFound)
    case Ok(Some(chain)) =>
      var steps := ItemsOf(chain.steps);
      if |steps| == 0 then Err(EmptyChain)
      else
        match PromptById(prompts, steps[0])
        case Err(e) => Err(e)
        case Ok(None) => Err(FirstStepNotFound)
        case Ok(Some(first)) =>
          if tab.None? then Err(NoActiveTab)
          else
            match d
            case Delivered(success) =>
              if success then Ok(StepInsertion(tab.value, first.content, ChainCursor(chain.id, 0)))
              else Err(InsertFailed)
            case _ => Err(MessagingFailed)
  }

  /** The popup page: the classes of its tabs and the stored chain cursor. */
  class PopupPage {
    var promptsTab: bool
    var chainsTab: bool
    var promptsContent: bool
    var chainsContent: bool
    var currentChain: Option<ChainCursor>

    /** The initial classes come from the page's markup, which is not part of this model. */
    constructor(tabs: TabState, currentChain: Option<ChainCursor>)
      ensures State() == tabs
      ensures this.currentChain == currentChain
    {
      promptsTab := tabs.promptsTab;
      chainsTab := tabs.chainsTab;
      promptsContent := tabs.promptsContent;
      chainsContent := tabs.chainsContent;
      this.currentChain := currentChain;
    }

    function State(): TabState
      reads this
    {
      TabState(promptsTab, chainsTab, promptsContent, chainsContent)
    }

    /** setActiveTab: `classList.toggle('active', …)` on the two buttons and the two panes. */
    method SetActiveTab(tabName: string)
      modifies this
      ensures State() == TabsAfter(tabName)
      ensures currentChain == old(currentChain)
    {
      promptsTab := tabName == "prompts";
      chainsTab := tabName == "chains";
      promptsContent := tabName == "prompts";
      chainsContent := tabName == "chains";
    }

    /** The search box's handler: which list is reloaded, with the trimmed query. */
    method Search(input: string) returns (r: Reload)
      ensures r == SearchTarget(State(), input)
    {
      var query := Trim(input);
      if promptsContent {
        r := ReloadPrompts(query);
      } else {
        r := ReloadChains(query);
      }
    }

    /** insertChain: the cursor is written only when the first step was inserted. */
    method InsertChain(store: Store, chainId: Field, tab: Option<nat>, d: Delivery) returns (r: Result<StepInsertion>)
      modifies this
      ensures r == PopupChainStart(store.chains, store.prompts, chainId, tab, d)
      ensures State() == old(State())
      ensures currentChain == if r.Ok? then Some(r.value.cursor) else old(currentChain)
    {
      r := PopupChainStart(store.chains, store.prompts, chainId, tab, d);
      if r.Ok? {
        currentChain := Some(r.value.cursor);
      }
    }
  }
}

// Properties of the popup.
module PopupFacts {
  import opened Seqs
  import opened Text
  import opened Records
  import opened Storage
  import opened Panel
  import opened ChainViews
  import opened Popup

  /** After choosing the prompts or the chains tab, exactly one button and exactly one pane are active, and they agree. */
  lemma OneTabActive(tabName: string)
    requires tabName == "prompts" || tabName == "chains"
    ensures var s := TabsAfter(tabName);
      s.promptsTab != s.chainsTab && s.promptsContent != s.chainsContent && s.promptsTab == s.promptsContent
  {
  }

  /** A search reloads the list of the tab last chosen; after any other name both panes are inactive and the chains list is reloaded. */
  lemma SearchFollowsTab(tabName: string, input: string)
    ensures SearchTarget(TabsAfter(tabName), input) ==
      if tabName == "prompts" then ReloadPrompts(Trim(input)) else ReloadChains(Trim(input))
    ensures tabName != "prompts" && tabName != "chains" ==>
      !TabsAfter(tabName).promptsContent && !TabsAfter(tabName).chainsContent
  {
  }

  /** A listed prompt is always a valid stored prompt, in stored order, and the empty query lists them all. */
  lemma ListedPromptsAreValid(stored: seq<Prompt>, query: string)
    ensures Sublist(ListedPrompts(stored, query), ValidPrompts(stored))
    ensures query == "" ==> ListedPrompts(stored, query) == ValidPrompts(stored)
  {
    SublistRefl(ValidPrompts(stored));
  }

  lemma ListedChainsAreValid(stored: seq<Chain>, query: string)
    ensures Sublist(ListedChains(stored, query), ValidChains(stored))
    ensures query == "" ==> ListedChains(stored, query) == ValidChains(stored)
  {
    SublistRefl(ValidChains(stored));
  }

  /**
   * The popup starts a chain exactly as the panel does; the only difference
   * is the code for a first step whose prompt is missing.
   */
  lemma PopupAgreesWithPanel(chains: seq<Chain>, prompts: seq<Prompt>, chainId: Field, tab: Option<nat>, d: Delivery)
    ensures PopupChainStart(chains, prompts, chainId, tab, d) ==
      match ChainStart(chains, prompts, chainId, tab, d)
      case Err(StepPromptNotFound) => Err(FirstStepNotFound)
      case other => other
  {
    match ChainById(chains, chainId)
    case Err(e) =>
    case Ok(None) =>
    case Ok(Some(chain)) =>
      var steps := ItemsOf(chain.steps);
      if |steps| > 0 {
        assert ChainStart(chains, prompts, chainId, tab, d) == StepInsert(chains, prompts, chainId, 0, tab, d);
        match PromptById(prompts, steps[0])
        case Err(e) =>
        case Ok(None) =>
        case Ok(Some(first)) =>
          assert chain.id == chainId;
      }
  }

  /** The popup's previews are at most 53 characters long and leave content of up to 50 characters whole. */
  lemma PopupPreview(content: string)
    ensures |Preview(content, 50)| <= 53
    ensures |content| <= 50 ==> Preview(content, 50) == content
    ensures |content| > 50 ==> Preview(content, 50) == content[..50] + "..."
  {
  }
}
