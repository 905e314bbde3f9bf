// The hardened background script: the context menu it builds from the
// stored prompts and chains, and what a click on one of its items does.
// The menu is planned as a list of items; storage, tabs and the content
// script's answer are parameters.

module Menu {
  import opened Seqs
  import opened Text
  import opened Records

  datatype Kind = Normal | Separator

  /** The properties of a `chrome.contextMenus.create` call that the script sets. */
  datatype MenuItem = MenuItem(id: string, parent: Option<string>, title: string, kind: Kind, contexts: seq<string>)

  const ParentId: string := "prompt-vault-menu"
  const PromptPrefix: string := "prompt-"
  const ChainPrefix: string := "chain-"
  /** The chain marker: U+26D3 CHAIN, the emoji variation selector, a space. */
  const ChainMark: string := "\U{26D3}\U{FE0F} "

  /** The four fixed items, recreated before the dynamic ones. */
  function BaseItems(): seq<MenuItem>
  {
    [ MenuItem(ParentId, None, "Local Prompt Chains Vault", Normal, ["editable"]),
      MenuItem("manage-prompts", Some(ParentId), "Manage Prompts...", Normal, ["editable"]),
      MenuItem("separator", Some(ParentId), "", Separator, ["editable"]),
      MenuItem("openPromptVault", None, "Open Local Prompt Chains Vault", Normal, ["page", "selection", "editable"]) ]
  }

  function ChainSeparator(): MenuItem
  {
    MenuItem("chain-separator", Some(ParentId), "", Separator, ["editable"])
  }

  /** `String(id)` for a string id; the text of a number or other truthy id is not modelled and is taken as empty. */
  function Shown(id: Field): string
  {
    StrOf(id)
  }

  /** The prompt filter of updateContextMenu: an object with a truthy id, title and content. */
  predicate PromptListed(p: Option<Prompt>)
  {
    p.Some? && Truthy(p.value.id) && Truthy(p.value.title) && Truthy(p.value.content)
  }

  /** The chain filter: an object with a truthy id and title whose steps are an array. */
  predicate ChainListed(c: Option<Chain>)
  {
    c.Some? && Truthy(c.value.id) && Truthy(c.value.title) && c.value.steps.JsArray?
  }

  function ListedPrompts(stored: seq<Option<Prompt>>): (r: seq<Prompt>)
    ensures forall i :: 0 <= i < |r| ==> PromptListed(Some(r[i])) && Some(r[i]) in stored
    ensures r == [] <==> forall i :: 0 <= i < |stored| ==> !PromptListed(stored[i])
  {
    if stored == [] then []
    else (if PromptListed(stored[0]) then [stored[0].value] else []) + ListedPrompts(stored[1..])
  }

  function ListedChains(stored: seq<Option<Chain>>): (r: seq<Chain>)
    ensures forall i :: 0 <= i < |r| ==> ChainListed(Some(r[i])) && Some(r[i]) in stored
    ensures r == [] <==> forall i :: 0 <= i < |stored| ==> !ChainListed(stored[i])
  {
    if stored == [] then []
    else (if ChainListed(stored[0]) then [stored[0].value] else []) + ListedChains(stored[1..])
  }

  /** A prompt's item: title over 50 characters cut to 47 plus an ellipsis. */
  function PromptItem(p: Prompt): MenuItem
  {
    MenuItem(PromptPrefix + Shown(p.id), Some(ParentId), Truncate(StrOf(p.title), 50, 47), Normal, ["editable"])
  }

  /** A chain's item: the chain marker, then the title over 45 characters cut to 42 plus an ellipsis. */
  function ChainItem(c: Chain): MenuItem
  {
    MenuItem(ChainPrefix + Shown(c.id), Some(ParentId), ChainMark + Truncate(StrOf(c.title), 45, 42), Normal, ["editable"])
  }

  /**
   * updateContextMenu: after removing every item, the fixed items, the
   * first five listed prompts, a separator when a chain is listed, and the
   * first three listed chains, in that order.
   */
  function MenuPlan(prompts: seq<Option<Prompt>>, chains: seq<Option<Chain>>): seq<MenuItem>
  {
    var ps := ListedPrompts(prompts);
    var cs := ListedChains(chains);
    BaseItems() + Map(Take(ps, 5), PromptItem)
      + (if cs != [] then [ChainSeparator()] else [])
      + Map(Take(cs, 3), ChainItem)
  }

  // ---------------------------------------------------------------------
  // Clicks

  /** The branch of the click handler an item id selects. */
  datatype Click = Manage | PromptPick(promptId: string) | ChainPick(chainId: string) | OpenVault | Ignored

  /**
   * The tests of the click handler in order; a matching prefix is removed
   * with `replace`, which removes its first occurrence.
   */
  function DecodeItem(itemId: string): Click
  {
    if itemId == "manage-prompts" then Manage
    else if StartsWith(itemId, PromptPrefix) then PromptPick(ReplaceFirst(itemId, PromptPrefix, ""))
    else if StartsWith(itemId, ChainPrefix) then ChainPick(ReplaceFirst(itemId, ChainPrefix, ""))
    else if itemId == "openPromptVault" then OpenVault
    else Ignored
  }

  /** What a click leads to when no error is raised. */
  datatype Effect =
    | OpenedPanel(tab: nat)
    | Sent(tab: nat, text: Field)
    | StartedChain(tab: nat, text: Field, cursor: ChainCursor)
    | NoEffect

  /** `tab?.id` is truthy. */
  predicate TabOk(tab: Option<nat>)
  {
    tab.Some? && tab.value != 0
  }

  /**
   * `list.find(x => x.id === id)` on a stored list: the first entry with the
   * id, none, or a TypeError when a null entry comes before any match.
   */
  function FindOrThrow<T>(s: seq<Option<T>>, key: T -> Field, id: Field): (r: Result<Option<T>>)
    ensures r.Ok? && r.value.Some? ==> Some(r.value.value) in s && key(r.value.value) == id
    ensures r.Ok? && r.value.None? ==> forall i :: 0 <= i < |s| ==> s[i].Some? && key(s[i].value) != id
    ensures r.Err? ==> r.error == TypeError && None in s
  {
    if s == [] then Ok(None)
    else if s[0].None? then Err(TypeError)
    else if key(s[0].value) == id then Ok(Some(s[0].value))
    else FindOrThrow(s[1..], key, id)
  }

  /**
   * The content script's answer to `insertText`: a falsy success is
   * INSERT_FAILED, a missing receiver CONNECTION_FAILED, any other
   * messaging error is rethrown.
   */
  function Deliver(d: Delivery, effect: Effect): (r: Result<Effect>)
    ensures r.Ok? <==> d == Delivered(true)
    ensures r.Ok? ==> r.value == effect
  {
    match d
    case Delivered(ok) => if ok then Ok(effect) else Err(InsertFailed)
    case NoReceiver => Err(ConnectionFailed)
    case SendError => Err(MessagingFailed)
  }

  /** The prompt branch: INVALID_PROMPT_ID, PROMPT_NOT_FOUND, NO_TAB, then the delivery. */
  function PromptClick(promptId: string, tab: Option<nat>, prompts: seq<Option<Prompt>>, d: Delivery): Result<Effect>
  {
    if promptId == "" then Err(InvalidPromptId)
    else
      match FindOrThrow(prompts, PromptKey, Str(promptId))
      case Err(e) => Err(e)
      case Ok(None) => Err(PromptNotFound)
      case Ok(Some(p)) =>
        if !TabOk(tab) then Err(NoTab) else Deliver(d, Sent(tab.value, p.content))
  }

  /** `!chain.steps || chain.steps.length === 0`, for steps that are an array or absent. */
  predicate NoSteps(c: Chain)
  {
    !c.steps.JsArray? || c.steps.items == []
  }

  /**
   * The chain branch: INVALID_CHAIN_ID, CHAIN_NOT_FOUND, EMPTY_CHAIN,
   * FIRST_STEP_NOT_FOUND, NO_TAB, then the delivery; the cursor at step 0
   * is the state to store once the first step was inserted.
   */
  function ChainClick(chainId: string, tab: Option<nat>, prompts: seq<Option<Prompt>>,
                      chains: seq<Option<Chain>>, d: Delivery): Result<Effect>
  {
    if chainId == "" then Err(InvalidChainId)
    else
      match FindOrThrow(chains, ChainKey, Str(chainId))
      case Err(e) => Err(e)
      case Ok(None) => Err(ChainNotFound)
      case Ok(Some(c)) =>
        if NoSteps(c) then Err(EmptyChain)
        else
          match FindOrThrow(prompts, PromptKey, c.steps.items[0])
          case Err(e) => Err(e)
          case Ok(None) => Err(FirstStepNotFound)
          case Ok(Some(p)) =>
            if !TabOk(tab) then Err(NoTab)
            else Deliver(d, StartedChain(tab.value, p.content, ChainCursor(c.id, 0)))
  }

  /** The side panel opens for a tab with a truthy id; otherwise NO_TAB. */
  function OpenPanel(tab: Option<nat>): Result<Effect>
  {
    if TabOk(tab) then Ok(OpenedPanel(tab.value)) else Err(NoTab)
  }

  /** The click handler of the hardened script, as the result it reaches. */
  function HandleClick(itemId: string, tab: Option<nat>, prompts: seq<Option<Prompt>>,
                       chains: seq<Option<Chain>>, d: Delivery): Result<Effect>
  {
    match DecodeItem(itemId)
    case Manage => OpenPanel(tab)
    case PromptPick(id) => PromptClick(id, tab, prompts, d)
    case ChainPick(id) => ChainClick(id, tab, prompts, chains, d)
    case OpenVault => OpenPanel(tab)
    case Ignored => Ok(NoEffect)
  }

  /** The part of local storage the click handler writes: the chain in progress. */
  class Background {
    var currentChain: Option<ChainCursor>

    constructor(currentChain: Option<ChainCursor>)
      ensures this.currentChain == currentChain
    {
      this.currentChain := currentChain;
    }

    /**
     * contextMenus.onClicked: the handler's result, and `currentChain`
     * written only when a chain's first step was inserted.
     */
    method OnClicked(itemId: string, tab: Option<nat>, prompts: seq<Option<Prompt>>,
                     chains: seq<Option<Chain>>, d: Delivery) returns (r: Result<Effect>)
      modifies this
      ensures r == HandleClick(itemId, tab, prompts, chains, d)
      ensures currentChain == if r.Ok? && r.value.StartedChain? then Some(r.value.cursor) else old(currentChain)
    {
      r := HandleClick(itemId, tab, prompts, chains, d);
      if r.Ok? && r.value.StartedChain? {
        currentChain := Some(r.value.cursor);
      }
    }
  }
}

// Properties of the hardened context menu.
module MenuFacts {
  import opened Seqs
  import opened Text
  import opened Records
  import opened Menu

  /**
   * The plan starts with the four fixed items, then holds an item for each
   * of the first five listed prompts in stored order, and an item for each
   * of the first three listed chains, behind the separator when there is one.
   */
  lemma {:induction false} PlanLayout(prompts: seq<Option<Prompt>>, chains: seq<Option<Chain>>)
    ensures var plan := MenuPlan(prompts, chains);
      var ps := ListedPrompts(prompts);
      var cs := ListedChains(chains);
      var sep := if cs != [] then 1 else 0;
      |plan| == 4 + Min(5, |ps|) + sep + Min(3, |cs|)
      && plan[..4] == BaseItems()
      && (forall i :: 0 <= i < Min(5, |ps|) ==> plan[4 + i] == PromptItem(ps[i]))
      && (cs != [] ==> plan[4 + Min(5, |ps|)] == ChainSeparator())
      && (forall i :: 0 <= i < Min(3, |cs|) ==> plan[4 + Min(5, |ps|) + sep + i] == ChainItem(cs[i]))
  {
    var ps := ListedPrompts(prompts);
    var cs := ListedChains(chains);
    var base := BaseItems();
    var items := Map(Take(ps, 5), PromptItem);
    var mark: seq<MenuItem> := if cs != [] then [ChainSeparator()] else [];
    var links := Map(Take(cs, 3), ChainItem);
    var plan := MenuPlan(prompts, chains);
    assert plan == base + items + mark + links;
    var n := 4 + |items|;
    assert plan[..4] == base;
    forall i | 0 <= i < |items|
      ensures plan[4 + i] == PromptItem(ps[i])
    {
      assert plan[4 + i] == items[i];
    }
    if cs != [] {
      assert plan[n] == mark[0];
    }
    forall i | 0 <= i < |links|
      ensures plan[n + |mark| + i] == ChainItem(cs[i])
    {
      assert plan[n + |mark| + i] == links[i];
    }
  }

  /** No prompt title in the menu exceeds 50 characters, no chain title exceeds 45 behind its marker. */
  lemma TitlesBounded(p: Prompt, c: Chain)
    ensures |PromptItem(p).title| <= 50
    ensures |ChainItem(c).title| <= |ChainMark| + 45
    ensures |StrOf(p.title)| <= 50 ==> PromptItem(p).title == StrOf(p.title)
  {
    TruncateBound(StrOf(p.title), 50, 47);
    TruncateBound(StrOf(c.title), 45, 42);
  }

  /** The chain separator is in the menu exactly when at least one stored chain is listed. */
  lemma {:induction false} SeparatorIffChain(prompts: seq<Option<Prompt>>, chains: seq<Option<Chain>>)
    ensures (exists i :: 0 <= i < |MenuPlan(prompts, chains)| && MenuPlan(prompts, chains)[i] == ChainSeparator())
      <==> exists j :: 0 <= j < |chains| && ChainListed(chains[j])
  {
    var plan := MenuPlan(prompts, chains);
    var ps := ListedPrompts(prompts);
    var cs := ListedChains(chains);
    PlanLayout(prompts, chains);
    if cs != [] {
      assert plan[4 + Min(5, |ps|)] == ChainSeparator();
      var c := cs[0];
      var j :| 0 <= j < |chains| && chains[j] == Some(c);
      assert ChainListed(chains[j]);
    } else {
      forall i | 0 <= i < |plan| ensures plan[i] != ChainSeparator() {
        if i >= 4 {
          assert plan[i] == PromptItem(ps[i - 4]);
          assert plan[i].kind == Normal;
        } else {
          assert plan[i] == BaseItems()[i];
        }
      }
    }
  }

  /** A prompt's item decodes to its id, and a chain's item to the chain's id. */
  lemma ItemIdsDecode(p: Prompt, c: Chain)
    ensures DecodeItem(PromptItem(p).id) == PromptPick(Shown(p.id))
    ensures DecodeItem(ChainItem(c).id) == ChainPick(Shown(c.id))
  {
    StripPrefix(PromptPrefix, Shown(p.id));
    StripPrefix(ChainPrefix, Shown(c.id));
    assert PromptItem(p).id[..|PromptPrefix|] == PromptPrefix;
    assert ChainItem(c).id[..|ChainPrefix|] == ChainPrefix;
    assert PromptItem(p).id[0] == 'p' && ChainItem(c).id[0] == 'c';
  }

  /**
   * The parent item's own id begins with the prompt prefix, so were it
   * clicked it would be read as the prompt "vault-menu".
   */
  lemma ParentReadsAsPrompt()
    ensures DecodeItem(ParentId) == PromptPick("vault-menu")
  {
    var id := PromptPrefix + "vault-menu";
    assert ParentId == id;
    assert |id| != |"manage-prompts"|;
    assert id[..|PromptPrefix|] == PromptPrefix;
    StripPrefix(PromptPrefix, "vault-menu");
  }

  /**
   * A click on a listed prompt with a string id finds a prompt with that id,
   * when no null entry is stored: it never reports PROMPT_NOT_FOUND.
   */
  lemma {:induction false} ListedPromptFound(prompts: seq<Option<Prompt>>, p: Prompt)
    requires forall i :: 0 <= i < |prompts| ==> prompts[i].Some?
    requires p in ListedPrompts(prompts) && p.id.Str?
    ensures var r := FindOrThrow(prompts, PromptKey, Str(Shown(p.id)));
      r.Ok? && r.value.Some? && r.value.value.id == p.id
  {
    var k :| 0 <= k < |prompts| && prompts[k] == Some(p);
    assert PromptKey(prompts[k].value) == Str(Shown(p.id));
  }

  /**
   * The order of the chain guards: a missing chain is reported whatever
   * the tab and the delivery, a missing tab only once the chain and its
   * first prompt were found.
   */
  lemma ChainGuardOrder(chainId: string, tab: Option<nat>, prompts: seq<Option<Prompt>>,
                        chains: seq<Option<Chain>>, d: Delivery)
    requires chainId != "" && FindOrThrow(chains, ChainKey, Str(chainId)) == Ok(None)
    ensures ChainClick(chainId, tab, prompts, chains, d) == Err(ChainNotFound)
    ensures ChainClick(chainId, None, prompts, chains, d) == Err(ChainNotFound)
  {
  }

  lemma NoTabLast(chainId: string, tab: Option<nat>, prompts: seq<Option<Prompt>>,
                  chains: seq<Option<Chain>>, d: Delivery)
    requires ChainClick(chainId, tab, prompts, chains, d) == Err(NoTab)
    ensures chainId != ""
    ensures var c := FindOrThrow(chains, ChainKey, Str(chainId));
      c.Ok? && c.value.Some? && !NoSteps(c.value.value)
      && FindOrThrow(prompts, PromptKey, c.value.value.steps.items[0]).Ok?
      && FindOrThrow(prompts, PromptKey, c.value.value.steps.items[0]).value.Some?
    ensures !TabOk(tab)
  {
  }

  /**
   * A chain is started only when its first step was delivered: the stored
   * cursor names the clicked chain at step 0, and the inserted text is the
   * content of the chain's first prompt.
   */
  lemma {:induction false} StartedOnlyAfterDelivery(itemId: string, tab: Option<nat>, prompts: seq<Option<Prompt>>,
                                                    chains: seq<Option<Chain>>, d: Delivery)
    requires HandleClick(itemId, tab, prompts, chains, d).Ok?
    requires HandleClick(itemId, tab, prompts, chains, d).value.StartedChain?
    ensures d == Delivered(true) && TabOk(tab)
    ensures var e := HandleClick(itemId, tab, prompts, chains, d).value;
      e.cursor.currentStep == 0
      && exists c :: Some(c) in chains && c.id == e.cursor.chainId && c.id == Str(DecodeItem(itemId).chainId)
                     && !NoSteps(c)
                     && exists p :: Some(p) in prompts && p.id == c.steps.items[0] && p.content == e.text
  {
    var e := HandleClick(itemId, tab, prompts, chains, d).value;
    assert DecodeItem(itemId).ChainPick?;
    var chainId := DecodeItem(itemId).chainId;
    var c := FindOrThrow(chains, ChainKey, Str(chainId)).value.value;
    var p := FindOrThrow(prompts, PromptKey, c.steps.items[0]).value.value;
    assert e == StartedChain(tab.value, p.content, ChainCursor(c.id, 0));
  }

  /** A failed click leaves the chain in progress as it was. */
  lemma FailureKeepsCursor(itemId: string, tab: Option<nat>, prompts: seq<Option<Prompt>>,
                           chains: seq<Option<Chain>>, d: Delivery)
    requires d != Delivered(true)
    ensures !(HandleClick(itemId, tab, prompts, chains, d).Ok?
              && HandleClick(itemId, tab, prompts, chains, d).value.StartedChain?)
  {
  }
}
