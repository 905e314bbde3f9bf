// The hardened store (build/storage.js): prompts, chains and domain selectors
// kept in chrome.storage.local. Every read passes the stored records through
// the Validator and drops the ones it rejects; every write stores the list
// that read returned, so records that fail validation disappear on the next
// write.

module Storage {
  import opened Seqs
  import opened Text
  import opened Records
  import opened Validator

  // ---------------------------------------------------------------------
  // Reads

  /** Storage.getPrompts: the stored prompts the Validator accepts, in stored order. */
  function ValidPrompts(stored: seq<Prompt>): seq<Prompt>
  {
    Filter(stored, PromptAccepted)
  }

  /** Storage.getChains: the stored chains the Validator accepts, in stored order. */
  function ValidChains(stored: seq<Chain>): seq<Chain>
  {
    Filter(stored, ChainAccepted)
  }

  function SelectorOk(cssParses: string -> bool): Selector -> bool
  {
    (s: Selector) => SelectorAccepted(s, cssParses)
  }

  /** Storage.getDomainSelectors: the stored selectors the Validator accepts, in stored order. */
  function ValidSelectors(stored: seq<Selector>, cssParses: string -> bool): seq<Selector>
  {
    Filter(stored, SelectorOk(cssParses))
  }

  /**
   * The reads return exactly the stored records without a validation
   * problem, in stored order.
   */
  lemma ReadsKeepExactlyValidPrompts(ps: seq<Prompt>)
    ensures forall i :: 0 <= i < |ps| ==> (ps[i] in ValidPrompts(ps) <==> PromptIssues(Some(ps[i])) == [])
    ensures forall i :: 0 <= i < |ValidPrompts(ps)| ==> PromptIssues(Some(ValidPrompts(ps)[i])) == []
    ensures Sublist(ValidPrompts(ps), ps)
  {
    FilterSublist(ps, PromptAccepted);
  }

  /** The same for the chains. */
  lemma ReadsKeepExactlyValidChains(cs: seq<Chain>)
    ensures forall i :: 0 <= i < |cs| ==> (cs[i] in ValidChains(cs) <==> ChainIssues(Some(cs[i])) == [])
    ensures forall i :: 0 <= i < |ValidChains(cs)| ==> ChainIssues(Some(ValidChains(cs)[i])) == []
    ensures Sublist(ValidChains(cs), cs)
  {
    FilterSublist(cs, ChainAccepted);
  }

  /** The same for the domain selectors. */
  lemma ReadsKeepExactlyValidSelectors(ss: seq<Selector>, cssParses: string -> bool)
    ensures forall i :: 0 <= i < |ss| ==>
      (ss[i] in ValidSelectors(ss, cssParses) <==> SelectorIssues(Some(ss[i]), cssParses) == [])
    ensures forall i :: 0 <= i < |ValidSelectors(ss, cssParses)| ==>
      SelectorIssues(Some(ValidSelectors(ss, cssParses)[i]), cssParses) == []
    ensures Sublist(ValidSelectors(ss, cssParses), ss)
  {
    FilterSublist(ss, SelectorOk(cssParses));
  }

  /** Storage.getPromptById: the first valid prompt with that id, None when there is none. */
  function PromptById(stored: seq<Prompt>, id: Field): (r: Result<Option<Prompt>>)
    ensures !IsText(id) ==> r == Err(InvalidPromptId)
    ensures IsText(id) ==> r.Ok?
    ensures r.Ok? && r.value.Some? ==> r.value.value in ValidPrompts(stored) && r.value.value.id == id
    ensures r.Ok? && r.value.None? ==> forall i :: 0 <= i < |ValidPrompts(stored)| ==> ValidPrompts(stored)[i].id != id
  {
    if !IsText(id) then Err(InvalidPromptId)
    else Ok(FindByKey(ValidPrompts(stored), PromptKey, id))
  }

  /** Storage.getChainById: the first valid chain with that id, None when there is none. */
  function ChainById(stored: seq<Chain>, id: Field): (r: Result<Option<Chain>>)
    ensures !IsText(id) ==> r == Err(InvalidChainId)
    ensures IsText(id) ==> r.Ok?
    ensures r.Ok? && r.value.Some? ==> r.value.value in ValidChains(stored) && r.value.value.id == id
    ensures r.Ok? && r.value.None? ==> forall i :: 0 <= i < |ValidChains(stored)| ==> ValidChains(stored)[i].id != id
  {
    if !IsText(id) then Err(InvalidChainId)
    else Ok(FindByKey(ValidChains(stored), ChainKey, id))
  }

  // ---------------------------------------------------------------------
  // What a save writes

  /** `sanitizeText(x.trim())`, applied to a title or content the Validator accepted. */
  function Clean(f: Field): Field
  {
    Str(SanitizeText(Str(Trim(StrOf(f)))))
  }

  /** The record savePrompt returns and stores: cleaned text, id and timestamps settled. */
  function SavedPrompt(stored: seq<Prompt>, p: Prompt, now: Millis, stamp: string): Prompt
  {
    var base := p.(title := Clean(p.title), content := Clean(p.content));
    var list := ValidPrompts(stored);
    if !Truthy(p.id) then base.(id := Str("prompt_" + stamp), created := now, updated := now)
    else match IndexOfKey(list, PromptKey, p.id)
      case Some(i) => base.(created := if list[i].created != 0 then list[i].created else now, updated := now)
      case None => base.(created := now, updated := now)
  }

  /** The prompt list savePrompt writes back. */
  function PromptsAfterSave(stored: seq<Prompt>, p: Prompt, now: Millis, stamp: string): seq<Prompt>
  {
    var saved := SavedPrompt(stored, p, now, stamp);
    if !Truthy(p.id) then ValidPrompts(stored) + [saved]
    else Upsert(ValidPrompts(stored), saved, PromptKey)
  }

  function SavedChain(stored: seq<Chain>, c: Chain, now: Millis, stamp: string): Chain
  {
    var base := c.(title := Clean(c.title));
    var list := ValidChains(stored);
    if !Truthy(c.id) then base.(id := Str("chain_" + stamp), created := now, updated := now)
    else match IndexOfKey(list, ChainKey, c.id)
      case Some(i) => base.(created := if list[i].created != 0 then list[i].created else now, updated := now)
      case None => base.(created := now, updated := now)
  }

  function ChainsAfterSave(stored: seq<Chain>, c: Chain, now: Millis, stamp: string): seq<Chain>
  {
    var saved := SavedChain(stored, c, now, stamp);
    if !Truthy(c.id) then ValidChains(stored) + [saved]
    else Upsert(ValidChains(stored), saved, ChainKey)
  }

  /** The ids of the given prompts (`new Set(prompts.map(p => p.id))`). */
  function PromptIds(prompts: seq<Prompt>): (r: seq<Field>)
    ensures |r| == |prompts|
    ensures forall i :: 0 <= i < |prompts| ==> r[i] == prompts[i].id
  {
    Map(prompts, PromptKey)
  }

  /** Every step of the chain is the id of a prompt that getPrompts returns. */
  predicate StepsKnown(steps: Arr<Field>, prompts: seq<Prompt>)
  {
    steps.JsArray? && forall i :: 0 <= i < |steps.items| ==> steps.items[i] in PromptIds(ValidPrompts(prompts))
  }

  // ---------------------------------------------------------------------
  // What a delete writes

  function IdIsNot(id: Field): Prompt -> bool
  {
    (p: Prompt) => p.id != id
  }

  function ChainIdIsNot(id: Field): Chain -> bool
  {
    (c: Chain) => c.id != id
  }

  function StepIsNot(id: Field): Field -> bool
  {
    (s: Field) => s != id
  }

  /** `chain.steps = chain.steps.filter(stepId => stepId !== id)`. */
  function StripStep(c: Chain, id: Field): (r: Chain)
    ensures r.id == c.id && r.title == c.title && r.created == c.created && r.updated == c.updated
    ensures c.steps.JsArray? <==> r.steps.JsArray?
    ensures c.steps.JsArray? ==> forall i :: 0 <= i < |r.steps.items| ==> r.steps.items[i] != id
    ensures c.steps.JsArray? ==> Sublist(r.steps.items, c.steps.items)
  {
    match c.steps
    case NotArray => c
    case JsArray(ids) =>
      FilterSublist(ids, StepIsNot(id));
      c.(steps := JsArray(Filter(ids, StepIsNot(id))))
  }

  /** A prompt with that id exists among the given prompts. */
  predicate HasPrompt(prompts: seq<Prompt>, id: Field)
  {
    exists i :: 0 <= i < |prompts| && prompts[i].id == id
  }

  predicate HasChain(chains: seq<Chain>, id: Field)
  {
    exists i :: 0 <= i < |chains| && chains[i].id == id
  }

  // ---------------------------------------------------------------------
  // Searches

  /** `prompt.title.toLowerCase().includes(term) || prompt.content.toLowerCase().includes(term)`. */
  function PromptMatches(term: string): Prompt -> bool
  {
    (p: Prompt) => Contains(ToLower(StrOf(p.title)), term) || Contains(ToLower(StrOf(p.content)), term)
  }

  function ChainMatches(term: string): Chain -> bool
  {
    (c: Chain) => Contains(ToLower(StrOf(c.title)), term)
  }

  /** `query.toLowerCase().trim()`. */
  function SearchTerm(q: string): string
  {
    Trim(ToLower(q))
  }

  /**
   * Storage.searchPrompts: the valid prompts whose title or content contains
   * the lower-cased, trimmed query, in stored order; all of them for a blank query.
   */
  function SearchPrompts(stored: seq<Prompt>, q: Field): (r: Result<seq<Prompt>>)
    ensures SearchQueryIssue(q).Some? <==> r == Err(InvalidSearchQuery)
    ensures r.Ok? ==> Sublist(r.value, ValidPrompts(stored))
    ensures r.Ok? && Blank(q.s) ==> r.value == ValidPrompts(stored)
    ensures r.Ok? && !Blank(q.s) ==>
      (forall i :: 0 <= i < |r.value| ==> PromptMatches(SearchTerm(q.s))(r.value[i]))
      && forall i :: 0 <= i < |ValidPrompts(stored)| && PromptMatches(SearchTerm(q.s))(ValidPrompts(stored)[i])
           ==> ValidPrompts(stored)[i] in r.value
  {
    if SearchQueryIssue(q).Some? then Err(InvalidSearchQuery)
    else
      TrimEmptyIffBlank(q.s);
      SublistRefl(ValidPrompts(stored));
      if Trim(q.s) == "" then Ok(ValidPrompts(stored))
      else
        FilterSublist(ValidPrompts(stored), PromptMatches(SearchTerm(q.s)));
        Ok(Filter(ValidPrompts(stored), PromptMatches(SearchTerm(q.s))))
  }

  /** Storage.searchChains: as SearchPrompts, on chain titles only. */
  function SearchChains(stored: seq<Chain>, q: Field): (r: Result<seq<Chain>>)
    ensures SearchQueryIssue(q).Some? <==> r == Err(InvalidSearchQuery)
    ensures r.Ok? ==> Sublist(r.value, ValidChains(stored))
    ensures r.Ok? && Blank(q.s) ==> r.value == ValidChains(stored)
    ensures r.Ok? && !Blank(q.s) ==>
      (forall i :: 0 <= i < |r.value| ==> ChainMatches(SearchTerm(q.s))(r.value[i]))
      && forall i :: 0 <= i < |ValidChains(stored)| && ChainMatches(SearchTerm(q.s))(ValidChains(stored)[i])
           ==> ValidChains(stored)[i] in r.value
  {
    if SearchQueryIssue(q).Some? then Err(InvalidSearchQuery)
    else
      TrimEmptyIffBlank(q.s);
      SublistRefl(ValidChains(stored));
      if Trim(q.s) == "" then Ok(ValidChains(stored))
      else
        FilterSublist(ValidChains(stored), ChainMatches(SearchTerm(q.s)));
        Ok(Filter(ValidChains(stored), ChainMatches(SearchTerm(q.s))))
  }

  // ---------------------------------------------------------------------
  // Domain selectors and import

  /** The selector saveDomainSelectors stores: pattern and CSS selector cleaned. */
  function CleanSelector(s: Selector): Selector
  {
    s.(domainPattern := Clean(s.domainPattern), cssSelector := Clean(s.cssSelector))
  }

  /** validateDomainSelector finds nothing wrong. */
  predicate SelectorValid(s: Option<Selector>, cssParses: string -> bool)
  {
    SelectorIssues(s, cssParses) == []
  }

  /** Every element of the array passes validateDomainSelector. */
  predicate AllSelectorsValid(items: seq<Option<Selector>>, cssParses: string -> bool)
  {
    forall i :: 0 <= i < |items| ==> SelectorValid(items[i], cssParses)
  }

  function SelectorPasses(cssParses: string -> bool): Option<Selector> -> bool
  {
    (s: Option<Selector>) => SelectorValid(s, cssParses)
  }

  /** The `for (const selector of selectors)` validation loop, which stops at the first rejected selector. */
  method CheckSelectors(items: seq<Option<Selector>>, cssParses: string -> bool) returns (allValid: bool)
    ensures allValid <==> AllSelectorsValid(items, cssParses)
  {
    allValid := Every(items, SelectorPasses(cssParses));
  }

  /** The object importData receives; `Arr` says whether each property is an array. */
  datatype Bundle = Bundle(prompts: Arr<Option<Prompt>>, chains: Arr<Option<Chain>>, domainSelectors: Arr<Option<Selector>>)

  datatype Tally = Tally(imported: nat, skipped: nat)

  datatype ImportReport = ImportReport(prompts: Tally, chains: Tally, domainSelectors: Tally)

  /** One import step: the prompt list after savePrompt, or unchanged when savePrompt refuses the item. */
  function PromptImported(stored: seq<Prompt>, x: Option<Prompt>, now: Millis, stamp: string): seq<Prompt>
  {
    if PromptIssues(x) == [] then PromptsAfterSave(stored, x.value, now, stamp) else stored
  }

  function PromptStep(now: Millis, stamps: nat -> string): (seq<Prompt>, Option<Prompt>, nat) -> seq<Prompt>
  {
    (stored: seq<Prompt>, x: Option<Prompt>, k: nat) => PromptImported(stored, x, now, stamps(k))
  }

  /** The prompt list after importing `items` one savePrompt at a time; item k gets the stamp `stamps(k)`. */
  function PromptsAfterImport(stored: seq<Prompt>, items: seq<Option<Prompt>>, now: Millis, stamps: nat -> string): seq<Prompt>
  {
    FoldIndexed(stored, items, PromptStep(now, stamps), 0)
  }

  /** validateChain finds nothing wrong (by ChainIssues' contract, the same as `ChainIssues(c) == []`). */
  predicate ChainValid(c: Option<Chain>)
  {
    c.Some? && ChainAccepted(c.value)
  }

  /** Whether saveChain accepts the chain against the given stored prompts. */
  predicate ChainSavable(c: Option<Chain>, prompts: seq<Prompt>)
  {
    ChainValid(c) && StepsKnown(c.value.steps, prompts)
  }

  function ChainSavableOn(prompts: seq<Prompt>): Option<Chain> -> bool
  {
    (c: Option<Chain>) => ChainSavable(c, prompts)
  }

  /** One import step: the chain list after saveChain, or unchanged when saveChain refuses the item. */
  function ChainImported(stored: seq<Chain>, prompts: seq<Prompt>, x: Option<Chain>, now: Millis, stamp: string): seq<Chain>
  {
    if ChainSavable(x, prompts) then ChainsAfterSave(stored, x.value, now, stamp) else stored
  }

  function ChainStep(prompts: seq<Prompt>, now: Millis, stamps: nat -> string): (seq<Chain>, Option<Chain>, nat) -> seq<Chain>
  {
    (stored: seq<Chain>, x: Option<Chain>, k: nat) => ChainImported(stored, prompts, x, now, stamps(k))
  }

  /** The chain list after importing `items` one saveChain at a time; item k gets the stamp `stamps(offset + k)`. */
  function ChainsAfterImport(stored: seq<Chain>, prompts: seq<Prompt>, items: seq<Option<Chain>>, now: Millis,
                             stamps: nat -> string, offset: nat): seq<Chain>
  {
    FoldIndexed(stored, items, ChainStep(prompts, now, stamps), offset)
  }

  function ItemsOf<T>(a: Arr<T>): seq<T>
  {
    if a.JsArray? then a.items else []
  }

  // ---------------------------------------------------------------------
  // The store

  class Store {
    /** The three arrays kept in chrome.storage.local, as stored (not yet validated). */
    var prompts: seq<Prompt>
    var chains: seq<Chain>
    var domainSelectors: seq<Selector>
    /** Whether `document.querySelector` accepts a selector string. */
    const cssParses: string -> bool

    constructor(cssParses: string -> bool)
      ensures prompts == [] && chains == [] && domainSelectors == []
      ensures this.cssParses == cssParses
    {
      prompts := [];
      chains := [];
      domainSelectors := [];
      this.cssParses := cssParses;
    }

    /**
     * Storage.savePrompt. A prompt the Validator rejects is refused and nothing
     * is written; otherwise the cleaned prompt is appended with a fresh id,
     * replaces the first prompt with its id, or is appended under its own id.
     */
    method SavePrompt(p: Option<Prompt>, now: Millis, stamp: string) returns (r: Result<Prompt>)
      modifies this`prompts
      ensures PromptIssues(p) != [] ==> r == Err(PromptValidationError) && prompts == old(prompts)
      ensures PromptIssues(p) == [] ==>
        r == Ok(SavedPrompt(old(prompts), p.value, now, stamp))
        && prompts == PromptsAfterSave(old(prompts), p.value, now, stamp)
    {
      if PromptIssues(p) != [] {
        return Err(PromptValidationError);
      }
      var q := p.value;
      var saved := q.(title := Clean(q.title), content := Clean(q.content));
      var list := ValidPrompts(prompts);
      if !Truthy(saved.id) {
        saved := saved.(id := Str("prompt_" + stamp), created := now, updated := now);
        list := list + [saved];
      } else {
        var index := IndexOfKey(list, PromptKey, saved.id);
        if index.Some? {
          var i := index.value;
          saved := saved.(created := if list[i].created != 0 then list[i].created else now, updated := now);
          list := list[i := saved];
        } else {
          saved := saved.(created := now, updated := now);
          list := list + [saved];
        }
      }
      prompts := list;
      r := Ok(saved);
    }

    /**
     * Storage.saveChain: validated like a prompt, and refused with
     * INVALID_CHAIN_STEPS unless every step is the id of a valid stored prompt.
     */
    method SaveChain(c: Option<Chain>, now: Millis, stamp: string) returns (r: Result<Chain>)
      modifies this`chains
      ensures !ChainValid(c) ==> r == Err(ChainValidationError) && chains == old(chains)
      ensures ChainValid(c) && !StepsKnown(c.value.steps, prompts) ==>
        r == Err(InvalidChainSteps) && chains == old(chains)
      ensures ChainSavable(c, prompts) ==>
        r == Ok(SavedChain(old(chains), c.value, now, stamp))
        && chains == ChainsAfterSave(old(chains), c.value, now, stamp)
    {
      if ChainIssues(c) != [] {
        return Err(ChainValidationError);
      }
      var ch := c.value;
      var ids := PromptIds(ValidPrompts(prompts));
      if exists i :: 0 <= i < |ch.steps.items| && ch.steps.items[i] !in ids {
        return Err(InvalidChainSteps);
      }
      var saved := ch.(title := Clean(ch.title));
      var list := ValidChains(chains);
      if !Truthy(saved.id) {
        saved := saved.(id := Str("chain_" + stamp), created := now, updated := now);
        list := list + [saved];
      } else {
        var index := IndexOfKey(list, ChainKey, saved.id);
        if index.Some? {
          var i := index.value;
          saved := saved.(created := if list[i].created != 0 then list[i].created else now, updated := now);
          list := list[i := saved];
        } else {
          saved := saved.(created := now, updated := now);
          list := list + [saved];
        }
      }
      chains := list;
      r := Ok(saved);
    }

    /**
     * Storage.deletePrompt: removes every valid prompt with the id and strips
     * the id from the steps of every valid chain. A delete that would remove
     * nothing is refused with PROMPT_NOT_FOUND.
     */
    method DeletePrompt(id: Field) returns (r: Result<bool>)
      modifies this`prompts, this`chains
      ensures !IsText(id) ==> r == Err(InvalidPromptId) && prompts == old(prompts) && chains == old(chains)
      ensures IsText(id) && !HasPrompt(ValidPrompts(old(prompts)), id) ==>
        r == Err(PromptNotFound) && prompts == old(prompts) && chains == old(chains)
      ensures IsText(id) && HasPrompt(ValidPrompts(old(prompts)), id) ==>
        r == Ok(true)
        && prompts == Filter(ValidPrompts(old(prompts)), IdIsNot(id))
        && |chains| == |ValidChains(old(chains))|
        && forall i :: 0 <= i < |chains| ==> chains[i] == StripStep(ValidChains(old(chains))[i], id)
    {
      if !IsText(id) {
        return Err(InvalidPromptId);
      }
      var list := ValidPrompts(prompts);
      var newPrompts := Filter(list, IdIsNot(id));
      FilterLengthSame(list, IdIsNot(id));
      if |newPrompts| == |list| {
        return Err(PromptNotFound);
      }
      var updated := StripFromChains(ValidChains(chains), id);
      prompts := newPrompts;
      chains := updated;
      r := Ok(true);
    }

    /** The `chains.map` of deletePrompt: each chain's steps lose every occurrence of the id. */
    static method StripFromChains(valid: seq<Chain>, id: Field) returns (updated: seq<Chain>)
      ensures |updated| == |valid|
      ensures forall k :: 0 <= k < |valid| ==> updated[k] == StripStep(valid[k], id)
    {
      updated := [];
      var i := 0;
      while i < |valid|
        invariant 0 <= i <= |valid|
        invariant |updated| == i
        invariant forall k :: 0 <= k < i ==> updated[k] == StripStep(valid[k], id)
      {
        updated := updated + [StripStep(valid[i], id)];
        i := i + 1;
      }
    }

    /** Storage.deleteChain: removes every valid chain with the id; prompts are untouched. */
    method DeleteChain(id: Field) returns (r: Result<bool>)
      modifies this`chains
      ensures !IsText(id) ==> r == Err(InvalidChainId) && chains == old(chains)
      ensures IsText(id) && !HasChain(ValidChains(old(chains)), id) ==>
        r == Err(ChainNotFound) && chains == old(chains)
      ensures IsText(id) && HasChain(ValidChains(old(chains)), id) ==>
        r == Ok(true) && chains == Filter(ValidChains(old(chains)), ChainIdIsNot(id))
    {
      if !IsText(id) {
        return Err(InvalidChainId);
      }
      var list := ValidChains(chains);
      var newChains := Filter(list, ChainIdIsNot(id));
      FilterLengthSame(list, ChainIdIsNot(id));
      if |newChains| == |list| {
        return Err(ChainNotFound);
      }
      chains := newChains;
      r := Ok(true);
    }

    /** `selectors.map(...)` cleaning pattern and CSS selector of every (validated) selector. */
    static method CleanSelectors(items: seq<Option<Selector>>) returns (cleaned: seq<Selector>)
      requires forall k :: 0 <= k < |items| ==> items[k].Some?
      ensures |cleaned| == |items|
      ensures forall k :: 0 <= k < |items| ==> cleaned[k] == CleanSelector(items[k].value)
    {
      cleaned := [];
      var i := 0;
      while i < |items|
        invariant 0 <= i <= |items|
        invariant |cleaned| == i
        invariant forall k :: 0 <= k < i ==> cleaned[k] == CleanSelector(items[k].value)
      {
        cleaned := cleaned + [CleanSelector(items[i].value)];
        i := i + 1;
      }
    }

    /**
     * Storage.saveDomainSelectors: all-or-nothing. A non-array is refused, the
     * first selector the Validator rejects refuses the whole array, and
     * otherwise the cleaned selectors replace the stored list.
     */
    method SaveDomainSelectors(input: Arr<Option<Selector>>) returns (r: Result<bool>)
      modifies this`domainSelectors
      ensures input.NotArray? ==> r == Err(InvalidSelectors) && domainSelectors == old(domainSelectors)
      ensures input.JsArray? && !AllSelectorsValid(input.items, cssParses) ==>
        r == Err(SelectorValidationError) && domainSelectors == old(domainSelectors)
      ensures input.JsArray? && AllSelectorsValid(input.items, cssParses) ==>
        r == Ok(true) && |domainSelectors| == |input.items|
        && forall i :: 0 <= i < |input.items| ==> input.items[i].Some? && domainSelectors[i] == CleanSelector(input.items[i].value)
    {
      if input.NotArray? {
        return Err(InvalidSelectors);
      }
      var allValid := CheckSelectors(input.items, cssParses);
      if !allValid {
        return Err(SelectorValidationError);
      }
      var cleaned := CleanSelectors(input.items);
      domainSelectors := cleaned;
      r := Ok(true);
    }

    /** Element i of the prompt import: savePrompt, and whether it succeeded. */
    method ImportPrompt(ps: seq<Option<Prompt>>, i: nat, now: Millis, stamps: nat -> string, ghost start: seq<Prompt>)
      returns (ok: bool)
      requires i < |ps|
      requires prompts == PromptsAfterImport(start, ps[..i], now, stamps)
      modifies this`prompts
      ensures ok <==> PromptValid(ps[i])
      ensures prompts == PromptsAfterImport(start, ps[..i + 1], now, stamps)
    {
      FoldIndexedStep(start, ps, i, PromptStep(now, stamps), 0);
      ok := SavePromptAt(ps[i], now, stamps, i);
    }

    /** savePrompt with the stamp of position k, as one step of the import fold. */
    method SavePromptAt(p: Option<Prompt>, now: Millis, stamps: nat -> string, k: nat) returns (ok: bool)
      modifies this`prompts
      ensures ok <==> PromptValid(p)
      ensures prompts == PromptStep(now, stamps)(old(prompts), p, k)
    {
      var res := SavePrompt(p, now, stamps(k));
      ok := res.Ok?;
    }

    /** Element j of the chain import: saveChain, and whether it succeeded. */
    method ImportChain(cs: seq<Option<Chain>>, j: nat, now: Millis, stamps: nat -> string, offset: nat, ghost start: seq<Chain>)
      returns (ok: bool)
      requires j < |cs|
      requires chains == ChainsAfterImport(start, prompts, cs[..j], now, stamps, offset)
      modifies this`chains
      ensures ok <==> ChainSavable(cs[j], prompts)
      ensures chains == ChainsAfterImport(start, prompts, cs[..j + 1], now, stamps, offset)
    {
      FoldIndexedStep(start, cs, j, ChainStep(prompts, now, stamps), offset);
      ok := SaveChainAt(cs[j], now, stamps, offset + j);
    }

    /** saveChain with the stamp of position k, as one step of the import fold. */
    method SaveChainAt(c: Option<Chain>, now: Millis, stamps: nat -> string, k: nat) returns (ok: bool)
      modifies this`chains
      ensures ok <==> ChainSavable(c, prompts)
      ensures chains == ChainStep(prompts, now, stamps)(old(chains), c, k)
    {
      var res := SaveChain(c, now, stamps(k));
      ok := res.Ok?;
    }

    /** The import loop over the prompts: one savePrompt per element, counted as imported or skipped. */
    method ImportPrompts(ps: seq<Option<Prompt>>, now: Millis, stamps: nat -> string) returns (tally: Tally)
      modifies this`prompts
      ensures tally.imported + tally.skipped == |ps|
      ensures tally.imported == Count(ps, PromptValid)
      ensures prompts == PromptsAfterImport(old(prompts), ps, now, stamps)
    {
      tally := Tally(0, 0);
      var i := 0;
      while i < |ps|
        invariant 0 <= i <= |ps|
        invariant tally.imported + tally.skipped == i
        invariant tally.imported == Count(ps[..i], PromptValid)
        invariant prompts == PromptsAfterImport(old(prompts), ps[..i], now, stamps)
      {
        CountStep(ps, i, PromptValid);
        var ok := ImportPrompt(ps, i, now, stamps, old(prompts));
        tally := if ok then tally.(imported := tally.imported + 1) else tally.(skipped := tally.skipped + 1);
        i := i + 1;
      }
      assert ps[..|ps|] == ps;
    }

    /** The import loop over the chains; chain j gets the stamp `stamps(offset + j)`. */
    method ImportChains(cs: seq<Option<Chain>>, now: Millis, stamps: nat -> string, offset: nat) returns (tally: Tally)
      modifies this`chains
      ensures tally.imported + tally.skipped == |cs|
      ensures tally.imported == Count(cs, ChainSavableOn(prompts))
      ensures chains == ChainsAfterImport(old(chains), prompts, cs, now, stamps, offset)
    {
      tally := Tally(0, 0);
      var j := 0;
      while j < |cs|
        invariant 0 <= j <= |cs|
        invariant tally.imported + tally.skipped == j
        invariant tally.imported == Count(cs[..j], ChainSavableOn(prompts))
        invariant chains == ChainsAfterImport(old(chains), prompts, cs[..j], now, stamps, offset)
      {
        CountStep(cs, j, ChainSavableOn(prompts));
        var ok := ImportChain(cs, j, now, stamps, offset, old(chains));
        tally := if ok then tally.(imported := tally.imported + 1) else tally.(skipped := tally.skipped + 1);
        j := j + 1;
      }
      assert cs[..|cs|] == cs;
    }

    /**
     * Storage.importData: every prompt, then every chain, goes through the
     * corresponding save, and each one counts as imported or skipped; the
     * selectors are saved as one array, all or nothing.
     */
    method ImportData(data: Option<Bundle>, now: Millis, stamps: nat -> string) returns (r: Result<ImportReport>)
      modifies this`prompts, this`chains, this`domainSelectors
      ensures data.None? ==> (r == Err(InvalidImportData)
        && prompts == old(prompts) && chains == old(chains) && domainSelectors == old(domainSelectors))
      ensures data.Some? ==> r.Ok?
      ensures data.Some? ==>
        var b := data.value;
        var ps := ItemsOf(b.prompts);
        var cs := ItemsOf(b.chains);
        && r.value.prompts.imported + r.value.prompts.skipped == |ps|
        && r.value.prompts.imported == Count(ps, PromptValid)
        && prompts == PromptsAfterImport(old(prompts), ps, now, stamps)
        && r.value.chains.imported + r.value.chains.skipped == |cs|
        && r.value.chains.imported == Count(cs, ChainSavableOn(prompts))
        && chains == ChainsAfterImport(old(chains), prompts, cs, now, stamps, |ps|)
        && (b.domainSelectors.JsArray? && AllSelectorsValid(b.domainSelectors.items, cssParses) ==>
              r.value.domainSelectors == Tally(|b.domainSelectors.items|, 0)
              && |domainSelectors| == |b.domainSelectors.items|
              && forall i :: 0 <= i < |b.domainSelectors.items| ==>
                   b.domainSelectors.items[i].Some? && domainSelectors[i] == CleanSelector(b.domainSelectors.items[i].value))
        && (b.domainSelectors.JsArray? && !AllSelectorsValid(b.domainSelectors.items, cssParses) ==>
              r.value.domainSelectors == Tally(0, |b.domainSelectors.items|)
              && domainSelectors == old(domainSelectors))
        && (b.domainSelectors.NotArray? ==>
              r.value.domainSelectors == Tally(0, 0) && domainSelectors == old(domainSelectors))
    {
      if data.None? {
        return Err(InvalidImportData);
      }
      var b := data.value;
      var ps := ItemsOf(b.prompts);
      var promptTally := ImportPrompts(ps, now, stamps);
      var cs := ItemsOf(b.chains);
      var chainTally := ImportChains(cs, now, stamps, |ps|);

      var selectorTally := Tally(0, 0);
      if b.domainSelectors.JsArray? {
        var res := SaveDomainSelectors(b.domainSelectors);
        if res.Ok? {
          selectorTally := Tally(|b.domainSelectors.items|, 0);
        } else {
          selectorTally := Tally(0, |b.domainSelectors.items|);
        }
      }
      r := Ok(ImportReport(promptTally, chainTally, selectorTally));
    }
  }

  /** validatePrompt finds nothing wrong with the imported element. */
  predicate PromptValid(p: Option<Prompt>)
  {
    PromptIssues(p) == []
  }
}

// Properties of the store, stated on the functions that describe its writes.
module StorageFacts {
  import opened Seqs
  import opened Text
  import opened Records
  import opened Validator
  import opened Storage

  /**
   * What savePrompt stores for a prompt the Validator accepts: the cleaned
   * record goes into the list of valid prompts, appended with a fresh id when
   * it has none, replacing the first prompt with its id (keeping that
   * prompt's creation time) when there is one, appended otherwise; every
   * prompt with another id stays where it was.
   */
  lemma SavePromptEffect(stored: seq<Prompt>, p: Prompt, now: Millis, stamp: string)
    requires PromptIssues(Some(p)) == []
    ensures var saved := SavedPrompt(stored, p, now, stamp);
      && saved in PromptsAfterSave(stored, p, now, stamp)
      && saved.title == Clean(p.title) && saved.content == Clean(p.content)
      && saved.updated == now
      && (!Truthy(p.id) ==> (saved.id == Str("prompt_" + stamp) && saved.created == now
            && PromptsAfterSave(stored, p, now, stamp) == ValidPrompts(stored) + [saved]))
      && (Truthy(p.id) ==> saved.id == p.id)
      && (Truthy(p.id) && !HasPrompt(ValidPrompts(stored), p.id) ==>
            (saved.created == now && PromptsAfterSave(stored, p, now, stamp) == ValidPrompts(stored) + [saved]))
  {
  }

  /** Replacing an existing prompt keeps its index and its creation time (unless that was unset). */
  lemma SavePromptReplacesFirst(stored: seq<Prompt>, p: Prompt, now: Millis, stamp: string, i: nat)
    requires PromptIssues(Some(p)) == [] && Truthy(p.id)
    requires i < |ValidPrompts(stored)| && ValidPrompts(stored)[i].id == p.id
    requires forall j :: 0 <= j < i ==> ValidPrompts(stored)[j].id != p.id
    ensures var list := ValidPrompts(stored);
      var saved := SavedPrompt(stored, p, now, stamp);
      && PromptsAfterSave(stored, p, now, stamp) == list[i := saved]
      && saved.created == (if list[i].created != 0 then list[i].created else now)
  {
    var list := ValidPrompts(stored);
    var saved := SavedPrompt(stored, p, now, stamp);
    var found := IndexOfKey(list, PromptKey, p.id);
    assert found == Some(i) by {
      if found.value < i {
      } else if found.value > i {
      }
    }
    UpsertReplacesFirst(list, saved, PromptKey, i);
  }

  /** Cleaning leaves no angle bracket and never lengthens the trimmed text. */
  lemma CleanProperties(f: Field)
    ensures Clean(f).Str?
    ensures forall i :: 0 <= i < |Clean(f).s| ==> NotAngle(Clean(f).s[i])
    ensures |Clean(f).s| <= |Trim(StrOf(f))|
    ensures (forall i :: 0 <= i < |Trim(StrOf(f))| ==> NotAngle(Trim(StrOf(f))[i])) ==> Clean(f) == Str(Trim(StrOf(f)))
  {
    SanitizeTextProperties(Trim(StrOf(f)));
  }

  /** When the cleaned record passes validation, every prompt savePrompt writes back is valid. */
  lemma SavedPromptsValid(stored: seq<Prompt>, p: Prompt, now: Millis, stamp: string)
    requires PromptAccepted(SavedPrompt(stored, p, now, stamp))
    ensures ValidPrompts(PromptsAfterSave(stored, p, now, stamp)) == PromptsAfterSave(stored, p, now, stamp)
  {
    var after := PromptsAfterSave(stored, p, now, stamp);
    FilterKeepsAll(ValidPrompts(stored), PromptAccepted);
    assert forall x :: x in after ==> PromptAccepted(x);
    FilterKeepsAll(after, PromptAccepted);
  }

  /**
   * A saved prompt that still passes validation after cleaning can be read
   * back by its id, provided a generated id is fresh.
   */
  lemma SaveThenGetPrompt(stored: seq<Prompt>, p: Prompt, now: Millis, stamp: string)
    requires PromptIssues(Some(p)) == []
    requires PromptAccepted(SavedPrompt(stored, p, now, stamp))
    requires IsText(SavedPrompt(stored, p, now, stamp).id)
    requires !Truthy(p.id) ==> !HasPrompt(ValidPrompts(stored), Str("prompt_" + stamp))
    ensures PromptById(PromptsAfterSave(stored, p, now, stamp), SavedPrompt(stored, p, now, stamp).id)
            == Ok(Some(SavedPrompt(stored, p, now, stamp)))
  {
    var list := ValidPrompts(stored);
    var saved := SavedPrompt(stored, p, now, stamp);
    SavedPromptsValid(stored, p, now, stamp);
    if !Truthy(p.id) || IndexOfKey(list, PromptKey, p.id).None? {
      FindAfterPush(list, saved, PromptKey);
    } else {
      var i := IndexOfKey(list, PromptKey, p.id).value;
      FindAfterReplace(list, i, saved, PromptKey);
    }
  }

  /**
   * Sanitising after validating: a prompt titled "<>" passes validation and
   * the save reports success, but the stored title is empty, so the next
   * getPrompts drops the record and the readable list is what it was.
   */
  lemma AngleTitleVanishes(stored: seq<Prompt>, now: Millis, stamp: string)
    ensures var p := Prompt(Absent, Str("<>"), Str("x"), 0, 0);
      && PromptIssues(Some(p)) == []
      && !PromptAccepted(SavedPrompt(stored, p, now, stamp))
      && ValidPrompts(PromptsAfterSave(stored, p, now, stamp)) == ValidPrompts(stored)
  {
    var p := Prompt(Absent, Str("<>"), Str("x"), 0, 0);
    assert TrimStart("<>") == "<>";
    assert TrimEnd("<>") == "<>";
    assert TrimStart("x") == "x";
    assert TrimEnd("x") == "x";
    assert PromptAccepted(p);
    assert Filter("<>", NotAngle) == "";
    var saved := SavedPrompt(stored, p, now, stamp);
    assert saved.title == Str("");
    var list := ValidPrompts(stored);
    FilterAppend(list, [saved], PromptAccepted);
    FilterKeepsAll(list, PromptAccepted);
  }

  /** saveChain stores its steps as given, and only steps that name a valid prompt. */
  lemma SavedChainSteps(stored: seq<Chain>, prompts: seq<Prompt>, c: Chain, now: Millis, stamp: string)
    requires ChainSavable(Some(c), prompts)
    ensures SavedChain(stored, c, now, stamp).steps == c.steps
    ensures forall i :: 0 <= i < |c.steps.items| ==> HasPrompt(ValidPrompts(prompts), c.steps.items[i])
    ensures SavedChain(stored, c, now, stamp) in ChainsAfterSave(stored, c, now, stamp)
  {
    var ids := PromptIds(ValidPrompts(prompts));
    forall i | 0 <= i < |c.steps.items| ensures HasPrompt(ValidPrompts(prompts), c.steps.items[i]) {
      var k :| 0 <= k < |ids| && ids[k] == c.steps.items[i];
      assert ValidPrompts(prompts)[k].id == c.steps.items[i];
    }
  }

  /**
   * The cascade of deletePrompt: no remaining prompt has the id, the
   * remaining prompts all stay readable, every chain loses exactly the
   * occurrences of the id and keeps its other steps as often as before.
   */
  lemma DeletePromptCascade(stored: seq<Prompt>, chains: seq<Chain>, id: Field)
    ensures var left := Filter(ValidPrompts(stored), IdIsNot(id));
      && (forall i :: 0 <= i < |left| ==> left[i].id != id)
      && ValidPrompts(left) == left
    ensures forall k :: 0 <= k < |ValidChains(chains)| ==>
      var before := ValidChains(chains)[k].steps.items;
      var after := StripStep(ValidChains(chains)[k], id).steps.items;
      (forall i :: 0 <= i < |after| ==> after[i] != id)
      && forall x :: x != id ==> multiset(after)[x] == multiset(before)[x]
  {
    var left := Filter(ValidPrompts(stored), IdIsNot(id));
    FilterKeepsAll(ValidPrompts(stored), PromptAccepted);
    FilterKeepsAll(left, PromptAccepted);
    forall k | 0 <= k < |ValidChains(chains)|
      ensures var before := ValidChains(chains)[k].steps.items;
        var after := StripStep(ValidChains(chains)[k], id).steps.items;
        forall x :: x != id ==> multiset(after)[x] == multiset(before)[x]
    {
      var c := ValidChains(chains)[k];
      assert ChainAccepted(c);
      forall x | x != id ensures multiset(StripStep(c, id).steps.items)[x] == multiset(c.steps.items)[x] {
        FilterMultiset(c.steps.items, StepIsNot(id), x);
      }
    }
  }

  /**
   * A chain emptied by deletePrompt disappears: a valid chain stays valid
   * after the id is stripped from its steps exactly when some step was a
   * different id, so a chain made only of the deleted prompt is dropped by
   * the next getChains.
   */
  lemma {:induction false} EmptiedChainDropped(c: Chain, id: Field)
    requires ChainAccepted(c)
    ensures ChainAccepted(StripStep(c, id)) <==> exists i :: 0 <= i < |c.steps.items| && c.steps.items[i] != id
  {
    var items := c.steps.items;
    var kept := Filter(items, StepIsNot(id));
    FilterEmpty(items, StepIsNot(id));
    assert StripStep(c, id).steps.items == kept;
    assert forall i :: 0 <= i < |kept| ==> kept[i] in items;
    if exists i :: 0 <= i < |items| && items[i] != id {
      var i :| 0 <= i < |items| && items[i] != id;
      assert items[i] in kept;
    }
  }

  lemma LowerCharSpace(c: char)
    ensures IsSpace(LowerChar(c)) <==> IsSpace(c)
    ensures LowerChar(LowerChar(c)) == LowerChar(c)
  {
  }

  /** The search ignores the case of the query: searching for its lower-case form gives the same answer. */
  lemma SearchIgnoresQueryCase(ps: seq<Prompt>, cs: seq<Chain>, q: string)
    ensures SearchPrompts(ps, Str(ToLower(q))) == SearchPrompts(ps, Str(q))
    ensures SearchChains(cs, Str(ToLower(q))) == SearchChains(cs, Str(q))
  {
    var l := ToLower(q);
    forall i | 0 <= i < |q| ensures IsSpace(l[i]) <==> IsSpace(q[i]) && LowerChar(l[i]) == l[i] {
      LowerCharSpace(q[i]);
    }
    assert ToLower(l) == l;
    TrimEmptyIffBlank(q);
    TrimEmptyIffBlank(l);
  }

  /** saveDomainSelectors removes '>' from a selector, turning the child combinator into a descendant one. */
  lemma CleaningDropsChildCombinator()
    ensures Clean(Str("a > b")) == Str("a  b")
  {
    ChildCombinatorHasNoOuterSpace();
    ChildCombinatorSanitized();
  }

  lemma ChildCombinatorSanitized()
    ensures SanitizeText(Str("a > b")) == "a  b"
  {
    var x, y := "a ", " b";
    assert x + ">" + y == "a > b";
    SanitizeDropsAngle(x, y);
    assert x + y == "a  b";
  }

  lemma ChildCombinatorHasNoOuterSpace()
    ensures Trim("a > b") == "a > b"
  {
    assert TrimStart("a > b") == "a > b";
    assert TrimEnd("a > b") == "a > b";
  }

  /** Sanitising a text with one angle bracket between two bracket-free parts removes just that bracket. */
  lemma SanitizeDropsAngle(x: string, y: string)
    requires forall i :: 0 <= i < |x| ==> NotAngle(x[i])
    requires forall i :: 0 <= i < |y| ==> NotAngle(y[i])
    ensures SanitizeText(Str(x + ">" + y)) == x + y
  {
    FilterAppend(x + ">", y, NotAngle);
    FilterAppend(x, ">", NotAngle);
    FilterKeepsAll(x, NotAngle);
    FilterKeepsAll(y, NotAngle);
    FilterEmpty(">", NotAngle);
    assert Filter(">", NotAngle) == [];
    assert Filter(x + ">", NotAngle) == x;
    assert Filter(x + ">" + y, NotAngle) == x + y;
    assert Str(x + ">" + y).s == x + ">" + y;
  }
}
