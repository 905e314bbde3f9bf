// The original store (storage.js): the same arrays in chrome.storage.local,
// written without any validation or sanitising. Records the code cannot
// handle (steps that are not an array, a title that is not a string) make it
// throw a TypeError.

module LegacyStorage {
  import opened Seqs
  import opened Text
  import opened Records

  /** The record savePrompt stores and returns: the argument, given an id and a creation time when it has no id. */
  function LegacySavedPrompt(p: Prompt, now: Millis, stamp: string): Prompt
  {
    if !Truthy(p.id) then p.(id := Str("prompt_" + stamp), created := now) else p
  }

  function LegacyPromptsAfterSave(stored: seq<Prompt>, p: Prompt, now: Millis, stamp: string): seq<Prompt>
  {
    var saved := LegacySavedPrompt(p, now, stamp);
    if !Truthy(p.id) then stored + [saved] else Upsert(stored, saved, PromptKey)
  }

  function LegacySavedChain(c: Chain, now: Millis, stamp: string): Chain
  {
    if !Truthy(c.id) then c.(id := Str("chain_" + stamp), created := now) else c
  }

  function LegacyChainsAfterSave(stored: seq<Chain>, c: Chain, now: Millis, stamp: string): seq<Chain>
  {
    var saved := LegacySavedChain(c, now, stamp);
    if !Truthy(c.id) then stored + [saved] else Upsert(stored, saved, ChainKey)
  }

  /** Storage.getPromptById: the first stored prompt with that id (compared with ===), or null. */
  function LegacyPromptById(stored: seq<Prompt>, id: Field): (r: Option<Prompt>)
    ensures r.Some? ==> r.value in stored && r.value.id == id
    ensures r.None? <==> forall i :: 0 <= i < |stored| ==> stored[i].id != id
  {
    FindByKey(stored, PromptKey, id)
  }

  /** Storage.getChainById. */
  function LegacyChainById(stored: seq<Chain>, id: Field): (r: Option<Chain>)
    ensures r.Some? ==> r.value in stored && r.value.id == id
    ensures r.None? <==> forall i :: 0 <= i < |stored| ==> stored[i].id != id
  {
    FindByKey(stored, ChainKey, id)
  }

  function PromptIdIsNot(id: Field): Prompt -> bool
  {
    (p: Prompt) => p.id != id
  }

  function ChainIdIsNot(id: Field): Chain -> bool
  {
    (c: Chain) => c.id != id
  }

  function StepIsNot(id: Field): Field -> bool
  {
    (s: Field) => s != id
  }

  /** The stored records a search can read without throwing: title and content are strings. */
  predicate WellFormedPrompt(p: Prompt)
  {
    p.title.Str? && p.content.Str?
  }

  function LegacyPromptMatches(term: string): Prompt -> bool
  {
    (p: Prompt) => Contains(ToLower(StrOf(p.title)), term) || Contains(ToLower(StrOf(p.content)), term)
  }

  /**
   * `prompts.filter(p => p.title.toLowerCase().includes(q) || p.content.toLowerCase().includes(q))`
   * over stored records: a title that is not a string throws, and so does a
   * content that is not a string when the title did not already match.
   */
  function FilterPromptsByTerm(stored: seq<Prompt>, term: string): (r: Result<seq<Prompt>>)
    ensures r.Err? ==> r.error == TypeError
    ensures r.Ok? ==> Sublist(r.value, stored)
    ensures r.Ok? ==> forall i :: 0 <= i < |r.value| ==> LegacyPromptMatches(term)(r.value[i])
  {
    if stored == [] then Ok([])
    else
      var p := stored[0];
      if !p.title.Str? then Err(TypeError)
      else
        var keep := Contains(ToLower(p.title.s), term);
        if !keep && !p.content.Str? then Err(TypeError)
        else
          var keep := keep || Contains(ToLower(p.content.s), term);
          match FilterPromptsByTerm(stored[1..], term)
          case Err(e) => Err(e)
          case Ok(rest) => Ok(if keep then [p] + rest else rest)
  }

  /** Storage.searchPrompts: everything for a falsy query, otherwise a lower-case substring filter, untrimmed. */
  function LegacySearchPrompts(stored: seq<Prompt>, q: Field): (r: Result<seq<Prompt>>)
    ensures !Truthy(q) ==> r == Ok(stored)
    ensures Truthy(q) && !q.Str? ==> r == Err(TypeError)
    ensures r.Ok? ==> Sublist(r.value, stored)
    ensures q.Str? && r.Ok? ==> forall i :: 0 <= i < |r.value| ==> LegacyPromptMatches(ToLower(q.s))(r.value[i])
  {
    SublistRefl(stored);
    if !Truthy(q) then Ok(stored)
    else if !q.Str? then Err(TypeError)
    else FilterPromptsByTerm(stored, ToLower(q.s))
  }

  function LegacyChainMatches(term: string): Chain -> bool
  {
    (c: Chain) => Contains(ToLower(StrOf(c.title)), term)
  }

  function FilterChainsByTerm(stored: seq<Chain>, term: string): (r: Result<seq<Chain>>)
    ensures r.Err? ==> r.error == TypeError
    ensures r.Ok? ==> Sublist(r.value, stored)
    ensures r.Ok? ==> forall i :: 0 <= i < |r.value| ==> LegacyChainMatches(term)(r.value[i])
  {
    if stored == [] then Ok([])
    else
      var c := stored[0];
      if !c.title.Str? then Err(TypeError)
      else
        match FilterChainsByTerm(stored[1..], term)
        case Err(e) => Err(e)
        case Ok(rest) => Ok(if Contains(ToLower(c.title.s), term) then [c] + rest else rest)
  }

  /** Storage.searchChains: as searchPrompts, on chain titles only. */
  function LegacySearchChains(stored: seq<Chain>, q: Field): (r: Result<seq<Chain>>)
    ensures !Truthy(q) ==> r == Ok(stored)
    ensures Truthy(q) && !q.Str? ==> r == Err(TypeError)
    ensures r.Ok? ==> Sublist(r.value, stored)
    ensures q.Str? && r.Ok? ==> forall i :: 0 <= i < |r.value| ==> LegacyChainMatches(ToLower(q.s))(r.value[i])
  {
    SublistRefl(stored);
    if !Truthy(q) then Ok(stored)
    else if !q.Str? then Err(TypeError)
    else FilterChainsByTerm(stored, ToLower(q.s))
  }

  /** `chain.steps = chain.steps.filter(stepId => stepId !== id)` for a chain whose steps are an array. */
  function LegacyStripStep(c: Chain, id: Field): (r: Chain)
    requires c.steps.JsArray?
    ensures r.id == c.id && r.title == c.title && r.steps.JsArray?
    ensures forall i :: 0 <= i < |r.steps.items| ==> r.steps.items[i] != id
    ensures Sublist(r.steps.items, c.steps.items)
  {
    FilterSublist(c.steps.items, StepIsNot(id));
    c.(steps := JsArray(Filter(c.steps.items, StepIsNot(id))))
  }

  predicate AllStepsArrays(chains: seq<Chain>)
  {
    forall i :: 0 <= i < |chains| ==> chains[i].steps.JsArray?
  }

  class LegacyStore {
    var prompts: seq<Prompt>
    var chains: seq<Chain>

    constructor()
      ensures prompts == [] && chains == []
    {
      prompts := [];
      chains := [];
    }

    /**
     * Storage.savePrompt, without validation: a prompt without an id gets
     * `'prompt_' + Date.now()` and is appended; otherwise it replaces the
     * first prompt with its id, or is appended when there is none.
     */
    method SavePrompt(p: Prompt, now: Millis, stamp: string) returns (saved: Prompt)
      modifies this`prompts
      ensures saved == LegacySavedPrompt(p, now, stamp)
      ensures prompts == LegacyPromptsAfterSave(old(prompts), p, now, stamp)
    {
      saved := p;
      var list := prompts;
      if !Truthy(saved.id) {
        saved := saved.(id := Str("prompt_" + stamp), created := now);
        list := list + [saved];
      } else {
        var index := IndexOfKey(list, PromptKey, saved.id);
        if index.Some? {
          list := list[index.value := saved];
        } else {
          list := list + [saved];
        }
      }
      prompts := list;
    }

    /** Storage.saveChain: the same upsert for chains, with the `chain_` prefix. */
    method SaveChain(c: Chain, now: Millis, stamp: string) returns (saved: Chain)
      modifies this`chains
      ensures saved == LegacySavedChain(c, now, stamp)
      ensures chains == LegacyChainsAfterSave(old(chains), c, now, stamp)
    {
      saved := c;
      var list := chains;
      if !Truthy(saved.id) {
        saved := saved.(id := Str("chain_" + stamp), created := now);
        list := list + [saved];
      } else {
        var index := IndexOfKey(list, ChainKey, saved.id);
        if index.Some? {
          list := list[index.value := saved];
        } else {
          list := list + [saved];
        }
      }
      chains := list;
    }

    /**
     * Storage.deletePrompt: removes every prompt with the id and strips the id
     * from every chain's steps; it reports success even when nothing matched.
     * A chain whose steps are not an array makes the `map` throw before anything is written.
     */
    method DeletePrompt(id: Field) returns (r: Result<bool>)
      modifies this`prompts, this`chains
      ensures !AllStepsArrays(old(chains)) ==> r == Err(TypeError) && prompts == old(prompts) && chains == old(chains)
      ensures AllStepsArrays(old(chains)) ==>
        r == Ok(true)
        && prompts == Filter(old(prompts), PromptIdIsNot(id))
        && |chains| == |old(chains)|
        && forall k :: 0 <= k < |chains| ==> chains[k] == LegacyStripStep(old(chains)[k], id)
    {
      var newPrompts := Filter(prompts, PromptIdIsNot(id));
      var updated: seq<Chain> := [];
      var i := 0;
      while i < |chains|
        invariant 0 <= i <= |chains|
        invariant |updated| == i
        invariant forall k :: 0 <= k < i ==> chains[k].steps.JsArray? && updated[k] == LegacyStripStep(chains[k], id)
      {
        if chains[i].steps.NotArray? {
          return Err(TypeError);
        }
        updated := updated + [LegacyStripStep(chains[i], id)];
        i := i + 1;
      }
      prompts := newPrompts;
      chains := updated;
      r := Ok(true);
    }

    /** Storage.deleteChain: removes every chain with the id and always reports success. */
    method DeleteChain(id: Field) returns (r: bool)
      modifies this`chains
      ensures r
      ensures chains == Filter(old(chains), ChainIdIsNot(id))
    {
      chains := Filter(chains, ChainIdIsNot(id));
      r := true;
    }
  }
}

// Properties of the original store.
module LegacyStorageFacts {
  import opened Seqs
  import opened Text
  import opened Records
  import opened LegacyStorage
  import Storage
  import Validator

  /**
   * The upsert of savePrompt: the saved record is in the list, records with
   * another id keep their place, and the list grows by one exactly when the
   * id was missing or unknown.
   */
  lemma LegacySaveUpsert(stored: seq<Prompt>, p: Prompt, now: Millis, stamp: string)
    ensures var after := LegacyPromptsAfterSave(stored, p, now, stamp);
      var saved := LegacySavedPrompt(p, now, stamp);
      && saved in after
      && (forall i :: 0 <= i < |stored| && stored[i].id != saved.id ==> after[i] == stored[i])
      && (Truthy(p.id) && (exists i :: 0 <= i < |stored| && stored[i].id == p.id) ==> |after| == |stored|)
      && (!Truthy(p.id) || (forall i :: 0 <= i < |stored| ==> stored[i].id != p.id) ==> after == stored + [saved])
  {
    var saved := LegacySavedPrompt(p, now, stamp);
    if !Truthy(p.id) {
      assert forall i :: 0 <= i < |stored| ==> (stored + [saved])[i] == stored[i];
    }
  }

  /** A saved prompt is found again by its id, provided a generated id is fresh. */
  lemma LegacySaveThenGet(stored: seq<Prompt>, p: Prompt, now: Millis, stamp: string)
    requires !Truthy(p.id) ==> forall i :: 0 <= i < |stored| ==> stored[i].id != Str("prompt_" + stamp)
    ensures LegacyPromptById(LegacyPromptsAfterSave(stored, p, now, stamp), LegacySavedPrompt(p, now, stamp).id)
            == Some(LegacySavedPrompt(p, now, stamp))
  {
    var saved := LegacySavedPrompt(p, now, stamp);
    var found := IndexOfKey(stored, PromptKey, saved.id);
    if found.None? {
      FindAfterPush(stored, saved, PromptKey);
    } else {
      FindAfterReplace(stored, found.value, saved, PromptKey);
    }
  }

  /** After deletePrompt no prompt carries the id and no chain step refers to it. */
  lemma LegacyDeleteLeavesNoTrace(stored: seq<Prompt>, chains: seq<Chain>, id: Field)
    requires AllStepsArrays(chains)
    ensures forall i :: 0 <= i < |Filter(stored, PromptIdIsNot(id))| ==> Filter(stored, PromptIdIsNot(id))[i].id != id
    ensures forall k :: 0 <= k < |chains| ==>
      forall x :: x != id ==> multiset(LegacyStripStep(chains[k], id).steps.items)[x] == multiset(chains[k].steps.items)[x]
  {
    forall k, x | 0 <= k < |chains| && x != id
      ensures multiset(LegacyStripStep(chains[k], id).steps.items)[x] == multiset(chains[k].steps.items)[x]
    {
      FilterMultiset(chains[k].steps.items, StepIsNot(id), x);
    }
  }

  /** On records whose title and content are strings, the search is a plain filter and never throws. */
  lemma {:induction false} LegacyFilterWellFormed(stored: seq<Prompt>, term: string)
    requires forall i :: 0 <= i < |stored| ==> WellFormedPrompt(stored[i])
    ensures FilterPromptsByTerm(stored, term) == Ok(Filter(stored, LegacyPromptMatches(term)))
  {
    if stored != [] {
      LegacyFilterWellFormed(stored[1..], term);
    }
  }

  /**
   * The original search does not trim the query: " a" finds nothing in a
   * prompt titled "a", which the hardened search finds.
   */
  lemma UntrimmedQueryMisses()
    ensures var p := Prompt(Str("p1"), Str("a"), Str("b"), 0, 0);
      && LegacySearchPrompts([p], Str(" a")) == Ok([])
      && Storage.SearchPrompts([p], Str(" a")) == Ok([p])
  {
    var p := Prompt(Str("p1"), Str("a"), Str("b"), 0, 0);
    assert ToLower(" a") == " a";
    assert ToLower("a") == "a";
    assert ToLower("b") == "b";
    assert !Contains("a", " a");
    assert !Contains("b", " a");
    assert TrimStart(" a") == "a";
    assert TrimEnd("a") == "a";
    assert TrimStart("a") == "a";
    assert TrimStart("b") == "b";
    assert TrimEnd("b") == "b";
    assert Validator.PromptAccepted(p);
    assert Storage.ValidPrompts([p]) == [p];
    assert Contains("a", "a");
  }
}
