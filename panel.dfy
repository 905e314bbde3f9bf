// The side panel: creating a chain from raw text, reordering the steps of
// the chain being built, and inserting one step of a chain into the page.

module Panel {
  import opened Seqs
  import opened Text
  import opened Records
  import opened Validator
  import opened Storage

  // ---------------------------------------------------------------------
  // Creating a chain from raw text

  /** The section delimiter of the raw format, `/\n---\n/g`. */
  const Delimiter := "\n---\n"

  /** The title and content one section yields. */
  datatype Draft = Draft(title: string, content: string)

  /**
   * One section: trimmed; an empty section, or one with nothing after its
   * first line, yields nothing; otherwise the trimmed first line is the
   * title (`<chain> - Step i` when that line is blank) and the trimmed
   * remaining lines are the content. `i` is the section's index.
   */
  function SectionDraft(section: string, chainTitle: string, i: nat): Option<Draft>
  {
    var text := Trim(section);
    if text == "" then None
    else
      var lines := Split(text, "\n");
      var first := Trim(lines[0]);
      var title := if first != "" then first else chainTitle + " - Step " + NatToString(i + 1);
      var content := Trim(Join(lines[1..], "\n"));
      if content == "" then None else Some(Draft(title, content))
  }

  function OptionSeq<T>(o: Option<T>): seq<T>
  {
    match o
    case None => []
    case Some(x) => [x]
  }

  /** The loop's step on the drafts: a section's draft, if any, is added. */
  function DraftStep(chainTitle: string): (seq<Draft>, string, nat) -> seq<Draft>
  {
    (acc: seq<Draft>, section: string, i: nat) => acc + OptionSeq(SectionDraft(section, chainTitle, i))
  }

  /** The drafts of all sections, in section order. */
  function RawDrafts(sections: seq<string>, chainTitle: string): seq<Draft>
  {
    FoldIndexed([], sections, DraftStep(chainTitle), 0)
  }

  /** The prompt object the loop passes to savePrompt: `{title, content}`, without an id. */
  function DraftPrompt(d: Draft): Prompt
  {
    Prompt(Absent, Str(d.title), Str(d.content), 0, 0)
  }

  /** The chain object passed to saveChain: `{title, steps}`, without an id. */
  function RawChain(title: string, ids: seq<Field>): Chain
  {
    Chain(Absent, Str(title), JsArray(ids), 0, 0)
  }

  /** The stored prompts and the collected ids while the sections are saved; `ok` is false once a save was refused. */
  datatype Saving = Saving(prompts: seq<Prompt>, ids: seq<Field>, ok: bool)

  /**
   * Saving one draft, with the stamp of the next save: a refused prompt
   * stops the loop with what was saved so far.
   */
  function SaveDraft(x: Saving, d: Draft, now: Millis, stamps: nat -> string): Saving
  {
    var p := DraftPrompt(d);
    if !x.ok || PromptIssues(Some(p)) != [] then x.(ok := false)
    else
      var stamp := stamps(|x.ids|);
      Saving(PromptsAfterSave(x.prompts, p, now, stamp), x.ids + [SavedPrompt(x.prompts, p, now, stamp).id], true)
  }

  /** The loop's step on the store: a section's draft, if any, is saved. */
  function SectionSave(chainTitle: string, now: Millis, stamps: nat -> string): (Saving, string, nat) -> Saving
  {
    (x: Saving, section: string, i: nat) =>
      match SectionDraft(section, chainTitle, i)
      case None => x
      case Some(d) => SaveDraft(x, d, now, stamps)
  }

  /** The loop over the sections, from the stored prompts. */
  function SaveSections(stored: seq<Prompt>, sections: seq<string>, chainTitle: string, now: Millis, stamps: nat -> string): Saving
  {
    FoldIndexed(Saving(stored, [], true), sections, SectionSave(chainTitle, now, stamps), 0)
  }

  function Refused(): Saving -> bool
  {
    (x: Saving) => !x.ok
  }

  /**
   * The raw chain form's submit handler. A blank trimmed title gives
   * MISSING_TITLE and blank content MISSING_CONTENT before anything is
   * saved. Each section that yields a draft is saved as a prompt, in order;
   * a refused prompt stops the handler, keeping the prompts saved before
   * it. No prompt at all gives NO_PROMPTS_CREATED; otherwise a chain whose
   * steps are the new prompt ids is saved, and saveChain may still refuse it
   * (the prompts stay).
   */
  method CreateRawChain(store: Store, titleInput: string, contentInput: string, now: Millis, stamps: nat -> string)
    returns (r: Result<Chain>)
    modifies store
    ensures store.domainSelectors == old(store.domainSelectors)
    ensures Trim(titleInput) == "" ==>
      r == Err(MissingTitle) && store.prompts == old(store.prompts) && store.chains == old(store.chains)
    ensures Trim(titleInput) != "" && Trim(contentInput) == "" ==>
      r == Err(MissingContent) && store.prompts == old(store.prompts) && store.chains == old(store.chains)
    ensures Trim(titleInput) != "" && Trim(contentInput) != "" ==>
      var title := Trim(titleInput);
      var s := SaveSections(old(store.prompts), Split(Trim(contentInput), Delimiter), title, now, stamps);
      var chain := RawChain(title, s.ids);
      var stamp := stamps(|s.ids|);
      && store.prompts == s.prompts
      && (!s.ok ==> r == Err(PromptValidationError) && store.chains == old(store.chains))
      && (s.ok && s.ids == [] ==> r == Err(NoPromptsCreated) && store.chains == old(store.chains))
      && (s.ok && s.ids != [] && !ChainValid(Some(chain)) ==>
            r == Err(ChainValidationError) && store.chains == old(store.chains))
      && (s.ok && s.ids != [] && ChainValid(Some(chain)) && !StepsKnown(chain.steps, s.prompts) ==>
            r == Err(InvalidChainSteps) && store.chains == old(store.chains))
      && (s.ok && s.ids != [] && ChainSavable(Some(chain), s.prompts) ==>
            r == Ok(SavedChain(old(store.chains), chain, now, stamp))
            && store.chains == ChainsAfterSave(old(store.chains), chain, now, stamp))
  {
    var chainTitle := Trim(titleInput);
    var rawContent := Trim(contentInput);
    if chainTitle == "" {
      return Err(MissingTitle);
    }
    if rawContent == "" {
      return Err(MissingContent);
    }
    // The split always yields at least one section, so INVALID_FORMAT cannot be raised.
    var promptTexts := Split(rawContent, Delimiter);
    var promptIds, ok := SaveSectionPrompts(store, promptTexts, chainTitle, now, stamps);
    if !ok {
      return Err(PromptValidationError);
    }
    if promptIds == [] {
      return Err(NoPromptsCreated);
    }
    r := store.SaveChain(Some(RawChain(chainTitle, promptIds)), now, stamps(|promptIds|));
  }

  /**
   * The loop of the submit handler: each section that yields a draft is
   * saved as a prompt and its id collected; a refused prompt ends the loop
   * (the handler then throws).
   */
  method SaveSectionPrompts(store: Store, promptTexts: seq<string>, chainTitle: string, now: Millis, stamps: nat -> string)
    returns (promptIds: seq<Field>, ok: bool)
    modifies store`prompts
    ensures Saving(store.prompts, promptIds, ok) == SaveSections(old(store.prompts), promptTexts, chainTitle, now, stamps)
  {
    ghost var start := store.prompts;
    promptIds := [];
    for i := 0 to |promptTexts|
      invariant Saving(store.prompts, promptIds, true) == SaveSections(start, promptTexts[..i], chainTitle, now, stamps)
    {
      var saved;
      promptIds, saved := SaveSection(store, promptTexts, i, promptIds, chainTitle, now, stamps, start);
      if !saved {
        RefusedStopsSaving(start, promptTexts, i + 1, chainTitle, now, stamps);
        return promptIds, false;
      }
    }
    assert promptTexts[..|promptTexts|] == promptTexts;
    ok := true;
  }

  /** After a refused save the remaining sections change nothing. */
  lemma RefusedStopsSaving(stored: seq<Prompt>, sections: seq<string>, j: nat, chainTitle: string, now: Millis, stamps: nat -> string)
    requires j <= |sections|
    requires !SaveSections(stored, sections[..j], chainTitle, now, stamps).ok
    ensures SaveSections(stored, sections, chainTitle, now, stamps) == SaveSections(stored, sections[..j], chainTitle, now, stamps)
  {
    var step := SectionSave(chainTitle, now, stamps);
    forall x, t, k | Refused()(x)
      ensures step(x, t, k) == x
    {
    }
    FoldIndexedStuck(Saving(stored, [], true), sections, j, step, 0, Refused());
  }

  /** One pass of the loop: section `i` is saved when it yields a draft. */
  method SaveSection(store: Store, sections: seq<string>, i: nat, ids: seq<Field>, chainTitle: string, now: Millis, stamps: nat -> string, ghost start: seq<Prompt>)
    returns (ids': seq<Field>, ok: bool)
    requires i < |sections|
    requires Saving(store.prompts, ids, true) == SaveSections(start, sections[..i], chainTitle, now, stamps)
    modifies store`prompts
    ensures Saving(store.prompts, ids', ok) == SaveSections(start, sections[..i + 1], chainTitle, now, stamps)
  {
    FoldIndexedStep(Saving(start, [], true), sections, i, SectionSave(chainTitle, now, stamps), 0);
    var draft := SectionDraft(sections[i], chainTitle, i);
    if draft.None? {
      return ids, true;
    }
    var id;
    id, ok := SaveDraftPrompt(store, draft.value, ids, now, stamps);
    ids' := if ok then ids + [id] else ids;
  }

  /** One savePrompt call of the loop, after `ids` were collected. */
  method SaveDraftPrompt(store: Store, d: Draft, ids: seq<Field>, now: Millis, stamps: nat -> string)
    returns (id: Field, ok: bool)
    modifies store`prompts
    ensures var x := SaveDraft(Saving(old(store.prompts), ids, true), d, now, stamps);
      store.prompts == x.prompts && ok == x.ok && (ok ==> x.ids == ids + [id])
  {
    var saved := store.SavePrompt(Some(DraftPrompt(d)), now, stamps(|ids|));
    if saved.Err? {
      return Absent, false;
    }
    return saved.value.id, true;
  }

  // ---------------------------------------------------------------------
  // Reordering the steps of the chain being built

  /** `s` without its element at `i`. */
  function Remove<T>(s: seq<T>, i: nat): (r: seq<T>)
    requires i < |s|
    ensures |r| == |s| - 1
  {
    s[..i] + s[i + 1..]
  }

  /** `s` with `x` inserted so that it sits at index `i`. */
  function InsertAt<T>(s: seq<T>, i: nat, x: T): (r: seq<T>)
    requires i <= |s|
    ensures |r| == |s| + 1
  {
    s[..i] + [x] + s[i..]
  }

  /** The element at `from` taken out and put back so that it lands at index `to`. */
  function Moved<T>(s: seq<T>, from: nat, to: nat): (r: seq<T>)
    requires from < |s| && to < |s|
    ensures |r| == |s|
  {
    InsertAt(Remove(s, from), to, s[from])
  }

  /** The chain builder's step list: the prompt id of each step element, in document order. */
  class ChainBuilder {
    var steps: seq<string>

    constructor(steps: seq<string>)
      ensures this.steps == steps
    {
      this.steps := steps;
    }

    /**
     * handleDrop on the step at `target`. `dragged` is the index of the
     * dragged step; None when no step of the list is being dragged, and then
     * `insertBefore(null, …)` throws before anything moves.
     */
    method HandleDrop(dragged: Option<nat>, target: nat)
      requires target < |steps|
      requires dragged.Some? ==> dragged.value < |steps|
      modifies this
      ensures dragged.None? ==> steps == old(steps)
      ensures dragged.Some? ==> steps == Moved(old(steps), dragged.value, target)
    {
      if dragged.None? {
        return;
      }
      var draggedIndex := dragged.value;
      if draggedIndex != target {
        var item := steps[draggedIndex];
        var rest := Remove(steps, draggedIndex);
        // Moving down, the step goes before the target's next sibling, which
        // is at `target` once the dragged step is out; moving up, before the
        // target, which the removal did not shift. Both are index `target`.
        steps := InsertAt(rest, target, item);
      } else {
        MovedInPlace(steps, target);
      }
    }
  }

  /** Dropping a step on itself leaves the list as it was. */
  lemma MovedInPlace<T>(s: seq<T>, i: nat)
    requires i < |s|
    ensures Moved(s, i, i) == s
  {
    assert Remove(s, i)[..i] == s[..i];
    assert Remove(s, i)[i..] == s[i + 1..];
  }

  // ---------------------------------------------------------------------
  // Inserting one step of a chain

  /** What a successful insertion did: the text sent to the tab, and the cursor stored. */
  datatype StepInsertion = StepInsertion(tab: nat, text: Field, cursor: ChainCursor)

  /**
   * insertChainStep: CHAIN_NOT_FOUND, then INVALID_STEP for an index past
   * the last step, then STEP_PROMPT_NOT_FOUND, then NO_ACTIVE_TAB; then the
   * step's content is sent and a falsy answer is INSERT_FAILED, a rejected
   * message its own error. The cursor `{id, currentStep: index}` is stored
   * only after a successful insert.
   */
  function StepInsert(chains: seq<Chain>, prompts: seq<Prompt>, chainId: Field, stepIndex: nat,
                      tab: Option<nat>, d: Delivery): Result<StepInsertion>
  {
    match ChainById(chains, chainId)
    case Err(e) => Err(e)
    case Ok(None) => Err(ChainNotFound)
    case Ok(Some(chain)) =>
      var steps := ItemsOf(chain.steps);
      if stepIndex >= |steps| then Err(InvalidStep)
      else
        match PromptById(prompts, steps[stepIndex])
        case Err(e) => Err(e)
        case Ok(None) => Err(StepPromptNotFound)
        case Ok(Some(prompt)) =>
          if tab.None? then Err(NoActiveTab)
          else
            match d
            case Delivered(success) =>
              if success then Ok(StepInsertion(tab.value, prompt.content, ChainCursor(chainId, stepIndex)))
              else Err(InsertFailed)
            case _ => Err(MessagingFailed)
  }

  /** The panel's insertChain: CHAIN_NOT_FOUND, EMPTY_CHAIN, then step 0 through insertChainStep. */
  function ChainStart(chains: seq<Chain>, prompts: seq<Prompt>, chainId: Field, tab: Option<nat>, d: Delivery): Result<StepInsertion>
  {
    match ChainById(chains, chainId)
    case Err(e) => Err(e)
    case Ok(None) => Err(ChainNotFound)
    case Ok(Some(chain)) =>
      if |ItemsOf(chain.steps)| == 0 then Err(EmptyChain)
      else StepInsert(chains, prompts, chainId, 0, tab, d)
  }

  /** The panel's view of the stored chain cursor. */
  class ChainPanel {
    var currentChain: Option<ChainCursor>

    constructor(currentChain: Option<ChainCursor>)
      ensures this.currentChain == currentChain
    {
      this.currentChain := currentChain;
    }

    /** insertChainStep: the cursor is written only when the step was inserted. */
    method InsertChainStep(store: Store, chainId: Field, stepIndex: nat, tab: Option<nat>, d: Delivery)
      returns (r: Result<StepInsertion>)
      modifies this
      ensures r == StepInsert(store.chains, store.prompts, chainId, stepIndex, tab, d)
      ensures currentChain == if r.Ok? then Some(r.value.cursor) else old(currentChain)
    {
      r := StepInsert(store.chains, store.prompts, chainId, stepIndex, tab, d);
      if r.Ok? {
        currentChain := Some(r.value.cursor);
      }
    }

    /** insertChain: the guards, then the first step. */
    method InsertChain(store: Store, chainId: Field, tab: Option<nat>, d: Delivery) returns (r: Result<StepInsertion>)
      modifies this
      ensures r == ChainStart(store.chains, store.prompts, chainId, tab, d)
      ensures currentChain == if r.Ok? then Some(r.value.cursor) else old(currentChain)
    {
      var chain := ChainById(store.chains, chainId);
      if chain.Err? {
        return Err(chain.error);
      }
      if chain.value.None? {
        return Err(ChainNotFound);
      }
      if |ItemsOf(chain.value.value.steps)| == 0 {
        return Err(EmptyChain);
      }
      r := InsertChainStep(store, chainId, 0, tab, d);
    }
  }
}

// Properties of the side panel.
module PanelFacts {
  import opened Seqs
  import opened Text
  import opened Records
  import opened Validator
  import opened Storage
  import opened Panel

  /** The first piece of a split is a prefix of the string, ended by the separator when it is shorter. */
  lemma SplitFirstPiece(s: string, d: string)
    requires |d| > 0
    ensures var p := Split(s, d)[0];
      |p| <= |s| && p == s[..|p|] && (|p| < |s| ==> OccursAt(s, d, |p|))
  {
  }

  /**
   * A section that yields a draft has a non-empty trimmed title, which is
   * its first line, and a non-empty trimmed content; the `<chain> - Step i`
   * fallback is never used, since a trimmed non-empty section never starts
   * with a blank line.
   */
  lemma {:induction false} SectionDraftFacts(section: string, chainTitle: string, i: nat, otherTitle: string, j: nat)
    ensures SectionDraft(section, chainTitle, i) == SectionDraft(section, otherTitle, j)
    ensures SectionDraft(section, chainTitle, i).Some? ==>
      var d := SectionDraft(section, chainTitle, i).value;
      d.title == Trim(Split(Trim(section), "\n")[0]) && d.title != "" && d.content != ""
      && Trim(d.title) == d.title && Trim(d.content) == d.content
  {
    var text := Trim(section);
    if text != "" {
      var first := Split(text, "\n")[0];
      SplitFirstPiece(text, "\n");
      assert !OccursAt(text, "\n", 0);
      TrimEmptyIffBlank(first);
      TrimIdempotent(first);
      TrimIdempotent(Join(Split(text, "\n")[1..], "\n"));
    }
  }

  /**
   * A section written as a one-line title, a line break and a content
   * gives that title and that content back, when both are already trimmed
   * and the title has no line break.
   */
  lemma {:induction false} SectionRoundTrip(title: string, content: string, chainTitle: string, i: nat)
    requires Trimmed(title) && forall k :: 0 <= k < |title| ==> title[k] != '\n'
    requires Trimmed(content)
    ensures SectionDraft(title + "\n" + content, chainTitle, i) == Some(Draft(title, content))
  {
    var t := title + "\n" + content;
    assert Trimmed(t) by {
      assert t[0] == title[0] && t[|t| - 1] == content[|content| - 1];
    }
    TrimNoOp(t);
    TrimNoOp(title);
    TrimNoOp(content);
    forall k | 0 <= k < |title| ensures !OccursAt(t, "\n", k) {
      assert t[k] == title[k];
    }
    assert OccursAt(t, "\n", |title|) by {
      assert t[|title|..|title| + 1] == "\n";
    }
    FindFirstAt(t, "\n", |title|);
    assert t[..|title|] == title && t[|title| + 1..] == content;
    assert Split(t, "\n") == [title] + Split(content, "\n");
    SplitJoin(content, "\n");
  }

  /** Only the sections' text decides the drafts, never the chain title. */
  lemma {:induction false} RawDraftsIgnoreTitle(sections: seq<string>, t1: string, t2: string)
    ensures RawDrafts(sections, t1) == RawDrafts(sections, t2)
    decreases |sections|
  {
    if sections != [] {
      var n := |sections|;
      RawDraftsIgnoreTitle(sections[..n - 1], t1, t2);
      SectionDraftFacts(sections[n - 1], t1, n - 1, t2, n - 1);
      assert RawDrafts(sections, t1) == RawDrafts(sections[..n - 1], t1) + OptionSeq(SectionDraft(sections[n - 1], t1, n - 1));
      assert RawDrafts(sections, t2) == RawDrafts(sections[..n - 1], t2) + OptionSeq(SectionDraft(sections[n - 1], t2, n - 1));
    }
  }

  /** savePrompt accepts a draft exactly when its title has at most 100 and its content at most 10000 characters. */
  lemma DraftAccepted(d: Draft)
    requires d.title != "" && d.content != "" && Trim(d.title) == d.title && Trim(d.content) == d.content
    ensures PromptIssues(Some(DraftPrompt(d))) == [] <==> |d.title| <= 100 && |d.content| <= 10000
  {
  }

  function DraftSave(now: Millis, stamps: nat -> string): (Saving, Draft, nat) -> Saving
  {
    (x: Saving, d: Draft, k: nat) => SaveDraft(x, d, now, stamps)
  }

  /** Saving a list of drafts in turn. */
  function SaveDrafts(x: Saving, drafts: seq<Draft>, now: Millis, stamps: nat -> string): Saving
  {
    FoldIndexed(x, drafts, DraftSave(now, stamps), 0)
  }

  /** The loop over the sections saves exactly the drafts of the sections, in order. */
  lemma {:induction false} SaveSectionsSavesDrafts(stored: seq<Prompt>, sections: seq<string>, title: string, now: Millis, stamps: nat -> string)
    ensures SaveSections(stored, sections, title, now, stamps) == SaveDrafts(Saving(stored, [], true), RawDrafts(sections, title), now, stamps)
    decreases |sections|
  {
    if sections != [] {
      var n := |sections|;
      var init := Saving(stored, [], true);
      SaveSectionsSavesDrafts(stored, sections[..n - 1], title, now, stamps);
      FoldIndexedStep(init, sections, n - 1, SectionSave(title, now, stamps), 0);
      FoldIndexedStep([], sections, n - 1, DraftStep(title), 0);
      assert sections[..n] == sections;
      var ds := RawDrafts(sections[..n - 1], title);
      match SectionDraft(sections[n - 1], title, n - 1)
      case None =>
        assert RawDrafts(sections, title) == ds;
      case Some(d) =>
        var ds' := ds + [d];
        assert RawDrafts(sections, title) == ds';
        FoldIndexedStep(init, ds', |ds|, DraftSave(now, stamps), 0);
        assert ds'[..|ds| + 1] == ds' && ds'[..|ds|] == ds;
    }
  }

  /** savePrompt accepts the prompt made from the draft. */
  predicate DraftOk(d: Draft)
  {
    PromptIssues(Some(DraftPrompt(d))) == []
  }

  /** The ids the first `n` saves give: `prompt_` followed by each save's stamp. */
  function StampedIds(stamps: nat -> string, n: nat): (r: seq<Field>)
    ensures |r| == n
    ensures forall k :: 0 <= k < n ==> r[k] == Str("prompt_" + stamps(k))
  {
    if n == 0 then [] else StampedIds(stamps, n - 1) + [Str("prompt_" + stamps(n - 1))]
  }

  /**
   * Saving drafts goes through exactly when every draft is accepted; then
   * there is one new id per draft, in draft order, the k-th being `prompt_`
   * followed by the k-th stamp.
   */
  lemma {:induction false} SaveDraftsIds(stored: seq<Prompt>, drafts: seq<Draft>, now: Millis, stamps: nat -> string)
    ensures var s := SaveDrafts(Saving(stored, [], true), drafts, now, stamps);
      (s.ok <==> forall d :: d in drafts ==> DraftOk(d))
      && (s.ok ==> s.ids == StampedIds(stamps, |drafts|))
    decreases |drafts|
  {
    if drafts != [] {
      var n := |drafts|;
      var init := Saving(stored, [], true);
      SaveDraftsIds(stored, drafts[..n - 1], now, stamps);
      SaveDraftsLast(init, drafts, now, stamps);
      AllDraftsOkLast(drafts);
    }
  }

  /** Saving a list of drafts is saving all but the last, then the last. */
  lemma SaveDraftsLast(init: Saving, drafts: seq<Draft>, now: Millis, stamps: nat -> string)
    requires drafts != []
    ensures var prev := SaveDrafts(init, drafts[..|drafts| - 1], now, stamps);
      var s := SaveDrafts(init, drafts, now, stamps);
      s.ok == (prev.ok && DraftOk(drafts[|drafts| - 1]))
      && (s.ok ==> s.ids == prev.ids + [Str("prompt_" + stamps(|prev.ids|))])
  {
    FoldIndexedStep(init, drafts, |drafts| - 1, DraftSave(now, stamps), 0);
    assert drafts[..|drafts|] == drafts;
    SaveDraftStep(SaveDrafts(init, drafts[..|drafts| - 1], now, stamps), drafts[|drafts| - 1], now, stamps);
  }

  lemma AllDraftsOkLast(drafts: seq<Draft>)
    requires drafts != []
    ensures (forall d :: d in drafts ==> DraftOk(d)) <==>
      (forall d :: d in drafts[..|drafts| - 1] ==> DraftOk(d)) && DraftOk(drafts[|drafts| - 1])
  {
    assert drafts == drafts[..|drafts| - 1] + [drafts[|drafts| - 1]];
  }

  /** One save: it goes through when the loop was still going and the prompt is accepted, and adds the stamped id. */
  lemma SaveDraftStep(x: Saving, d: Draft, now: Millis, stamps: nat -> string)
    ensures SaveDraft(x, d, now, stamps).ok == (x.ok && DraftOk(d))
    ensures SaveDraft(x, d, now, stamps).ok ==> SaveDraft(x, d, now, stamps).ids == x.ids + [Str("prompt_" + stamps(|x.ids|))]
  {
  }

  /** The section loop's outcome, stated on the drafts of the sections. */
  lemma SaveSectionsIds(stored: seq<Prompt>, sections: seq<string>, title: string, now: Millis, stamps: nat -> string)
    ensures var s := SaveSections(stored, sections, title, now, stamps);
      var drafts := RawDrafts(sections, title);
      (s.ok <==> forall d :: d in drafts ==> DraftOk(d))
      && (s.ok ==> s.ids == StampedIds(stamps, |drafts|))
  {
    SaveSectionsSavesDrafts(stored, sections, title, now, stamps);
    SaveDraftsIds(stored, RawDrafts(sections, title), now, stamps);
  }

  /**
   * More than 20 accepted sections save their prompts, and then the chain
   * is refused for having too many steps: the prompts stay without a chain.
   */
  lemma {:induction false} TooManySectionsRefused(stored: seq<Prompt>, sections: seq<string>, title: string, now: Millis, stamps: nat -> string)
    requires SaveSections(stored, sections, title, now, stamps).ok && |RawDrafts(sections, title)| > 20
    ensures !ChainValid(Some(RawChain(title, SaveSections(stored, sections, title, now, stamps).ids)))
  {
    SaveSectionsIds(stored, sections, title, now, stamps);
  }

  /**
   * The moved step lands at the target index, the other steps keep their
   * relative order, nothing is lost or added, and moving it back restores
   * the list.
   */
  lemma MovedFacts<T>(s: seq<T>, from: nat, to: nat)
    requires from < |s| && to < |s|
    ensures Moved(s, from, to)[to] == s[from]
    ensures Remove(Moved(s, from, to), to) == Remove(s, from)
    ensures multiset(Moved(s, from, to)) == multiset(s)
    ensures Moved(Moved(s, from, to), to, from) == s
  {
    var r := Moved(s, from, to);
    var rest := Remove(s, from);
    assert r[..to] == rest[..to] && r[to + 1..] == rest[to..];
    assert Remove(r, to) == rest;
    assert s == s[..from] + [s[from]] + s[from + 1..];
    calc {
      multiset(r);
      multiset(rest[..to]) + multiset([s[from]]) + multiset(rest[to..]);
      { assert rest == rest[..to] + rest[to..]; }
      multiset(rest) + multiset([s[from]]);
      multiset(s[..from]) + multiset(s[from + 1..]) + multiset([s[from]]);
      multiset(s);
    }
    assert Moved(r, to, from) == InsertAt(rest, from, s[from]);
    assert InsertAt(rest, from, s[from]) == s by {
      assert rest[..from] == s[..from] && rest[from..] == s[from + 1..];
    }
  }

  /** A step insert succeeds exactly when every guard passes and the tab answers success, and it stores that step's index. */
  lemma StepInsertSucceeds(chains: seq<Chain>, prompts: seq<Prompt>, chainId: Field, stepIndex: nat, tab: Option<nat>, d: Delivery)
    ensures var r := StepInsert(chains, prompts, chainId, stepIndex, tab, d);
      r.Ok? <==> (ChainById(chains, chainId).Ok? && ChainById(chains, chainId).value.Some?
        && stepIndex < |ItemsOf(ChainById(chains, chainId).value.value.steps)|
        && PromptById(prompts, ItemsOf(ChainById(chains, chainId).value.value.steps)[stepIndex]).Ok?
        && PromptById(prompts, ItemsOf(ChainById(chains, chainId).value.value.steps)[stepIndex]).value.Some?
        && tab.Some? && d == Delivered(true))
    ensures var r := StepInsert(chains, prompts, chainId, stepIndex, tab, d);
      r.Ok? ==> (r.value.cursor == ChainCursor(chainId, stepIndex)
        && r.value.text == PromptById(prompts, ItemsOf(ChainById(chains, chainId).value.value.steps)[stepIndex]).value.value.content)
  {
  }

  /** An index past the last step of a stored chain is INVALID_STEP, whatever the tab and the delivery. */
  lemma PastLastStep(chains: seq<Chain>, prompts: seq<Prompt>, chainId: Field, stepIndex: nat, tab: Option<nat>, d: Delivery)
    requires ChainById(chains, chainId).Ok? && ChainById(chains, chainId).value.Some?
    requires stepIndex >= |ItemsOf(ChainById(chains, chainId).value.value.steps)|
    ensures StepInsert(chains, prompts, chainId, stepIndex, tab, d) == Err(InvalidStep)
  {
  }

  /** Starting a chain with steps is inserting its step 0. */
  lemma ChainStartIsStepZero(chains: seq<Chain>, prompts: seq<Prompt>, chainId: Field, tab: Option<nat>, d: Delivery)
    requires ChainById(chains, chainId).Ok? && ChainById(chains, chainId).value.Some?
    requires |ItemsOf(ChainById(chains, chainId).value.value.steps)| > 0
    ensures ChainStart(chains, prompts, chainId, tab, d) == StepInsert(chains, prompts, chainId, 0, tab, d)
  {
  }
}
