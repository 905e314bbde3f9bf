// What the side panel and the popup show of the stored records: the
// shortened content preview, the step-count label, and the text "Copy All"
// puts on the clipboard for a chain. Both pages compute these the same way;
// only the preview length differs (100 characters in the panel, 50 in the
// popup).

module ChainViews {
  import opened Seqs
  import opened Text
  import opened Records

  /** The content preview: the first `limit` characters and `...` when the content is longer. */
  function Preview(content: string, limit: nat): string
  {
    Truncate(content, limit, limit)
  }

  /** `${n} step${n !== 1 ? 's' : ''}`. */
  function StepLabel(n: nat): string
  {
    NatToString(n) + " step" + (if n != 1 then "s" else "")
  }

  /**
   * `promptsMap.get(id)` on `new Map(prompts.map(p => [p.id, p]))`: a later
   * prompt with the same id overwrites an earlier one in the map, so the
   * last one is found.
   */
  function MapGet(prompts: seq<Prompt>, id: Field): (r: Option<Prompt>)
    ensures r.Some? ==> r.value in prompts && r.value.id == id
    ensures r.None? <==> forall i :: 0 <= i < |prompts| ==> prompts[i].id != id
    decreases |prompts|
  {
    if prompts == [] then None
    else
      var n := |prompts|;
      if prompts[n - 1].id == id then Some(prompts[n - 1])
      else
        var r := MapGet(prompts[..n - 1], id);
        assert forall i :: 0 <= i < n - 1 ==> prompts[..n - 1][i] == prompts[i];
        r
  }

  function Resolves(prompts: seq<Prompt>): Field -> bool
  {
    (id: Field) => MapGet(prompts, id).Some?
  }

  /** `steps.map(id => promptsMap.get(id)).filter(p => p)`: the prompts of the steps that resolve, in step order. */
  function StepPrompts(steps: seq<Field>, prompts: seq<Prompt>): (r: seq<Prompt>)
    ensures |r| == |Filter(steps, Resolves(prompts))|
    ensures forall k :: 0 <= k < |r| ==> r[k] in prompts
  {
    if steps == [] then []
    else
      match MapGet(prompts, steps[0])
      case None => StepPrompts(steps[1..], prompts)
      case Some(p) => [p] + StepPrompts(steps[1..], prompts)
  }

  /** One block of the copied text: `Step ${number}: ${title}\n${content}`. */
  function Block(number: nat, p: Prompt): string
  {
    "Step " + NatToString(number) + ": " + StrOf(p.title) + "\n" + StrOf(p.content)
  }

  /** The blocks for `ps`, numbered from `first` on. */
  function Blocks(ps: seq<Prompt>, first: nat): (r: seq<string>)
    ensures |r| == |ps|
    ensures forall k :: 0 <= k < |ps| ==> r[k] == Block(first + k, ps[k])
  {
    if ps == [] then [] else [Block(first, ps[0])] + Blocks(ps[1..], first + 1)
  }

  const BlockSeparator := "\n\n---\n\n"

  datatype Copy = Copied(text: string) | NoValidSteps | CopyFailed

  /**
   * copyChainContent: the warning when no step resolves, otherwise the
   * blocks of the resolving steps, numbered 1, 2, … in order, joined by the
   * separator. Steps that are not an array make `map` throw.
   */
  function CopyChainContent(chain: Chain, prompts: seq<Prompt>): Copy
  {
    match chain.steps
    case NotArray => CopyFailed
    case JsArray(steps) =>
      var valid := StepPrompts(steps, prompts);
      if valid == [] then NoValidSteps
      else Copied(Join(Blocks(valid, 1), BlockSeparator))
  }
}

// Properties of the views.
module ChainViewsFacts {
  import opened Seqs
  import opened Text
  import opened Records
  import opened ChainViews

  /** A preview is at most three characters longer than the limit, keeps short content and starts like the content. */
  lemma PreviewFacts(content: string, limit: nat)
    ensures |Preview(content, limit)| <= limit + 3
    ensures |content| <= limit ==> Preview(content, limit) == content
    ensures |content| > limit ==> Preview(content, limit) == content[..limit] + "..."
    ensures |content| > limit ==> |Preview(content, limit)| == limit + 3
  {
  }

  /** The label ends in `s` except for exactly one step, and reads "1 step" then. */
  lemma StepLabelPlural(n: nat)
    ensures StepLabel(n)[|StepLabel(n)| - 1] == 's' <==> n != 1
    ensures n == 1 ==> StepLabel(n) == "1 step"
  {
  }

  /** The label begins with the count, so `parseInt` of the label gives the count back. */
  lemma {:induction false} StepLabelCount(n: nat)
    ensures ParseInt(StepLabel(n)) == Some(n)
  {
    var digits := NatToString(n);
    var rest := " step" + (if n != 1 then "s" else "");
    var t := digits + rest;
    assert StepLabel(n) == t;
    assert IsDigit(t[0]) && !IsSpace(t[0]);
    assert TrimStart(t) == t;
    assert t[0] != '-' && t[0] != '+';
    LeadingDigitsStop(digits, rest);
    DigitsOfNat(n);
  }

  /** A step whose id resolves contributes exactly one block; the others contribute none. */
  lemma {:induction false} StepPromptsResolve(steps: seq<Field>, prompts: seq<Prompt>)
    ensures StepPrompts(steps, prompts) == [] <==> forall i :: 0 <= i < |steps| ==> MapGet(prompts, steps[i]).None?
  {
    if steps != [] {
      StepPromptsResolve(steps[1..], prompts);
      assert forall i :: 1 <= i < |steps| ==> steps[1..][i - 1] == steps[i];
    }
  }

  /**
   * Steps whose prompt is missing leave no gap in the numbering: the text
   * is the one the chain would give with those steps removed beforehand.
   */
  lemma {:induction false} MissingStepsLeaveNoGap(steps: seq<Field>, prompts: seq<Prompt>)
    ensures StepPrompts(Filter(steps, Resolves(prompts)), prompts) == StepPrompts(steps, prompts)
  {
    if steps != [] {
      MissingStepsLeaveNoGap(steps[1..], prompts);
    }
  }

  /**
   * The copy is `NoValidSteps` exactly when no step resolves; otherwise it
   * holds one block per resolving step and begins with the first of them
   * as step 1.
   */
  lemma {:induction false} CopyFacts(c: Chain, prompts: seq<Prompt>)
    requires c.steps.JsArray?
    ensures CopyChainContent(c, prompts) == NoValidSteps <==>
      forall i :: 0 <= i < |c.steps.items| ==> MapGet(prompts, c.steps.items[i]).None?
    ensures CopyChainContent(c, prompts).Copied? ==>
      var valid := StepPrompts(c.steps.items, prompts);
      StartsWith(CopyChainContent(c, prompts).text, Block(1, valid[0]))
      && |Blocks(valid, 1)| == |Filter(c.steps.items, Resolves(prompts))|
  {
    var valid := StepPrompts(c.steps.items, prompts);
    StepPromptsResolve(c.steps.items, prompts);
    if valid != [] {
      var bs := Blocks(valid, 1);
      if |bs| > 1 {
        assert Join(bs, BlockSeparator) == bs[0] + (BlockSeparator + Join(bs[1..], BlockSeparator));
      }
    }
  }
}
