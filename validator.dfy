// The input validation and sanitising of the hardened build: the Validator
// and SecurityUtils classes. Each validator returns the ordered list of the
// problems it found; an empty list means the record is accepted.

module Validator {
  import opened Seqs
  import opened Text
  import opened Records

  datatype Subject = PromptData | ChainData | SelectorData

  /** The text fields the validators check, each with its own length limit. */
  datatype TextPart = PromptTitle | PromptContent | ChainTitle | DomainPattern | CssSelector

  datatype TextFault = Required | Empty | TooLong

  datatype Issue =
    | Missing(subject: Subject)
    | TextIssue(part: TextPart, fault: TextFault)
    | StepsNotArray
    | NoSteps
    | TooManySteps
    | BadStep(number: nat)
    | CssSyntax
    | PriorityRange

  function Limit(part: TextPart): nat
  {
    match part
    case PromptTitle => 100
    case PromptContent => 10000
    case ChainTitle => 100
    case DomainPattern => 200
    case CssSelector => 500
  }

  function PartName(part: TextPart): string
  {
    match part
    case PromptTitle => "Prompt title"
    case PromptContent => "Prompt content"
    case ChainTitle => "Chain title"
    case DomainPattern => "Domain pattern"
    case CssSelector => "CSS selector"
  }

  /** The message the source pushes for each problem. */
  function Message(issue: Issue): string
  {
    match issue
    case Missing(PromptData) => "Prompt data is required"
    case Missing(ChainData) => "Chain data is required"
    case Missing(SelectorData) => "Domain selector data is required"
    case TextIssue(part, Required) => PartName(part) + " is required"
    case TextIssue(part, Empty) => PartName(part) + " cannot be empty"
    case TextIssue(PromptContent, TooLong) => "Prompt content must be 10,000 characters or less"
    case TextIssue(part, TooLong) => PartName(part) + " must be " + NatToString(Limit(part)) + " characters or less"
    case StepsNotArray => "Chain steps must be an array"
    case NoSteps => "Chain must have at least one step"
    case TooManySteps => "Chain cannot have more than 20 steps"
    case BadStep(n) => "Step " + NatToString(n) + " has invalid ID"
    case CssSyntax => "CSS selector syntax is invalid"
    case PriorityRange => "Priority must be a number between 1 and 100"
  }

  /** A text field passes: a string whose trimmed length is between 1 and `limit`. */
  predicate Accepted(f: Field, limit: nat)
  {
    f.Str? && 0 < |Trim(f.s)| <= limit
  }

  /** The check every text field goes through: required, then not blank, then not too long. */
  function TextFaults(part: TextPart, f: Field): (r: seq<Issue>)
    ensures |r| <= 1
    ensures forall i :: 0 <= i < |r| ==> r[i].TextIssue? && r[i].part == part
    ensures r == [] <==> Accepted(f, Limit(part))
    ensures !IsText(f) ==> r == [TextIssue(part, Required)]
    ensures IsText(f) && Blank(f.s) ==> r == [TextIssue(part, Empty)]
  {
    if !IsText(f) then [TextIssue(part, Required)]
    else
      var t := Trim(f.s);
      TrimEmptyIffBlank(f.s);
      if |t| == 0 then [TextIssue(part, Empty)]
      else if |t| > Limit(part) then [TextIssue(part, TooLong)]
      else []
  }

  predicate PromptAccepted(p: Prompt)
  {
    Accepted(p.title, 100) && Accepted(p.content, 10000)
  }

  /** Validator.validatePrompt: the title problem, if any, comes before the content problem. */
  function PromptIssues(p: Option<Prompt>): (r: seq<Issue>)
    ensures p.None? ==> r == [Missing(PromptData)]
    ensures p.Some? ==> |r| <= 2 && forall i :: 0 <= i < |r| ==> r[i].TextIssue?
    ensures p.Some? && |r| == 2 ==> r[0].part == PromptTitle && r[1].part == PromptContent
    ensures r == [] <==> p.Some? && PromptAccepted(p.value)
  {
    match p
    case None => [Missing(PromptData)]
    case Some(q) => TextFaults(PromptTitle, q.title) + TextFaults(PromptContent, q.content)
  }

  /** One `Step n has invalid ID` problem for every step that is not a non-empty string, in order. */
  function StepFaults(ids: seq<Field>): (r: seq<Issue>)
    ensures |r| <= |ids|
    ensures forall k :: 0 <= k < |r| ==> r[k].BadStep? && 1 <= r[k].number <= |ids| && !IsText(ids[r[k].number - 1])
    ensures forall j :: 0 <= j < |ids| && !IsText(ids[j]) ==> BadStep(j + 1) in r
    ensures forall k, l :: 0 <= k < l < |r| ==> r[k].number < r[l].number
  {
    if ids == [] then []
    else
      var n := |ids|;
      var before := StepFaults(ids[..n - 1]);
      assert forall j :: 0 <= j < n - 1 ==> ids[..n - 1][j] == ids[j];
      var last: seq<Issue> := if !IsText(ids[n - 1]) then [BadStep(n)] else [];
      StepNumbersIncrease(before, last, n);
      before + last
  }

  /** A step number above all earlier ones keeps the problems in step order. */
  lemma StepNumbersIncrease(before: seq<Issue>, last: seq<Issue>, n: nat)
    requires forall k :: 0 <= k < |before| ==> before[k].BadStep? && before[k].number < n
    requires forall k, l :: 0 <= k < l < |before| ==> before[k].number < before[l].number
    requires last == [] || last == [BadStep(n)]
    ensures forall k :: 0 <= k < |before| ==> (before + last)[k] == before[k]
    ensures forall k, l :: 0 <= k < l < |before + last| ==> (before + last)[k].number < (before + last)[l].number
  {
  }

  /** No step problem is reported exactly when every step ID is a non-empty string. */
  lemma StepFaultsEmpty(ids: seq<Field>)
    ensures StepFaults(ids) == [] <==> forall j :: 0 <= j < |ids| ==> IsText(ids[j])
  {
    var r := StepFaults(ids);
    if r != [] {
      assert !IsText(ids[r[0].number - 1]);
    }
  }

  function StepsIssues(steps: Arr<Field>): (r: seq<Issue>)
    ensures r == [] <==> (steps.JsArray? && 1 <= |steps.items| <= 20
      && forall i :: 0 <= i < |steps.items| ==> IsText(steps.items[i]))
    ensures (exists k :: 0 <= k < |r| && r[k].BadStep?) ==> steps.JsArray? && 1 <= |steps.items| <= 20
  {
    match steps
    case NotArray => [StepsNotArray]
    case JsArray(ids) =>
      if |ids| == 0 then [NoSteps]
      else if |ids| > 20 then [TooManySteps]
      else
        StepFaultsEmpty(ids);
        StepFaults(ids)
  }

  predicate ChainAccepted(c: Chain)
  {
    Accepted(c.title, 100) && c.steps.JsArray? && 1 <= |c.steps.items| <= 20
    && forall i :: 0 <= i < |c.steps.items| ==> IsText(c.steps.items[i])
  }

  /** Validator.validateChain: step IDs are only examined when the step count is within 1..20. */
  function ChainIssues(c: Option<Chain>): (r: seq<Issue>)
    ensures c.None? ==> r == [Missing(ChainData)]
    ensures r == [] <==> c.Some? && ChainAccepted(c.value)
    ensures (exists k :: 0 <= k < |r| && r[k].BadStep?) ==>
      c.Some? && c.value.steps.JsArray? && 1 <= |c.value.steps.items| <= 20
  {
    match c
    case None => [Missing(ChainData)]
    case Some(ch) =>
      var t := TextFaults(ChainTitle, ch.title);
      var s := StepsIssues(ch.steps);
      BadStepsFromSteps(t, s);
      t + s
  }

  /** Behind text problems, any step problem comes from the second part. */
  lemma BadStepsFromSteps(t: seq<Issue>, s: seq<Issue>)
    requires forall i :: 0 <= i < |t| ==> t[i].TextIssue?
    ensures (exists k :: 0 <= k < |t + s| && (t + s)[k].BadStep?) ==> exists k :: 0 <= k < |s| && s[k].BadStep?
  {
    if exists k :: 0 <= k < |t + s| && (t + s)[k].BadStep? {
      var k :| 0 <= k < |t + s| && (t + s)[k].BadStep?;
      assert s[k - |t|] == (t + s)[k];
    }
  }

  /** The forEach over the step IDs of validateChain: one problem pushed per bad step. */
  method CheckStepIds(ids: seq<Field>) returns (errors: seq<Issue>)
    ensures errors == StepFaults(ids)
  {
    errors := [];
    var i := 0;
    while i < |ids|
      invariant 0 <= i <= |ids|
      invariant errors == StepFaults(ids[..i])
    {
      assert ids[..i + 1][..i] == ids[..i];
      if !IsText(ids[i]) {
        errors := errors + [BadStep(i + 1)];
      }
      i := i + 1;
    }
    assert ids[..|ids|] == ids;
  }

  /** The imperative form of validateChain: problems are pushed in the order the checks run. */
  method ValidateChain(c: Option<Chain>) returns (errors: seq<Issue>)
    ensures errors == ChainIssues(c)
  {
    if c.None? {
      return [Missing(ChainData)];
    }
    var chain := c.value;
    errors := TextFaults(ChainTitle, chain.title);
    if chain.steps.NotArray? {
      errors := errors + [StepsNotArray];
    } else if |chain.steps.items| == 0 {
      errors := errors + [NoSteps];
    } else if |chain.steps.items| > 20 {
      errors := errors + [TooManySteps];
    } else {
      var stepErrors := CheckStepIds(chain.steps.items);
      errors := errors + stepErrors;
    }
  }

  predicate PriorityAccepted(p: Priority)
  {
    p.Unset? || (p.Num? && 1 <= p.n <= 100)
  }

  function PriorityFaults(p: Priority): seq<Issue>
  {
    match p
    case Unset => []
    case NaN => [PriorityRange]
    case Num(n) => if n < 1 || n > 100 then [PriorityRange] else []
  }

  /** The CSS selector check: a valid text field whose trimmed text the browser can parse. */
  function CssFaults(f: Field, cssParses: string -> bool): (r: seq<Issue>)
    ensures |r| <= 1
    ensures r == [] <==> Accepted(f, 500) && cssParses(Trim(f.s))
  {
    var t := TextFaults(CssSelector, f);
    if t == [] && !cssParses(Trim(f.s)) then [CssSyntax] else t
  }

  predicate SelectorAccepted(s: Selector, cssParses: string -> bool)
  {
    Accepted(s.domainPattern, 200) && Accepted(s.cssSelector, 500)
    && cssParses(Trim(s.cssSelector.s)) && PriorityAccepted(s.priority)
  }

  /**
   * Validator.validateDomainSelector. Whether `document.querySelector`
   * accepts a selector is the parameter `cssParses`.
   */
  function SelectorIssues(s: Option<Selector>, cssParses: string -> bool): (r: seq<Issue>)
    ensures s.None? ==> r == [Missing(SelectorData)]
    ensures |r| <= 3
    ensures r == [] <==> s.Some? && SelectorAccepted(s.value, cssParses)
  {
    match s
    case None => [Missing(SelectorData)]
    case Some(sel) =>
      TextFaults(DomainPattern, sel.domainPattern) + CssFaults(sel.cssSelector, cssParses)
      + PriorityFaults(sel.priority)
  }

  /** Validator.validateSearchQuery: None (null) when the query is acceptable. */
  function SearchQueryIssue(q: Field): (r: Option<string>)
    ensures r.None? <==> q.Str? && |q.s| <= 200
  {
    if !q.Str? then Some("Search query must be a string")
    else if |q.s| > 200 then Some("Search query must be 200 characters or less")
    else None
  }

  predicate NotAngle(c: char)
  {
    c != '<' && c != '>'
  }

  /** SecurityUtils.sanitizeText: '' for a non-string, otherwise the text without any '<' or '>'. */
  function SanitizeText(f: Field): (r: string)
    ensures forall i :: 0 <= i < |r| ==> NotAngle(r[i])
    ensures |r| <= |StrOf(f)|
  {
    if f.Str? then Filter(f.s, NotAngle) else ""
  }

  /**
   * Sanitising removes exactly the angle brackets: every other character is
   * kept as often as it occurred and in its order, a text without brackets
   * is unchanged, and sanitising again changes nothing.
   */
  lemma SanitizeTextProperties(s: string)
    ensures forall c :: NotAngle(c) ==> multiset(SanitizeText(Str(s)))[c] == multiset(s)[c]
    ensures Sublist(SanitizeText(Str(s)), s)
    ensures SanitizeText(Str(s)) == s <==> forall i :: 0 <= i < |s| ==> NotAngle(s[i])
    ensures SanitizeText(Str(SanitizeText(Str(s)))) == SanitizeText(Str(s))
  {
    forall c | NotAngle(c) ensures multiset(SanitizeText(Str(s)))[c] == multiset(s)[c] {
      FilterMultiset(s, NotAngle, c);
    }
    FilterSublist(s, NotAngle);
    if forall i :: 0 <= i < |s| ==> NotAngle(s[i]) {
      FilterKeepsAll(s, NotAngle);
    }
    var r := SanitizeText(Str(s));
    FilterKeepsAll(r, NotAngle);
  }
}
