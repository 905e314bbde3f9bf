// The hardened content script: the domain-specific selectors it loads from
// storage, the wildcard match of a page's host name against their patterns,
// and the order in which it looks for a field to put the text in.

module Content {
  import opened Seqs
  import opened Text
  import opened Records
  import opened Dom

  // ---------------------------------------------------------------------
  // Domain patterns

  /**
   * The regular expression built from a pattern: every `*` matches any run
   * of characters, every other character matches itself, anchored at both ends.
   */
  predicate Glob(p: string, s: string)
    decreases |p| + |s|
  {
    if p == [] then s == []
    else if p[0] == '*' then Glob(p[1..], s) || (s != [] && Glob(p, s[1..]))
    else s != [] && p[0] == s[0] && Glob(p[1..], s[1..])
  }

  /**
   * domainMatchesPattern: a falsy domain or pattern never matches; a
   * non-string pattern has no `replace` and the thrown error counts as no
   * match; otherwise the case-insensitive wildcard match.
   */
  predicate DomainMatches(domain: string, pattern: Field)
  {
    domain != "" && IsText(pattern) && Glob(ToLower(pattern.s), ToLower(domain))
  }

  function PatternMatches(domain: string): Selector -> bool
  {
    (s: Selector) => DomainMatches(domain, s.domainPattern)
  }

  // ---------------------------------------------------------------------
  // Sanitising the text

  /** The characters the script removes: C0 controls other than tab, line feed and carriage return, and DEL. */
  predicate IsControl(c: char)
  {
    var n := c as int;
    n <= 0x08 || n == 0x0B || n == 0x0C || (0x0E <= n <= 0x1F) || n == 0x7F
  }

  function StripControl(s: string): string
  {
    Filter(s, (c: char) => !IsControl(c))
  }

  // ---------------------------------------------------------------------
  // Loading the selectors

  /** A stored entry survives loading when it is an object with a truthy pattern and a truthy selector. */
  predicate SelectorUsable(o: Option<Selector>)
  {
    o.Some? && Truthy(o.value.domainPattern) && Truthy(o.value.cssSelector)
  }

  /** The usable entries, in stored order. */
  function Usable(stored: seq<Option<Selector>>): (r: seq<Selector>)
    ensures forall i :: 0 <= i < |r| ==> Some(r[i]) in stored && SelectorUsable(Some(r[i]))
    ensures forall i :: 0 <= i < |stored| && SelectorUsable(stored[i]) ==> stored[i].value in r
  {
    if stored == [] then []
    else (if SelectorUsable(stored[0]) then [stored[0].value] else []) + Usable(stored[1..])
  }

  /** `priority || 10`: a missing, zero or NaN priority counts as 10. */
  function Rank(s: Selector): int
  {
    match s.priority
    case Num(n) => if n != 0 then n else 10
    case _ => 10
  }

  /** The selectors after loading: the usable ones, highest rank first, stable among equal ranks. */
  function LoadedSelectors(stored: Arr<Option<Selector>>): seq<Selector>
  {
    SortDesc(Usable(if stored.JsArray? then stored.items else []), Rank)
  }

  // ---------------------------------------------------------------------
  // Where the text may go

  /** A field the script will try, with the message it reports when that field takes the text. */
  datatype Candidate = Candidate(e: Element, message: string)

  /** The outcome reported to the popup or panel. */
  datatype Insertion = Insertion(success: bool, message: string)

  const InvalidTextMessage: string := "Failed to insert text: Invalid text provided"
  const NoTargetMessage: string := "No suitable editable element found on this page"
  const ActiveMessage: string := "Text inserted into active element"
  const AutoMessage: string := "Text inserted into auto-detected element"

  function SelectorMessage(css: string): string
  {
    "Text inserted using selector: " + css
  }

  function Tagged(els: seq<Element>, message: string): (r: seq<Candidate>)
    ensures |r| == |els|
    ensures forall i :: 0 <= i < |els| ==> r[i] == Candidate(els[i], message)
  {
    seq(|els|, i requires 0 <= i < |els| => Candidate(els[i], message))
  }

  function QueryOrEmpty(page: Page, selector: string): (r: seq<Element>)
    ensures forall i :: 0 <= i < |r| ==> r[i] in page.elements
  {
    match Query(page, selector)
    case None => []
    case Some(els) => els
  }

  /** The elements every configured selector matches, config by config; a selector that does not parse adds none. */
  function ConfigCandidates(page: Page, configs: seq<Selector>): (r: seq<Candidate>)
    ensures forall i :: 0 <= i < |r| ==> r[i].e in page.elements
    decreases |configs|
  {
    if configs == [] then []
    else
      var css := StrOf(configs[|configs| - 1].cssSelector);
      ConfigCandidates(page, configs[..|configs| - 1]) + Tagged(QueryOrEmpty(page, css), SelectorMessage(css))
  }

  /** The focused element, when there is one, tried by the default approach. */
  function ActiveCandidates(focus: Option<Element>): (r: seq<Candidate>)
    ensures |r| <= 1
  {
    if focus.Some? then [Candidate(focus.value, ActiveMessage)] else []
  }

  /**
   * `document.activeElement` after the script focused each editable
   * candidate of `cands` in turn, starting from `focus`: the last editable
   * one, or `focus` when there is none.
   */
  function FocusAfter(cands: seq<Candidate>, focus: Option<Element>): (r: Option<Element>)
    ensures r.Some? && r != focus ==> exists j :: 0 <= j < |cands| && cands[j].e == r.value && IsEditable(r.value)
    decreases |cands|
  {
    if cands == [] then focus
    else
      var last := cands[|cands| - 1];
      if IsEditable(last.e) then Some(last.e) else FocusAfter(cands[..|cands| - 1], focus)
  }

  /** The fixed selectors of findPossibleEditableElements, in the order they are queried. */
  function AutoSelectors(): seq<string>
  {
    [
    "textarea",
    "input[type=\"text\"]",
    "input[type=\"search\"]",
    "input[type=\"email\"]",
    "input[type=\"password\"]",
    "input[type=\"tel\"]",
    "input[type=\"url\"]",
    "[contenteditable=\"true\"]",
    "[contenteditable=\"\"]"
    ]
  }

  function QueryAll(page: Page): string -> seq<Element>
  {
    (selector: string) => QueryOrEmpty(page, selector)
  }

  /** The elements the fixed selectors match, selector by selector, duplicates included. */
  function Discovered(page: Page): (r: seq<Element>)
    ensures forall i :: 0 <= i < |r| ==> r[i] in page.elements
  {
    FoundWithin(page, Map(AutoSelectors(), QueryAll(page)));
    Flatten(Map(AutoSelectors(), QueryAll(page)))
  }

  lemma FoundWithin(page: Page, found: seq<seq<Element>>)
    requires forall k, j :: 0 <= k < |found| && 0 <= j < |found[k]| ==> found[k][j] in page.elements
    ensures forall i :: 0 <= i < |Flatten(found)| ==> Flatten(found)[i] in page.elements
  {
    forall i | 0 <= i < |Flatten(found)|
      ensures Flatten(found)[i] in page.elements
    {
      var x := Flatten(found)[i];
      FlattenMember(found, x);
      var k :| 0 <= k < |found| && x in found[k];
    }
  }

  function IsVisible(e: Element): bool
  {
    e.visible
  }

  /** The first occurrence of every visible element, in order. */
  function FirstVisible(s: seq<Element>): (r: seq<Element>)
    ensures forall i :: 0 <= i < |r| ==> r[i] in s && r[i].visible
  {
    if s == [] then []
    else
      var d := FirstVisible(s[..|s| - 1]);
      var last := s[|s| - 1];
      if last in d || !last.visible then d else d + [last]
  }

  /** The visible elements the fixed selectors match, each once, in order of first discovery. */
  function PossibleEditable(page: Page): (r: seq<Element>)
    ensures forall i :: 0 <= i < |r| ==> r[i] in page.elements && r[i].visible
  {
    FirstVisible(Discovered(page))
  }

  /** Keeping the first occurrence of each visible element is de-duplicating, then keeping the visible ones. */
  lemma {:induction false} FirstVisibleIsFilterDedupe(s: seq<Element>)
    ensures FirstVisible(s) == Filter(Dedupe(s), IsVisible)
  {
    if s != [] {
      var p := s[..|s| - 1];
      var x := s[|s| - 1];
      assert s == p + [x];
      FirstVisibleIsFilterDedupe(p);
      var d := Dedupe(p);
      if x in d {
        assert x in p;
        if x.visible {
          var j :| 0 <= j < |d| && d[j] == x;
          assert x in Filter(d, IsVisible);
        }
      } else {
        FilterAppend(d, [x], IsVisible);
        assert x !in p;
        assert x !in FirstVisible(p);
      }
    }
  }

  /** What the default approach tries once the focus is `focus`: the focused element, then the detected fields. */
  function DefaultCandidates(page: Page, focus: Option<Element>): seq<Candidate>
  {
    ActiveCandidates(focus) + Tagged(PossibleEditable(page), AutoMessage)
  }

  /**
   * Every field the script tries, in the order it tries them. The focused
   * element of the default approach is the one the configured stage left
   * focused: it focuses every editable element it tries.
   */
  function AllCandidates(page: Page, configs: seq<Selector>): (r: seq<Candidate>)
    ensures forall i :: 0 <= i < |r| ==> r[i].e in page.elements || Some(r[i].e) == page.active
  {
    var cc := ConfigCandidates(page, configs);
    cc + DefaultCandidates(page, FocusAfter(cc, page.active))
  }

  function TakesText(c: Candidate): bool
  {
    Accepts(c.e)
  }

  /** The candidate that takes the text: the first one that accepts it, and none at all when the text is empty. */
  function Target(cands: seq<Candidate>, text: string): (r: Option<nat>)
    ensures r.Some? ==> r.value < |cands|
  {
    if text == "" then None else IndexOfKey(cands, TakesText, true)
  }

  /** The candidates the script tries: up to and including the target, or all of them when none takes the text. */
  function Tried(cands: seq<Candidate>, text: string): (r: seq<Candidate>)
    ensures r <= cands
    ensures Target(cands, text).None? ==> r == cands
    ensures Target(cands, text).Some? ==> |r| == Target(cands, text).value + 1
  {
    match Target(cands, text)
    case None => cands
    case Some(k) => cands[..k + 1]
  }

  /** The states `before` of `els` after each of `cands` was tried in turn. */
  function AttemptAll(before: seq<InputState>, els: seq<Element>, cands: seq<Candidate>, text: string): (r: seq<InputState>)
    requires |before| == |els|
    ensures |r| == |els|
    decreases |cands|
  {
    if cands == [] then before
    else AttemptIn(AttemptAll(before, els, cands[..|cands| - 1], text), els, cands[|cands| - 1].e, text)
  }

  /** The result reported after trying `cands`: the message of the stage whose candidate took the text, or that none did. */
  function Report(cands: seq<Candidate>, text: string): Insertion
  {
    match Target(cands, text)
    case None => Insertion(false, NoTargetMessage)
    case Some(k) => Insertion(true, cands[k].message)
  }

  // ---------------------------------------------------------------------
  // The script

  /**
   * Tries the candidates in order, focusing each editable one first, and
   * stops at the first that takes the text: the inner loops of
   * insertTextAtCursor.
   */
  method TryCandidates(cands: seq<Candidate>, text: string, ghost els: seq<Element>, focus0: Option<Element>)
    returns (hit: Option<nat>, focus: Option<Element>)
    requires forall i :: 0 <= i < |cands| ==> cands[i].e in els
    modifies set i | 0 <= i < |cands| :: cands[i].e
    ensures hit == Target(cands, text)
    ensures Snapshot(els) == AttemptAll(old(Snapshot(els)), els, Tried(cands, text), text)
    ensures focus == FocusAfter(Tried(cands, text), focus0)
  {
    ghost var before := Snapshot(els);
    focus := focus0;
    var i := 0;
    while i < |cands|
      invariant 0 <= i <= |cands|
      invariant Snapshot(els) == AttemptAll(before, els, cands[..i], text)
      invariant focus == FocusAfter(cands[..i], focus0)
      invariant Target(cands[..i], text).None?
    {
      var ok;
      ok, focus := TryNext(cands, i, text, els, focus0, focus, before);
      TargetStep(cands, i, text);
      if ok {
        hit := Some(i);
        return;
      }
      i := i + 1;
    }
    assert cands[..|cands|] == cands;
    hit := None;
  }

  /** One turn of the loop: focus the candidate when it is editable, then try it. */
  method TryNext(cands: seq<Candidate>, i: nat, text: string, ghost els: seq<Element>,
                 focus0: Option<Element>, focus: Option<Element>, ghost before: seq<InputState>)
    returns (ok: bool, focus': Option<Element>)
    requires i < |cands| && cands[i].e in els && |before| == |els|
    requires Snapshot(els) == AttemptAll(before, els, cands[..i], text)
    requires focus == FocusAfter(cands[..i], focus0)
    modifies cands[i].e
    ensures ok <==> Accepts(cands[i].e) && text != ""
    ensures Snapshot(els) == AttemptAll(before, els, cands[..i + 1], text)
    ensures focus' == FocusAfter(cands[..i + 1], focus0)
  {
    focus' := focus;
    if IsEditable(cands[i].e) {
      focus' := Some(cands[i].e);
    }
    ok := TryInsertAmong(cands[i].e, text, els);
    CandidateStep(before, els, cands, i, text, focus0);
  }

  /** One more candidate: trying it after the first `i` is trying the first `i + 1`. */
  lemma CandidateStep(before: seq<InputState>, els: seq<Element>, cands: seq<Candidate>, i: nat, text: string, focus: Option<Element>)
    requires i < |cands| && |before| == |els|
    ensures AttemptAll(before, els, cands[..i + 1], text)
      == AttemptIn(AttemptAll(before, els, cands[..i], text), els, cands[i].e, text)
    ensures FocusAfter(cands[..i + 1], focus)
      == if IsEditable(cands[i].e) then Some(cands[i].e) else FocusAfter(cands[..i], focus)
  {
    assert cands[..i + 1][..i] == cands[..i];
    assert cands[..i + 1][i] == cands[i];
  }

  /**
   * When none of the first `i` candidates takes the text, the next one is
   * the target exactly when it accepts the text, and then it is the last
   * one tried.
   */
  lemma TargetStep(cands: seq<Candidate>, i: nat, text: string)
    requires i < |cands|
    requires Target(cands[..i], text).None?
    ensures !(text != "" && Accepts(cands[i].e)) ==> Target(cands[..i + 1], text).None?
    ensures text != "" && Accepts(cands[i].e) ==> Target(cands, text) == Some(i) && Tried(cands, text) == cands[..i + 1]
  {
    assert cands[..i + 1] == cands[..i] + [cands[i]];
    TargetAfter(cands[..i], [cands[i]], text);
    if text != "" && Accepts(cands[i].e) {
      assert Target([cands[i]], text) == Some(0);
      TargetPrefix(cands[..i + 1], cands, text);
    }
  }

  /** findPossibleEditableElements: queries the fixed selectors one by one, then de-duplicates and keeps the visible elements. */
  method FindPossibleEditableElements(page: Page) returns (r: seq<Element>)
    ensures r == PossibleEditable(page)
  {
    var elements := QueryEach(page, AutoSelectors());
    r := Filter(Dedupe(elements), IsVisible);
    FirstVisibleIsFilterDedupe(elements);
  }

  /** The loop of findPossibleEditableElements: all matches of each selector in turn, skipping selectors that throw. */
  method QueryEach(page: Page, selectors: seq<string>) returns (elements: seq<Element>)
    ensures elements == Flatten(Map(selectors, QueryAll(page)))
  {
    elements := [];
    for i := 0 to |selectors|
      invariant elements == Flatten(Map(selectors[..i], QueryAll(page)))
    {
      var q := Query(page, selectors[i]);
      if q.Some? {
        elements := elements + q.value;
      }
      FlattenMapStep(selectors, i, QueryAll(page));
    }
    assert selectors[..|selectors|] == selectors;
  }

  /** One configured selector: its matches in document order, until one takes the text. */
  method TryConfig(page: Page, css: string, text: string, focus0: Option<Element>) returns (ok: bool, focus: Option<Element>)
    modifies page.elements
    ensures var block := Tagged(QueryOrEmpty(page, css), SelectorMessage(css));
      ok == Target(block, text).Some?
      && Snapshot(page.elements) == AttemptAll(old(Snapshot(page.elements)), page.elements, Tried(block, text), text)
      && focus == FocusAfter(Tried(block, text), focus0)
  {
    var q := Query(page, css);
    if q.None? {
      return false, focus0;
    }
    var block := Tagged(q.value, SelectorMessage(css));
    var h;
    h, focus := TryCandidates(block, text, page.elements, focus0);
    ok := h.Some?;
  }

  /**
   * The loop over the configured selectors: each selector in turn, until
   * one takes the text.
   */
  method TryConfigs(page: Page, configs: seq<Selector>, text: string) returns (used: Option<string>, focus: Option<Element>)
    modifies page.elements
    ensures used.Some? <==> Target(ConfigCandidates(page, configs), text).Some?
    ensures used.Some? ==>
      ConfigCandidates(page, configs)[Target(ConfigCandidates(page, configs), text).value].message == SelectorMessage(used.value)
    ensures Snapshot(page.elements) ==
      AttemptAll(old(Snapshot(page.elements)), page.elements, Tried(ConfigCandidates(page, configs), text), text)
    ensures focus == FocusAfter(Tried(ConfigCandidates(page, configs), text), page.active)
  {
    ghost var before := Snapshot(page.elements);
    focus := page.active;
    assert configs[..0] == [];
    var i := 0;
    while i < |configs|
      invariant 0 <= i <= |configs|
      invariant Target(ConfigCandidates(page, configs[..i]), text).None?
      invariant Snapshot(page.elements) == AttemptAll(before, page.elements, ConfigCandidates(page, configs[..i]), text)
      invariant focus == FocusAfter(ConfigCandidates(page, configs[..i]), page.active)
    {
      var css := StrOf(configs[i].cssSelector);
      var ok;
      ok, focus := TryConfig(page, css, text, focus);
      ConfigStepState(page, configs, i, text, before, page.active);
      ConfigStep(page, configs, i, text);
      ConfigStepTried(page, configs, i, text);
      if ok {
        return Some(css), focus;
      }
      i := i + 1;
    }
    assert configs[..|configs|] == configs;
    used := None;
  }

  /** The last loop: the detected fields, until one takes the text. */
  method TryDetected(page: Page, text: string) returns (ok: bool)
    modifies page.elements
    ensures var detected := Tagged(PossibleEditable(page), AutoMessage);
      ok == Target(detected, text).Some?
      && Snapshot(page.elements) == AttemptAll(old(Snapshot(page.elements)), page.elements, Tried(detected, text), text)
  {
    var possible := FindPossibleEditableElements(page);
    var h, _ := TryCandidates(Tagged(possible, AutoMessage), text, page.elements, None);
    ok := h.Some?;
  }

  /** The focused element, when it is editable, gets the text. */
  method TryActive(page: Page, focus: Option<Element>, text: string) returns (ok: bool)
    requires focus.Some? ==> focus.value in page.elements
    modifies page.elements
    ensures ok <==> focus.Some? && Accepts(focus.value) && text != ""
    ensures Snapshot(page.elements) == AttemptAll(old(Snapshot(page.elements)), page.elements, ActiveCandidates(focus), text)
  {
    ghost var before := Snapshot(page.elements);
    ok := false;
    if focus.Some? {
      ok := TryInsertAmong(focus.value, text, page.elements);
      assert ActiveCandidates(focus)[..0] == [];
    }
  }

  class ContentScript {
    var domainSelectors: seq<Selector>

    constructor()
      ensures domainSelectors == []
    {
      domainSelectors := [];
    }

    /** loadDomainSelectors, given what storage holds under `domainSelectors`. */
    method LoadDomainSelectors(stored: Arr<Option<Selector>>)
      modifies this
      ensures domainSelectors == LoadedSelectors(stored)
    {
      var items := if stored.JsArray? then stored.items else [];
      domainSelectors := SortDesc(Usable(items), Rank);
    }

    /** findMatchingDomainConfigs: the loaded selectors whose pattern matches the host name, in loaded order. */
    function FindMatchingDomainConfigs(domain: string): (r: seq<Selector>)
      reads this
      ensures domain == "" ==> r == []
      ensures forall i :: 0 <= i < |r| ==> r[i] in domainSelectors && DomainMatches(domain, r[i].domainPattern)
      ensures forall i :: 0 <= i < |domainSelectors| && DomainMatches(domain, domainSelectors[i].domainPattern) ==>
                domainSelectors[i] in r
      ensures Sublist(r, domainSelectors)
    {
      if domain == "" then []
      else
        FilterSublist(domainSelectors, PatternMatches(domain));
        Filter(domainSelectors, PatternMatches(domain))
    }

    /**
     * insertTextAtCursor on a page whose host name is `domain`: rejects
     * anything but a non-empty string; otherwise the text stripped of
     * control characters goes to the candidates in order (configured
     * selectors, then the focused element, then the detected fields) until
     * one takes it, and every element tried keeps what the attempt did to it.
     */
    method InsertTextAtCursor(page: Page, domain: string, text: Field) returns (r: Insertion)
      requires page.active.Some? ==> page.active.value in page.elements
      modifies page.elements
      ensures !IsText(text) ==> r == Insertion(false, InvalidTextMessage) && Untouched(page.elements)
      ensures IsText(text) ==>
        Outcome(page.elements, AllCandidates(page, old(FindMatchingDomainConfigs(domain))), StripControl(text.s), r)
    {
      if !IsText(text) {
        return Insertion(false, InvalidTextMessage);
      }
      var sanitized := StripControl(text.s);
      var configs := FindMatchingDomainConfigs(domain);
      r := InsertWith(page, configs, sanitized);
    }
  }

  /**
   * The outcome of trying the candidates `cands` in order: the report of the
   * one that took the text, or that none did, and the elements of `els` as
   * the attempts up to that one left them.
   */
  twostate predicate Outcome(els: seq<Element>, cands: seq<Candidate>, text: string, r: Insertion)
    reads els
  {
    r == Report(cands, text) && Snapshot(els) == AttemptAll(old(Snapshot(els)), els, Tried(cands, text), text)
  }

  /** The body of insertTextAtCursor after the text has been checked and sanitised. */
  method InsertWith(page: Page, configs: seq<Selector>, text: string) returns (r: Insertion)
    requires page.active.Some? ==> page.active.value in page.elements
    modifies page.elements
    ensures Outcome(page.elements, AllCandidates(page, configs), text, r)
  {
    ghost var before := Snapshot(page.elements);
    ghost var cc := ConfigCandidates(page, configs);
    var used, focus := TryConfigs(page, configs, text);
    if used.Some? {
      StageConfigs(page, configs, text);
      return Insertion(true, SelectorMessage(used.value));
    }
    ghost var rest := DefaultCandidates(page, focus);
    r := TryDefaults(page, focus, text);
    Then(before, page.elements, cc, rest, text, page.active);
    TargetAfter(cc, rest, text);
  }

  /** The default approach, once no configured selector took the text: the focused element, then the detected fields. */
  method TryDefaults(page: Page, focus: Option<Element>, text: string) returns (r: Insertion)
    requires focus.Some? ==> focus.value in page.elements
    modifies page.elements
    ensures r == Report(DefaultCandidates(page, focus), text)
    ensures Snapshot(page.elements) ==
      AttemptAll(old(Snapshot(page.elements)), page.elements, Tried(DefaultCandidates(page, focus), text), text)
  {
    ghost var before := Snapshot(page.elements);
    ghost var active := ActiveCandidates(focus);
    ghost var detected := Tagged(PossibleEditable(page), AutoMessage);
    var ok := TryActive(page, focus, text);
    if ok {
      assert Target(active, text) == Some(0);
      TargetInFront(active, detected, text);
      return Insertion(true, ActiveMessage);
    }
    assert Target(active, text).None?;
    var found := TryDetected(page, text);
    Then(before, page.elements, active, detected, text, focus);
    TargetAfter(active, detected, text);
    if found {
      return Insertion(true, AutoMessage);
    }
    r := Insertion(false, NoTargetMessage);
  }

  // ---------------------------------------------------------------------
  // How the stages compose

  lemma {:induction false} ConfigCandidatesPrefix(page: Page, configs: seq<Selector>, i: nat)
    requires i <= |configs|
    ensures ConfigCandidates(page, configs[..i]) <= ConfigCandidates(page, configs)
    decreases |configs|
  {
    if i < |configs| {
      var init := configs[..|configs| - 1];
      assert configs[..i] == init[..i];
      ConfigCandidatesPrefix(page, init, i);
    } else {
      assert configs[..i] == configs;
    }
  }

  /** Trying `a` and then `b` leaves the elements as trying `a + b` does. */
  lemma {:induction false} AttemptAllAppend(before: seq<InputState>, els: seq<Element>, a: seq<Candidate>, b: seq<Candidate>, text: string)
    requires |before| == |els|
    ensures AttemptAll(before, els, a + b, text) == AttemptAll(AttemptAll(before, els, a, text), els, b, text)
    decreases |b|
  {
    if b == [] {
      assert a + b == a;
    } else {
      var init := b[..|b| - 1];
      assert (a + b)[..|a + b| - 1] == a + init;
      assert (a + b)[|a + b| - 1] == b[|b| - 1];
      AttemptAllAppend(before, els, a, init, text);
    }
  }

  /** Focusing the editable candidates of `a` and then those of `b` is focusing those of `a + b`. */
  lemma {:induction false} FocusAfterAppend(a: seq<Candidate>, b: seq<Candidate>, focus: Option<Element>)
    ensures FocusAfter(a + b, focus) == FocusAfter(b, FocusAfter(a, focus))
    decreases |b|
  {
    if b == [] {
      assert a + b == a;
    } else {
      var init := b[..|b| - 1];
      assert (a + b)[..|a + b| - 1] == a + init;
      assert (a + b)[|a + b| - 1] == b[|b| - 1];
      FocusAfterAppend(a, init, focus);
    }
  }

  /**
   * When none of `a` takes the text, trying `a` and then `b` is trying
   * `a + b`: the same candidates are tried, the elements end up the same
   * and so does the focus.
   */
  lemma Then(before: seq<InputState>, els: seq<Element>, a: seq<Candidate>, b: seq<Candidate>, text: string, focus: Option<Element>)
    requires |before| == |els|
    requires Target(a, text).None?
    ensures Tried(a + b, text) == a + Tried(b, text)
    ensures AttemptAll(AttemptAll(before, els, a, text), els, Tried(b, text), text) == AttemptAll(before, els, Tried(a + b, text), text)
    ensures FocusAfter(Tried(b, text), FocusAfter(a, focus)) == FocusAfter(Tried(a + b, text), focus)
  {
    TriedAfter(a, b, text);
    AttemptAllAppend(before, els, a, Tried(b, text), text);
    FocusAfterAppend(a, Tried(b, text), focus);
  }

  /** Behind candidates none of which takes the text, the candidates tried are all of those and the ones tried of the rest. */
  lemma TriedAfter(a: seq<Candidate>, b: seq<Candidate>, text: string)
    requires Target(a, text).None?
    ensures Tried(a + b, text) == a + Tried(b, text)
  {
    TargetAfter(a, b, text);
    match Target(b, text) {
      case None =>
      case Some(h) =>
        assert (a + b)[..|a| + h + 1] == a + b[..h + 1];
    }
  }

  /**
   * One more configured selector: when its matches hold the first taker,
   * that taker is the first in the whole configured list; otherwise the
   * longer prefix still holds none.
   */
  lemma ConfigStep(page: Page, configs: seq<Selector>, i: nat, text: string)
    requires i < |configs|
    requires Target(ConfigCandidates(page, configs[..i]), text).None?
    ensures var css := StrOf(configs[i].cssSelector);
      var block := Tagged(QueryOrEmpty(page, css), SelectorMessage(css));
      var cc := ConfigCandidates(page, configs);
      && (Target(block, text).None? ==> Target(ConfigCandidates(page, configs[..i + 1]), text).None?)
      && (Target(block, text).Some? ==>
            Target(cc, text).Some? && cc[Target(cc, text).value] == block[Target(block, text).value])
  {
    var css := StrOf(configs[i].cssSelector);
    var block := Tagged(QueryOrEmpty(page, css), SelectorMessage(css));
    var done := ConfigCandidates(page, configs[..i]);
    assert configs[..i + 1][..i] == configs[..i];
    assert ConfigCandidates(page, configs[..i + 1]) == done + block;
    TargetAfter(done, block, text);
    if Target(block, text).Some? {
      ConfigCandidatesPrefix(page, configs, i + 1);
      TargetPrefix(done + block, ConfigCandidates(page, configs), text);
      var h := Target(block, text).value;
      assert ConfigCandidates(page, configs)[|done| + h] == (done + block)[|done| + h];
    }
  }

  /** The candidates tried up to one more configured selector: up to the taker, or all of the longer prefix. */
  lemma ConfigStepTried(page: Page, configs: seq<Selector>, i: nat, text: string)
    requires i < |configs|
    requires Target(ConfigCandidates(page, configs[..i]), text).None?
    ensures var css := StrOf(configs[i].cssSelector);
      var block := Tagged(QueryOrEmpty(page, css), SelectorMessage(css));
      Tried(ConfigCandidates(page, configs[..i]) + block, text)
      == if Target(block, text).Some? then Tried(ConfigCandidates(page, configs), text) else ConfigCandidates(page, configs[..i + 1])
  {
    var css := StrOf(configs[i].cssSelector);
    var block := Tagged(QueryOrEmpty(page, css), SelectorMessage(css));
    var done := ConfigCandidates(page, configs[..i]);
    assert configs[..i + 1][..i] == configs[..i];
    assert ConfigCandidates(page, configs[..i + 1]) == done + block;
    TargetAfter(done, block, text);
    if Target(block, text).Some? {
      ConfigCandidatesPrefix(page, configs, i + 1);
      TriedPrefix(done + block, ConfigCandidates(page, configs), text);
    }
  }

  /** The elements and the focus after one more configured selector, as trying the candidates of `ConfigStep` leaves them. */
  lemma ConfigStepState(page: Page, configs: seq<Selector>, i: nat, text: string, before: seq<InputState>, focus: Option<Element>)
    requires i < |configs| && |before| == |page.elements|
    requires Target(ConfigCandidates(page, configs[..i]), text).None?
    ensures var css := StrOf(configs[i].cssSelector);
      var block := Tagged(QueryOrEmpty(page, css), SelectorMessage(css));
      var done := ConfigCandidates(page, configs[..i]);
      && AttemptAll(AttemptAll(before, page.elements, done, text), page.elements, Tried(block, text), text)
         == AttemptAll(before, page.elements, Tried(done + block, text), text)
      && FocusAfter(Tried(block, text), FocusAfter(done, focus)) == FocusAfter(Tried(done + block, text), focus)
  {
    var css := StrOf(configs[i].cssSelector);
    var block := Tagged(QueryOrEmpty(page, css), SelectorMessage(css));
    Then(before, page.elements, ConfigCandidates(page, configs[..i]), block, text, focus);
  }

  /** A taker among the configured matches is the target of the whole list, and nothing after it is tried. */
  lemma StageConfigs(page: Page, configs: seq<Selector>, text: string)
    requires Target(ConfigCandidates(page, configs), text).Some?
    ensures var cc := ConfigCandidates(page, configs);
      var k := Target(cc, text).value;
      Target(AllCandidates(page, configs), text) == Some(k) && AllCandidates(page, configs)[k] == cc[k]
      && Tried(AllCandidates(page, configs), text) == Tried(cc, text)
  {
    var cc := ConfigCandidates(page, configs);
    TargetInFront(cc, DefaultCandidates(page, FocusAfter(cc, page.active)), text);
  }

  /**
   * Failing those, the element the configured stage left focused is the
   * target when it accepts the text.
   */
  lemma StageActive(page: Page, configs: seq<Selector>, text: string)
    requires Target(ConfigCandidates(page, configs), text).None?
    requires var f := FocusAfter(ConfigCandidates(page, configs), page.active);
      f.Some? && Accepts(f.value) && text != ""
    ensures var cc := ConfigCandidates(page, configs);
      var k := |cc|;
      var a := Candidate(FocusAfter(cc, page.active).value, ActiveMessage);
      Target(AllCandidates(page, configs), text) == Some(k)
      && AllCandidates(page, configs)[k] == a
      && Tried(AllCandidates(page, configs), text) == cc + [a]
  {
    var cc := ConfigCandidates(page, configs);
    var f := FocusAfter(cc, page.active);
    var rest := DefaultCandidates(page, f);
    assert Target(ActiveCandidates(f), text) == Some(0);
    TargetInFront(ActiveCandidates(f), Tagged(PossibleEditable(page), AutoMessage), text);
    Then([], [], cc, rest, text, page.active);
    assert rest[..1] == [Candidate(f.value, ActiveMessage)];
  }

  /** Failing both, the first taker among the detected fields is the target, if there is one. */
  lemma StageDetected(page: Page, configs: seq<Selector>, text: string)
    requires Target(ConfigCandidates(page, configs), text).None?
    requires var f := FocusAfter(ConfigCandidates(page, configs), page.active);
      !(f.Some? && Accepts(f.value) && text != "")
    ensures var detected := Tagged(PossibleEditable(page), AutoMessage);
      Target(AllCandidates(page, configs), text).Some? <==> Target(detected, text).Some?
    ensures var detected := Tagged(PossibleEditable(page), AutoMessage);
      var cc := ConfigCandidates(page, configs);
      var all := AllCandidates(page, configs);
      Target(detected, text).Some? ==>
        Target(all, text).value == |cc| + |ActiveCandidates(FocusAfter(cc, page.active))| + Target(detected, text).value
        && all[Target(all, text).value] == detected[Target(detected, text).value]
  {
    var cc := ConfigCandidates(page, configs);
    var active := ActiveCandidates(FocusAfter(cc, page.active));
    var detected := Tagged(PossibleEditable(page), AutoMessage);
    assert Target(active, text).None?;
    TargetAfter(active, detected, text);
    TargetAfter(cc, active + detected, text);
    assert AllCandidates(page, configs) == cc + (active + detected);
  }

  /** A target in a prefix is the target of the whole list. */
  lemma TargetInFront(a: seq<Candidate>, b: seq<Candidate>, text: string)
    requires Target(a, text).Some?
    ensures Target(a + b, text) == Target(a, text)
    ensures (a + b)[Target(a, text).value] == a[Target(a, text).value]
    ensures Tried(a + b, text) == Tried(a, text)
  {
    TargetPrefix(a, a + b, text);
    var k := Target(a, text).value;
    assert (a + b)[..k + 1] == a[..k + 1];
  }

  /** Behind candidates none of which takes the text, the target is the target of the rest, shifted. */
  lemma TargetAfter(a: seq<Candidate>, b: seq<Candidate>, text: string)
    requires Target(a, text).None?
    ensures Target(a + b, text) ==
      match Target(b, text)
      case None => None
      case Some(h) => Some(|a| + h)
    ensures Target(b, text).Some? ==> (a + b)[|a| + Target(b, text).value] == b[Target(b, text).value]
    ensures Target(b, text).Some? ==> (a + b)[Target(a + b, text).value] == b[Target(b, text).value]
    ensures Report(a + b, text) == Report(b, text)
  {
    if text != "" {
      assert forall j :: 0 <= j < |a| ==> TakesText(a[j]) != true by {
        assert IndexOfKey(a, TakesText, true).None?;
      }
      IndexOfKeyAfter(a, b, TakesText, true);
      match IndexOfKey(b, TakesText, true)
      case None =>
      case Some(h) =>
        assert (a + b)[|a| + h] == b[h];
    }
  }

  /** When a prefix holds the target, the candidates tried are those of the prefix. */
  lemma TriedPrefix(a: seq<Candidate>, b: seq<Candidate>, text: string)
    requires a <= b
    requires Target(a, text).Some?
    ensures Tried(b, text) == Tried(a, text)
  {
    TargetPrefix(a, b, text);
    var k := Target(a, text).value;
    assert b[..k + 1] == a[..k + 1];
  }

  /** The target in a prefix is the target of the whole list. */
  lemma TargetPrefix(a: seq<Candidate>, b: seq<Candidate>, text: string)
    requires a <= b
    requires Target(a, text).Some?
    ensures Target(b, text) == Target(a, text)
  {
    IndexOfKeyPrefix(a, b, TakesText, true);
  }
}
