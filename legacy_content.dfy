// The original content script: it writes into the focused element when
// that element is editable, and otherwise into the first editable element
// among the rich-text fields, the textareas and the text inputs of the page.
// Unlike the hardened script it does not sanitise the text, accepts empty
// text, and stops at the first editable element whatever that attempt
// returns.

module LegacyContent {
  import opened Seqs
  import opened Dom

  /** The three selectors of findPossibleEditableElements, in the order their matches are combined. */
  function LegacySelectors(): seq<string>
  {
    ["[contenteditable=\"true\"]", "textarea", "input[type=\"text\"]"]
  }

  /**
   * findPossibleEditableElements of the original script: the matches of
   * each selector in document order, concatenated, duplicates and hidden
   * elements included. The selectors are fixed and valid, so the query
   * never throws.
   */
  function LegacyPossible(page: Page): (r: seq<Element>)
    ensures forall i :: 0 <= i < |r| ==> r[i] in page.elements
  {
    var s := LegacySelectors();
    Matching(page, s[0], page.elements) + Matching(page, s[1], page.elements) + Matching(page, s[2], page.elements)
  }

  function IsLegacyEditable(e: Element): bool
  {
    LegacyEditable(e)
  }

  /**
   * The element whose attempt decides the result: the focused element when
   * it is editable, otherwise the first editable element found.
   */
  function LegacyTarget(page: Page): (r: Option<Element>)
    ensures r.Some? ==> LegacyEditable(r.value)
    ensures r.Some? ==> Some(r.value) == page.active || r.value in LegacyPossible(page)
    ensures page.active.Some? && LegacyEditable(page.active.value) ==> r == page.active
    ensures r.None? <==> !(page.active.Some? && LegacyEditable(page.active.value))
                         && forall i :: 0 <= i < |LegacyPossible(page)| ==> !LegacyEditable(LegacyPossible(page)[i])
  {
    if page.active.Some? && LegacyEditable(page.active.value) then page.active
    else
      match IndexOfKey(LegacyPossible(page), IsLegacyEditable, true)
      case None => None
      case Some(k) => Some(LegacyPossible(page)[k])
  }

  /** The states `before` of `els` after the original script wrote `text` into `t`. */
  function LegacyAfterInto(before: seq<InputState>, els: seq<Element>, t: Element, text: string): (r: seq<InputState>)
    requires |before| == |els|
    ensures |r| == |els|
    ensures forall i :: 0 <= i < |els| && els[i] != t ==> r[i] == before[i]
    ensures forall i :: 0 <= i < |els| && els[i] == t ==>
      r[i] == if t.isContentEditable then before[i] else LegacyAfterInsert(before[i], text)
  {
    seq(|els|, i requires 0 <= i < |els| =>
      if els[i] == t && !t.isContentEditable then LegacyAfterInsert(before[i], text) else before[i])
  }

  /** Of the elements `els`, only `t` changed, and it took `text` the way the original script writes it. */
  twostate predicate LegacyOnlyInserted(els: seq<Element>, t: Element, text: string)
    reads els
  {
    Snapshot(els) == LegacyAfterInto(old(Snapshot(els)), els, t, text)
  }

  /**
   * The result of insertTextAtCursor: false with nothing changed when no
   * element is editable; otherwise the deciding element took the text, and
   * the result is whether that one attempt succeeded (a rich-text field
   * may refuse it, an input or textarea never does).
   */
  twostate predicate LegacyOutcome(page: Page, text: string, ok: bool)
    reads page.elements
  {
    match LegacyTarget(page)
    case None => !ok && Untouched(page.elements)
    case Some(t) =>
      ok == (!t.isContentEditable || t.richTextAccepts) && LegacyOnlyInserted(page.elements, t, text)
  }

  /** One attempt on an editable element: insertIntoContentEditable or insertIntoInputElement. */
  method LegacyTryElement(e: Element, text: string, ghost els: seq<Element>) returns (ok: bool)
    requires e in els && LegacyEditable(e)
    modifies e
    ensures ok == (!e.isContentEditable || e.richTextAccepts)
    ensures LegacyOnlyInserted(els, e, text)
  {
    ghost var before := Snapshot(els);
    if e.isContentEditable {
      ok := e.richTextAccepts;
    } else {
      ok := LegacyInsertIntoInputElement(e, text);
    }
    forall j | 0 <= j < |els|
      ensures Snapshot(els)[j] == LegacyAfterInto(before, els, e, text)[j]
    {
    }
  }

  /** The loop of findPossibleEditableElements. */
  method LegacyFindPossibleEditableElements(page: Page) returns (r: seq<Element>)
    ensures r == LegacyPossible(page)
  {
    var contentEditables := Matching(page, "[contenteditable=\"true\"]", page.elements);
    var textareas := Matching(page, "textarea", page.elements);
    var inputs := Matching(page, "input[type=\"text\"]", page.elements);
    r := contentEditables + textareas + inputs;
  }

  /**
   * insertTextAtCursor of the original script: the focused element when it
   * is editable, else the first editable element found; the first such
   * attempt decides the result, and no later element is tried.
   */
  method LegacyInsertTextAtCursor(page: Page, text: string) returns (ok: bool)
    requires page.active.Some? ==> page.active.value in page.elements
    modifies page.elements
    ensures LegacyOutcome(page, text, ok)
  {
    if page.active.Some? && LegacyEditable(page.active.value) {
      ok := LegacyTryElement(page.active.value, text, page.elements);
      return;
    }
    var possible := LegacyFindPossibleEditableElements(page);
    var found := FirstIndexOfKey(possible, IsLegacyEditable, true);
    if found.None? {
      return false;
    }
    ok := LegacyTryElement(possible[found.value], text, page.elements);
  }
}

// Properties of the original content script.
module LegacyContentFacts {
  import opened Seqs
  import opened Dom
  import opened LegacyContent

  /**
   * When the focused element is not editable, the deciding element is the
   * first editable one found, and every element found before it is not
   * editable.
   */
  lemma {:induction false} FallbackIsFirstEditable(page: Page, k: nat)
    requires page.active.None? || !LegacyEditable(page.active.value)
    requires k < |LegacyPossible(page)| && LegacyEditable(LegacyPossible(page)[k])
    requires forall j :: 0 <= j < k ==> !LegacyEditable(LegacyPossible(page)[j])
    ensures LegacyTarget(page) == Some(LegacyPossible(page)[k])
  {
    assert IsLegacyEditable(LegacyPossible(page)[k]);
  }

  /**
   * With empty text the original script still reports success on an input
   * and deletes the selected characters: "abc" with "b" selected becomes
   * "ac" and the caret sits where the selection began.
   */
  lemma EmptyTextDeletesSelection()
    ensures LegacyAfterInsert(InputState("abc", 1, 2), "") == InputState("ac", 1, 1)
  {
    assert Splice("abc", 1, 2, "") == "a" + "c";
  }

  /**
   * For a selection inside the value the original script replaces exactly
   * the selection and puts the caret after the text; a collapsed selection
   * (end 0) is an insertion at the start position.
   */
  lemma LegacyAfterReplacesSelection(s: InputState, text: string)
    requires s.start <= s.end <= |s.value| && s.end != 0
    ensures LegacyAfterInsert(s, text).value == s.value[..s.start] + text + s.value[s.end..]
    ensures LegacyAfterInsert(s, text).start == s.start + |text|
  {
  }

  lemma LegacyCollapsedInsertsAtStart(s: InputState, text: string)
    requires s.end == 0 && s.start <= |s.value|
    ensures LegacyAfterInsert(s, text).value == s.value[..s.start] + text + s.value[s.start..]
    ensures LegacyAfterInsert(s, text).start == s.start + |text|
  {
  }
}
