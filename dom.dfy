// The part of the page the content scripts touch: elements with a tag, an
// input type, an editable flag and (for inputs and textareas) a value with a
// selection; and the page that answers querySelectorAll. Which elements a
// CSS selector matches, and whether the browser parses the selector at all,
// are parameters of the page.

module Dom {
  import opened Seqs

  class Element {
    const tagName: string
    /** `element.type` of an INPUT, as the browser reports it (lower case). */
    const inputType: string
    const isContentEditable: bool
    /** The computed-style and size test of findPossibleEditableElements. */
    const visible: bool
    /** Whether execCommand or the Selection fallback of the original script succeeds on this element. */
    const richTextAccepts: bool
    var value: string
    /** `selectionStart` and `selectionEnd`; 0 stands for both 0 and null (both falsy). */
    var selectionStart: nat
    var selectionEnd: nat

    constructor(tagName: string, inputType: string, isContentEditable: bool, visible: bool,
                richTextAccepts: bool, value: string, selectionStart: nat, selectionEnd: nat)
      ensures this.tagName == tagName && this.inputType == inputType
      ensures this.isContentEditable == isContentEditable && this.visible == visible
      ensures this.richTextAccepts == richTextAccepts
      ensures this.value == value && this.selectionStart == selectionStart && this.selectionEnd == selectionEnd
    {
      this.tagName := tagName;
      this.inputType := inputType;
      this.isContentEditable := isContentEditable;
      this.visible := visible;
      this.richTextAccepts := richTextAccepts;
      this.value := value;
      this.selectionStart := selectionStart;
      this.selectionEnd := selectionEnd;
    }
  }

  /**
   * A page: its elements in document order, the focused element, which
   * elements a selector matches, and which selector strings parse.
   */
  datatype Page = Page(elements: seq<Element>, active: Option<Element>,
                       matches: (string, Element) -> bool, parses: string -> bool)

  /** The elements of `els` the selector matches, in order. */
  function Matching(page: Page, selector: string, els: seq<Element>): (r: seq<Element>)
    ensures forall i :: 0 <= i < |r| ==> r[i] in els && page.matches(selector, r[i])
    decreases |els|
  {
    if els == [] then []
    else
      var last := els[|els| - 1];
      Matching(page, selector, els[..|els| - 1]) + (if page.matches(selector, last) then [last] else [])
  }

  /** document.querySelectorAll: the matching elements in document order; None when the selector does not parse (it throws). */
  function Query(page: Page, selector: string): (r: Option<seq<Element>>)
    ensures r.Some? ==> forall i :: 0 <= i < |r.value| ==> r.value[i] in page.elements
    ensures r.None? <==> !page.parses(selector)
  {
    if !page.parses(selector) then None
    else Some(Matching(page, selector, page.elements))
  }

  /** The input types the hardened script writes into. */
  predicate TextualType(t: string)
  {
    t == "text" || t == "search" || t == "email" || t == "password" || t == "tel" || t == "url"
  }

  /** isEditableElement of the hardened script. */
  predicate IsEditable(e: Element)
  {
    e.isContentEditable || e.tagName == "TEXTAREA" || (e.tagName == "INPUT" && TextualType(e.inputType))
  }

  /** isEditableElement of the original script: only INPUTs of type text. */
  predicate LegacyEditable(e: Element)
  {
    e.isContentEditable || e.tagName == "TEXTAREA" || (e.tagName == "INPUT" && e.inputType == "text")
  }

  /** `value.substring(0, start) + text + value.substring(end)`; substring clamps both bounds to the length. */
  function Splice(v: string, start: nat, end: nat, text: string): (r: string)
    ensures |r| == Min(start, |v|) + |text| + (|v| - Min(end, |v|))
    ensures r[..Min(start, |v|)] == v[..Min(start, |v|)]
    ensures r[Min(start, |v|)..Min(start, |v|) + |text|] == text
  {
    var a := Min(start, |v|);
    var r := v[..a] + text + v[Min(end, |v|)..];
    assert r[..a] == v[..a];
    assert r[a..a + |text|] == text;
    r
  }

  /** The caret after setting it to `start + text.length`: the browser clamps it to the new length. */
  function Caret(start: nat, text: string, newValue: string): nat
  {
    Min(start + |text|, |newValue|)
  }

  /**
   * The inputs whose selection the browser exposes: a textarea, and an
   * input of a type with a selection API. On an email input
   * `selectionStart` and `selectionEnd` read as null and
   * `setSelectionRange` throws.
   */
  predicate HasSelection(e: Element)
  {
    e.tagName == "TEXTAREA" ||
    (e.tagName == "INPUT" && (e.inputType == "text" || e.inputType == "search" || e.inputType == "password"
                              || e.inputType == "tel" || e.inputType == "url"))
  }

  /**
   * insertIntoInputElement of the hardened script: refuses empty text.
   * Otherwise it replaces the selection (`selectionStart || 0` to
   * `selectionEnd || 0`) with the text and puts the caret after it; on an
   * input without a selection API both ends read as 0, so the text is
   * written in front of the value, and then setting the caret throws: the
   * value stays written, the selection does not move, and the result is
   * false.
   */
  method InsertIntoInputElement(e: Element, text: string) returns (ok: bool)
    modifies e
    ensures ok <==> text != "" && HasSelection(e)
    ensures text == "" ==> unchanged(e)
    ensures text != "" && HasSelection(e) ==> StateOf(e) == AfterInsert(old(StateOf(e)), text)
    ensures text != "" && !HasSelection(e) ==> StateOf(e) == AfterFailedInsert(old(StateOf(e)), text)
  {
    if text == "" {
      return false;
    }
    var startPos := if HasSelection(e) then e.selectionStart else 0;
    var endPos := if HasSelection(e) then e.selectionEnd else 0;
    var newValue := Splice(e.value, startPos, endPos, text);
    e.value := newValue;
    if !HasSelection(e) {
      return false;
    }
    var caret := Caret(startPos, text, newValue);
    e.selectionStart := caret;
    e.selectionEnd := caret;
    ok := true;
  }

  /** insertIntoInputElement of the original script: always succeeds, also for empty text. */
  method LegacyInsertIntoInputElement(e: Element, text: string) returns (ok: bool)
    modifies e
    ensures ok
    ensures StateOf(e) == LegacyAfterInsert(old(StateOf(e)), text)
  {
    var startPos := e.selectionStart;
    var endPos := if e.selectionEnd != 0 then e.selectionEnd else startPos;
    var newValue := Splice(e.value, startPos, endPos, text);
    e.value := newValue;
    var caret := Caret(startPos, text, newValue);
    e.selectionStart := caret;
    e.selectionEnd := caret;
    ok := true;
  }

/** The editable state of an input or textarea: its value and its selection. */
  datatype InputState = InputState(value: string, start: nat, end: nat)

  function StateOf(e: Element): InputState
    reads e
  {
    InputState(e.value, e.selectionStart, e.selectionEnd)
  }

  /**
   * The state after the hardened script replaced the selection with `text`
   * and moved the caret behind it; a falsy `selectionEnd` counts as 0.
   */
  function AfterInsert(s: InputState, text: string): (r: InputState)
    ensures r.start == r.end <= |r.value|
  {
    var v := Splice(s.value, s.start, s.end, text);
    var c := Caret(s.start, text, v);
    InputState(v, c, c)
  }

  /** The state after the original script did the same; a falsy `selectionEnd` counts as the start. */
  function LegacyAfterInsert(s: InputState, text: string): (r: InputState)
    ensures r.start == r.end <= |r.value|
  {
    var end := if s.end != 0 then s.end else s.start;
    var v := Splice(s.value, s.start, end, text);
    var c := Caret(s.start, text, v);
    InputState(v, c, c)
  }

  /** The state after the hardened script wrote `text` into an input without a selection API and failed to set the caret. */
  function AfterFailedInsert(s: InputState, text: string): InputState
  {
    InputState(Splice(s.value, 0, 0, text), s.start, s.end)
  }

  /** The elements an attempt of the hardened script writes a value into: editable inputs and textareas. */
  predicate Writes(e: Element)
  {
    IsEditable(e) && !e.isContentEditable
  }

  /** The elements on which an attempt with non-empty text succeeds. */
  predicate Accepts(e: Element)
  {
    IsEditable(e) && (e.isContentEditable || HasSelection(e))
  }

  /**
   * The state of `e` after one attempt of the hardened script: a
   * contentEditable element is left as it is in this model (its DOM is not
   * modelled), an input or textarea takes the text, or has it written in
   * front when it lacks a selection API; nothing happens for empty text or
   * an element that is not editable.
   */
  function Attempt(s: InputState, e: Element, text: string): InputState
  {
    if text == "" || !Writes(e) then s
    else if HasSelection(e) then AfterInsert(s, text)
    else AfterFailedInsert(s, text)
  }

  /** The editable state of each element of `els`. */
  ghost function Snapshot(els: seq<Element>): (r: seq<InputState>)
    reads els
    ensures |r| == |els|
    ensures forall i :: 0 <= i < |els| ==> r[i] == StateOf(els[i])
  {
    seq(|els|, i requires 0 <= i < |els| reads els => StateOf(els[i]))
  }

  /** The states `before` of `els` after one attempt on `t`: only `t` may change. */
  function AttemptIn(before: seq<InputState>, els: seq<Element>, t: Element, text: string): (r: seq<InputState>)
    requires |before| == |els|
    ensures |r| == |els|
    ensures forall i :: 0 <= i < |els| && els[i] != t ==> r[i] == before[i]
    ensures forall i :: 0 <= i < |els| && els[i] == t ==> r[i] == Attempt(before[i], t, text)
  {
    seq(|els|, i requires 0 <= i < |els| => if els[i] == t then Attempt(before[i], t, text) else before[i])
  }

  /**
   * One attempt of the hardened script on an element: an editable element
   * takes non-empty text (a contentEditable one through the DOM, which is
   * not modelled, an input or textarea through the splice), except that an
   * input without a selection API is written and still fails; nothing else
   * is tried.
   */
  method TryInsert(e: Element, text: string) returns (ok: bool)
    modifies e
    ensures ok <==> Accepts(e) && text != ""
    ensures StateOf(e) == Attempt(old(StateOf(e)), e, text)
  {
    if !IsEditable(e) {
      return false;
    }
    if e.isContentEditable {
      ok := text != "";
    } else {
      ok := InsertIntoInputElement(e, text);
    }
  }

  /** None of the elements `els` changed. */
  twostate predicate Untouched(els: seq<Element>)
    reads els
  {
    Snapshot(els) == old(Snapshot(els))
  }

  /** One attempt of the hardened script, seen from the elements `els` of the page the element belongs to. */
  method TryInsertAmong(e: Element, text: string, ghost els: seq<Element>) returns (ok: bool)
    requires e in els
    modifies e
    ensures ok <==> Accepts(e) && text != ""
    ensures Snapshot(els) == AttemptIn(old(Snapshot(els)), els, e, text)
  {
    ghost var before := Snapshot(els);
    ok := TryInsert(e, text);
    forall j | 0 <= j < |els|
      ensures Snapshot(els)[j] == AttemptIn(before, els, e, text)[j]
    {
    }
  }
}

// Properties of the element operations.
module DomFacts {
  import opened Seqs
  import opened Dom

  /**
   * For a selection inside the value both scripts replace exactly the
   * selected range, and the caret lands right after the inserted text.
   */
  lemma SpliceReplacesSelection(v: string, start: nat, end: nat, text: string)
    requires start <= end <= |v|
    ensures Splice(v, start, end, text) == v[..start] + text + v[end..]
    ensures |Splice(v, start, end, text)| == |v| - (end - start) + |text|
    ensures Caret(start, text, Splice(v, start, end, text)) == start + |text|
    ensures Splice(v, start, end, text)[start..start + |text|] == text
  {
  }

  /**
   * A browser reports a selection with `selectionStart <= selectionEnd`, and
   * an end of 0 only together with a start of 0. On such a selection the
   * two defaults for a falsy end agree, so the two scripts leave the same
   * state behind whenever both write.
   */
  lemma ScriptsAgreeOnOrderedSelection(s: InputState, text: string)
    requires s.start <= s.end
    ensures AfterInsert(s, text) == LegacyAfterInsert(s, text)
  {
  }

  /**
   * An input without a selection API gets the text in front of its value
   * on every attempt: two failed attempts put it there twice, and the
   * selection is never moved.
   */
  lemma {:induction false} FailedInsertPrepends(s: InputState, text: string)
    ensures AfterFailedInsert(s, text).value == text + s.value
    ensures AfterFailedInsert(AfterFailedInsert(s, text), text).value == text + text + s.value
    ensures AfterFailedInsert(s, text).start == s.start && AfterFailedInsert(s, text).end == s.end
  {
    assert Splice(s.value, 0, 0, text) == s.value[..0] + text + s.value[0..];
    assert s.value[..0] == [] && s.value[0..] == s.value;
    var v := text + s.value;
    assert Splice(v, 0, 0, text) == v[..0] + text + v[0..];
    assert v[..0] == [] && v[0..] == v;
  }

  /**
   * An attempt changes the state only of an editable input or textarea and
   * only for non-empty text; it succeeds exactly on the elements that do
   * not leave a failed write behind.
   */
  lemma AttemptChanges(s: InputState, e: Element, text: string)
    ensures text == "" || !Writes(e) ==> Attempt(s, e, text) == s
    ensures text != "" && Writes(e) && Accepts(e) ==> Attempt(s, e, text) == AfterInsert(s, text)
    ensures text != "" && Writes(e) && !Accepts(e) ==> Attempt(s, e, text).value == text + s.value
  {
    if text != "" && Writes(e) && !Accepts(e) {
      FailedInsertPrepends(s, text);
    }
  }

  /** The inputs that are written and still fail are exactly the editable email inputs. */
  lemma EmailIsWrittenButFails(e: Element)
    ensures Writes(e) && !Accepts(e) <==> !e.isContentEditable && e.tagName == "INPUT" && e.inputType == "email"
  {
  }

  /** Every element the original script writes into, the hardened one writes into too. */
  lemma LegacyEditableIsEditable(e: Element)
    ensures LegacyEditable(e) ==> IsEditable(e)
    ensures (e.tagName == "INPUT" && e.inputType == "email" && !e.isContentEditable) ==> IsEditable(e) && !LegacyEditable(e)
  {
  }
}
