// Properties of the hardened content script: what a domain pattern
// matches, what sanitising removes, and the order of the loaded selectors.

module ContentFacts {
  import opened Seqs
  import opened Text
  import opened Records
  import opened Dom
  import opened Content
  import opened DomFacts

  predicate NoStar(p: string)
  {
    forall i :: 0 <= i < |p| ==> p[i] != '*'
  }

  /** Without a `*` a pattern matches exactly itself. */
  lemma {:induction false} GlobLiteral(p: string, s: string)
    requires NoStar(p)
    ensures Glob(p, s) <==> p == s
    decreases |p|
  {
    if p != [] && s != [] {
      assert NoStar(p[1..]) by {
        forall i | 0 <= i < |p[1..]| ensures p[1..][i] != '*' { assert p[1..][i] == p[i + 1]; }
      }
      GlobLiteral(p[1..], s[1..]);
      if p[0] == s[0] && p[1..] == s[1..] {
        assert p == [p[0]] + p[1..] && s == [s[0]] + s[1..];
      }
    }
  }

  /** A leading `*` followed by literal text matches exactly the strings that end with that text. */
  lemma {:induction false} GlobStarSuffix(q: string, s: string)
    requires NoStar(q)
    ensures Glob(['*'] + q, s) <==> |q| <= |s| && s[|s| - |q|..] == q
    decreases |s|
  {
    var p := ['*'] + q;
    assert p[1..] == q;
    GlobLiteral(q, s);
    if s != [] {
      GlobStarSuffix(q, s[1..]);
      if |q| <= |s| - 1 {
        assert s[1..][|s[1..]| - |q|..] == s[|s| - |q|..];
      }
    }
  }

  predicate LowerChars(s: string)
  {
    forall i :: 0 <= i < |s| ==> !('A' <= s[i] <= 'Z')
  }

  lemma ToLowerKeepsLower(s: string)
    requires LowerChars(s)
    ensures ToLower(s) == s
  {
  }

  lemma ToLowerIdempotent(s: string)
    ensures ToLower(ToLower(s)) == ToLower(s)
  {
  }

  /** Matching ignores case on both sides. */
  lemma {:induction false} DomainMatchesIgnoresCase(domain: string, pattern: string)
    ensures DomainMatches(domain, Str(pattern)) == DomainMatches(ToLower(domain), Str(ToLower(pattern)))
  {
    ToLowerIdempotent(domain);
    ToLowerIdempotent(pattern);
    assert (domain == "") == (ToLower(domain) == "");
    assert (pattern == "") == (ToLower(pattern) == "");
  }

  /** `*.x.com` covers the subdomains of x.com but not x.com itself. */
  lemma {:induction false} WildcardSubdomain()
    ensures DomainMatches("a.x.com", Str("*.x.com"))
    ensures !DomainMatches("x.com", Str("*.x.com"))
  {
    var q := ".x.com";
    assert NoStar(q);
    assert "*.x.com" == ['*'] + q;
    ToLowerKeepsLower("*.x.com");
    ToLowerKeepsLower("a.x.com");
    ToLowerKeepsLower("x.com");
    GlobStarSuffix(q, "a.x.com");
    assert "a.x.com"[1..] == q;
    GlobStarSuffix(q, "x.com");
  }

  /** Sanitising leaves no control character, and keeps every other character in order. */
  lemma {:induction false} StripControlFacts(s: string)
    ensures forall i :: 0 <= i < |StripControl(s)| ==> !IsControl(StripControl(s)[i])
    ensures forall i :: 0 <= i < |s| && !IsControl(s[i]) ==> s[i] in StripControl(s)
    ensures Sublist(StripControl(s), s)
  {
    FilterSublist(s, (c: char) => !IsControl(c));
  }

  /** Tab, line feed and carriage return are kept, NUL and DEL are removed. */
  lemma WhitespaceControlsKept()
    ensures !IsControl('\t') && !IsControl('\n') && !IsControl('\r')
    ensures IsControl(0 as char) && IsControl(0x7F as char)
  {
  }

  /** Text free of control characters is inserted unchanged. */
  lemma {:induction false} CleanTextUnchanged(s: string)
    requires forall i :: 0 <= i < |s| ==> !IsControl(s[i])
    ensures StripControl(s) == s
  {
    FilterKeepsAll(s, (c: char) => !IsControl(c));
  }

  lemma {:induction false} StripControlIdempotent(s: string)
    ensures StripControl(StripControl(s)) == StripControl(s)
  {
    StripControlFacts(s);
    CleanTextUnchanged(StripControl(s));
  }

  /**
   * Text made only of control characters is empty after sanitising, so no
   * field takes it and the script reports that none was found.
   */
  lemma {:induction false} ControlOnlyNeverInserted(page: Page, configs: seq<Selector>, s: string, before: seq<InputState>)
    requires forall i :: 0 <= i < |s| ==> IsControl(s[i])
    requires |before| == |page.elements|
    ensures StripControl(s) == ""
    ensures Report(AllCandidates(page, configs), StripControl(s)) == Insertion(false, NoTargetMessage)
    ensures AttemptAll(before, page.elements, Tried(AllCandidates(page, configs), StripControl(s)), StripControl(s)) == before
  {
    FilterEmpty(s, (c: char) => !IsControl(c));
    var all := AllCandidates(page, configs);
    forall i | 0 <= i < |page.elements|
      ensures AttemptAll(before, page.elements, all, "")[i] == before[i]
    {
      AttemptAllKeeps(before, page.elements, all, "", i);
    }
  }

  /** An editable focused element wins whenever there are no configured selectors for the page. */
  lemma ActiveWinsWithoutConfigs(page: Page, text: string)
    requires page.active.Some? && Accepts(page.active.value) && text != ""
    ensures Target(AllCandidates(page, []), text) == Some(0)
    ensures AllCandidates(page, [])[0] == Candidate(page.active.value, ActiveMessage)
    ensures Report(AllCandidates(page, []), text) == Insertion(true, ActiveMessage)
  {
    assert ConfigCandidates(page, []) == [];
    StageActive(page, [], text);
  }

  // ---------------------------------------------------------------------
  // What the attempts leave behind

  /** An element that none of the candidates writes into keeps its state. */
  lemma {:induction false} AttemptAllKeeps(before: seq<InputState>, els: seq<Element>, cands: seq<Candidate>, text: string, i: nat)
    requires |before| == |els| && i < |els|
    requires forall j :: 0 <= j < |cands| && cands[j].e == els[i] ==> text == "" || !Writes(els[i])
    ensures AttemptAll(before, els, cands, text)[i] == before[i]
    decreases |cands|
  {
    if cands != [] {
      var init := cands[..|cands| - 1];
      assert forall j :: 0 <= j < |init| ==> init[j] == cands[j];
      AttemptAllKeeps(before, els, init, text, i);
    }
  }

  /**
   * When none of the candidates before the target is written into (none of
   * them is an email input), the target is the only element that changes,
   * and it changes as one attempt on it does.
   */
  lemma TargetAloneChanges(before: seq<InputState>, els: seq<Element>, cands: seq<Candidate>, text: string)
    requires |before| == |els|
    requires Target(cands, text).Some?
    requires forall j :: 0 <= j < Target(cands, text).value ==> !Writes(cands[j].e)
    ensures AttemptAll(before, els, Tried(cands, text), text)
      == AttemptIn(before, els, cands[Target(cands, text).value].e, text)
  {
    var k := Target(cands, text).value;
    var pre := cands[..k];
    assert cands[..k + 1][..k] == pre;
    assert cands[..k + 1][k] == cands[k];
    forall i | 0 <= i < |els|
      ensures AttemptAll(before, els, pre, text)[i] == before[i]
    {
      AttemptAllKeeps(before, els, pre, text, i);
    }
  }

  /**
   * When no candidate takes the text, the elements that changed are among
   * the email inputs that were tried: every other element keeps its state.
   */
  lemma FailedRunWritesOnlyEmails(before: seq<InputState>, els: seq<Element>, cands: seq<Candidate>, text: string, i: nat)
    requires |before| == |els| && i < |els|
    requires Target(cands, text).None?
    requires !(Writes(els[i]) && !Accepts(els[i]))
    ensures AttemptAll(before, els, Tried(cands, text), text)[i] == before[i]
  {
    if text != "" {
      forall j | 0 <= j < |cands| && cands[j].e == els[i]
        ensures !Writes(els[i])
      {
        assert !TakesText(cands[j]);
      }
    }
    AttemptAllKeeps(before, els, cands, text, i);
  }

  /**
   * An email input that is the only match of the configured selectors is
   * written and fails; the script has focused it, so the default approach
   * tries it again as the focused element: it holds the text in front
   * twice, and the run goes on to the detected fields.
   */
  lemma EmailWrittenTwice(page: Page, configs: seq<Selector>, text: string, m: string, before: seq<InputState>, i: nat)
    requires |before| == |page.elements| && i < |page.elements| && text != ""
    requires ConfigCandidates(page, configs) == [Candidate(page.elements[i], m)]
    requires Writes(page.elements[i]) && !Accepts(page.elements[i])
    ensures var all := AllCandidates(page, configs);
      && FocusAfter(ConfigCandidates(page, configs), page.active) == Some(page.elements[i])
      && all[..2] == [Candidate(page.elements[i], m), Candidate(page.elements[i], ActiveMessage)]
      && |Tried(all, text)| >= 2 && Tried(all, text)[..2] == all[..2]
      && AttemptAll(before, page.elements, all[..2], text)[i].value == text + text + before[i].value
  {
    var e := page.elements[i];
    var all := AllCandidates(page, configs);
    var cc := ConfigCandidates(page, configs);
    assert cc[..0] == [];
    assert FocusAfter(cc, page.active) == Some(e);
    assert all[0] == Candidate(e, m) && all[1] == Candidate(e, ActiveMessage);
    assert all[..2] == [all[0], all[1]];
    TwoFailedAttempts(before, page.elements, all[0], all[1], text, i);
    TriedPastFailures(all, text);
  }

  /** Two attempts on an element that is written and fails put the text in front of its value twice. */
  lemma TwoFailedAttempts(before: seq<InputState>, els: seq<Element>, c1: Candidate, c2: Candidate, text: string, i: nat)
    requires |before| == |els| && i < |els| && text != ""
    requires c1.e == c2.e == els[i] && Writes(els[i]) && !Accepts(els[i])
    ensures AttemptAll(before, els, [c1, c2], text)[i].value == text + text + before[i].value
  {
    assert [c1, c2][..1] == [c1] && [c1][..0] == [];
    assert AttemptAll(before, els, [c1][..0], text) == before;
    var s1 := AttemptAll(before, els, [c1], text);
    assert s1 == AttemptIn(before, els, c1.e, text);
    assert !HasSelection(els[i]);
    assert s1[i] == AfterFailedInsert(before[i], text);
    FailedInsertPrepends(before[i], text);
  }

  /** When the first two candidates do not accept the text, both are tried. */
  lemma TriedPastFailures(all: seq<Candidate>, text: string)
    requires |all| >= 2 && !Accepts(all[0].e) && !Accepts(all[1].e)
    ensures |Tried(all, text)| >= 2 && Tried(all, text)[..2] == all[..2]
  {
    match Target(all, text) {
      case None =>
      case Some(k) =>
        assert !TakesText(all[0]) && !TakesText(all[1]);
        assert k >= 2;
    }
  }

  /**
   * The loaded selectors are the usable entries rearranged, highest rank
   * first, and entries of equal rank keep their stored order.
   */
  lemma {:induction false} LoadedSelectorsOrder(stored: Arr<Option<Selector>>, k: int)
    ensures var usable := Usable(if stored.JsArray? then stored.items else []);
      SortedDesc(LoadedSelectors(stored), Rank)
      && multiset(LoadedSelectors(stored)) == multiset(usable)
      && Filter(LoadedSelectors(stored), KeyIs(Rank, k)) == Filter(usable, KeyIs(Rank, k))
  {
    var usable := Usable(if stored.JsArray? then stored.items else []);
    SortDescSorted(usable, Rank);
    SortDescStable(usable, Rank, k);
  }

  /** A priority the sort replaces by 10: missing, zero or not a number. */
  predicate NoPriority(p: Priority)
  {
    p.Unset? || p.NaN? || p == Num(0)
  }

  /**
   * Among the loaded selectors, one without a priority sits where a
   * selector of priority 10 would: after every selector of a priority
   * above 10 and before every selector of a (non-zero) priority below 10.
   */
  lemma DefaultPriorityPlacement(stored: Arr<Option<Selector>>, i: nat, j: nat)
    requires i < |LoadedSelectors(stored)| && j < |LoadedSelectors(stored)|
    requires NoPriority(LoadedSelectors(stored)[i].priority)
    requires LoadedSelectors(stored)[j].priority.Num? && LoadedSelectors(stored)[j].priority.n != 0
    ensures LoadedSelectors(stored)[j].priority.n > 10 ==> j < i
    ensures LoadedSelectors(stored)[j].priority.n < 10 ==> i < j
  {
    var loaded := LoadedSelectors(stored);
    SortDescSorted(Usable(if stored.JsArray? then stored.items else []), Rank);
    assert Rank(loaded[i]) == 10;
    assert Rank(loaded[j]) == loaded[j].priority.n;
    if j < i {
      assert Rank(loaded[j]) >= Rank(loaded[i]);
    }
    if i < j {
      assert Rank(loaded[i]) >= Rank(loaded[j]);
    }
  }

  /** The selectors that match a page keep the loaded order, so the highest rank is tried first. */
  lemma {:induction false} MatchesKeepPriority(script: ContentScript, domain: string)
    requires SortedDesc(script.domainSelectors, Rank)
    ensures SortedDesc(script.FindMatchingDomainConfigs(domain), Rank)
  {
    if domain != "" {
      FilterSortedDesc(script.domainSelectors, PatternMatches(domain), Rank);
    }
  }
}
