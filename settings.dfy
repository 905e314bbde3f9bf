// The settings page: the list of domain-specific selector configurations
// stored under `domainSelectors`, the form that adds or edits one, deletion,
// the built-in defaults, and the list shown highest priority first.
// Dialogs and the confirmation prompt are parameters.

module Settings {
  import opened Seqs
  import opened Text
  import opened Records

  /** The raw values of the configuration form. */
  datatype FormFields = FormFields(id: string, pattern: string, css: string, priority: string)

  /** `String(n)` for an integer. */
  function IntToString(n: int): string
  {
    if n < 0 then "-" + NatToString(-n) else NatToString(n)
  }

  /**
   * The submit handler up to the save: trims the pattern and the selector,
   * parses the priority; an empty pattern or selector, or a NaN priority,
   * stops here; a blank id becomes `selector_` followed by the time.
   */
  function FormConfig(f: FormFields, now: nat): Option<Selector>
  {
    var pattern := Trim(f.pattern);
    var css := Trim(f.css);
    var priority := ParseInt(f.priority);
    if pattern == "" || css == "" || priority.None? then None
    else
      var id := if f.id != "" then f.id else "selector_" + NatToString(now);
      Some(Selector(Str(id), Str(pattern), Str(css), Num(priority.value)))
  }

  /** editSelectorConfig: the form filled from a stored configuration. */
  function EditForm(c: Selector): FormFields
  {
    var priority := match c.priority case Num(n) => IntToString(n) case _ => "";
    FormFields(StrOf(c.id), StrOf(c.domainPattern), StrOf(c.cssSelector), priority)
  }

  /** editSelectorConfig's lookup: the first configuration with the id. */
  function ConfigToEdit(configs: seq<Selector>, id: Field): Option<FormFields>
  {
    match FindByKey(configs, SelectorKey, id)
    case None => None
    case Some(c) => Some(EditForm(c))
  }

  /** The configurations addDefaultConfigurations offers, in order. */
  function DefaultConfigs(): seq<Selector>
  {
    var editable := "div[contenteditable=\"true\"].ProseMirror";
    var anyEditable := "[contenteditable=\"true\"]";
    [ Selector(Str("selector_claude_1"), Str("claude.ai"), Str(editable), Num(30)),
      Selector(Str("selector_claude_2"), Str("*.anthropic.com"), Str(editable), Num(30)),
      Selector(Str("selector_claude_3"), Str("claude.ai"), Str(".ProseMirror p[data-placeholder]"), Num(25)),
      Selector(Str("selector_claude_4"), Str("claude.ai"), Str(".ProseMirror"), Num(20)),
      Selector(Str("selector_chatgpt_1"), Str("chat.openai.com"), Str("textarea[data-id=\"root\"]"), Num(30)),
      Selector(Str("selector_chatgpt_2"), Str("chat.openai.com"), Str("#prompt-textarea"), Num(25)),
      Selector(Str("selector_gemini_1"), Str("gemini.google.com"), Str(anyEditable), Num(30)),
      Selector(Str("selector_gemini_2"), Str("bard.google.com"), Str(anyEditable), Num(30)),
      Selector(Str("selector_copilot_1"), Str("copilot.microsoft.com"), Str(anyEditable), Num(30)) ]
  }

  /** `new Set(configs.map(c => c.id))`. */
  function Ids(configs: seq<Selector>): set<Field>
  {
    set c | c in configs :: c.id
  }

  function IdAbsent(ids: set<Field>): Selector -> bool
  {
    (c: Selector) => c.id !in ids
  }

  /** The defaults whose id is not stored yet, in order. */
  function NewDefaults(configs: seq<Selector>): seq<Selector>
  {
    Filter(DefaultConfigs(), IdAbsent(Ids(configs)))
  }

  function SelectorIdIsNot(id: Field): Selector -> bool
  {
    (c: Selector) => c.id != id
  }

  /**
   * The priority the list is sorted by: `b.priority - a.priority` on the
   * numbers the form and the defaults store; a priority that is not a
   * number is not modelled and sorts as 0.
   */
  function ViewKey(c: Selector): int
  {
    match c.priority
    case Num(n) => n
    case _ => 0
  }

  datatype View = EmptyMessage | Rows(rows: seq<Selector>)

  /** renderSelectorList: the empty message, or a sorted copy of the list. */
  function SelectorView(configs: seq<Selector>): View
  {
    if configs == [] then EmptyMessage else Rows(SortDesc(configs, ViewKey))
  }

  /** The selector configurations in storage, as the settings page reads and writes them. */
  class SelectorSettings {
    var configs: seq<Selector>

    constructor(configs: seq<Selector>)
      ensures this.configs == configs
    {
      this.configs := configs;
    }

    /** saveSelectorConfig: replaces the first configuration with the same id, or appends. */
    method SaveSelectorConfig(newConfig: Selector)
      modifies this
      ensures configs == Upsert(old(configs), newConfig, SelectorKey)
    {
      var existingIndex := IndexOfKey(configs, SelectorKey, newConfig.id);
      if existingIndex.Some? {
        configs := configs[existingIndex.value := newConfig];
      } else {
        configs := configs + [newConfig];
      }
    }

    /** The submit handler: an invalid form saves nothing, a valid one is saved. */
    method SubmitForm(f: FormFields, now: nat) returns (saved: Option<Selector>)
      modifies this
      ensures saved == FormConfig(f, now)
      ensures configs == if saved.Some? then Upsert(old(configs), saved.value, SelectorKey) else old(configs)
    {
      saved := FormConfig(f, now);
      if saved.Some? {
        SaveSelectorConfig(saved.value);
      }
    }

    /** deleteSelectorConfig: when confirmed, every configuration with the id is removed. */
    method DeleteSelectorConfig(id: Field, confirmed: bool)
      modifies this
      ensures configs == if confirmed then Filter(old(configs), SelectorIdIsNot(id)) else old(configs)
    {
      if !confirmed {
        return;
      }
      configs := Filter(configs, SelectorIdIsNot(id));
    }

    /** addDefaultConfigurations: saves each default whose id is absent, and returns how many. */
    method AddDefaultConfigurations() returns (added: nat)
      modifies this
      ensures configs == old(configs) + NewDefaults(old(configs))
      ensures added == |NewDefaults(old(configs))|
    {
      var newConfigs := NewDefaults(configs);
      NewDefaultsFresh(configs);
      SaveAll(newConfigs);
      added := |newConfigs|;
    }

    /** The loop of addDefaultConfigurations: each new configuration is saved in turn, and each is appended. */
    method SaveAll(newConfigs: seq<Selector>)
      requires forall k :: 0 <= k < |newConfigs| ==> newConfigs[k].id !in Ids(configs)
      requires forall k, j :: 0 <= k < j < |newConfigs| ==> newConfigs[k].id != newConfigs[j].id
      modifies this
      ensures configs == old(configs) + newConfigs
    {
      ghost var start := configs;
      for i := 0 to |newConfigs|
        invariant configs == start + newConfigs[..i]
      {
        AppendFresh(start, newConfigs, i);
        SaveSelectorConfig(newConfigs[i]);
        assert newConfigs[..i + 1] == newConfigs[..i] + [newConfigs[i]];
      }
      assert newConfigs[..|newConfigs|] == newConfigs;
    }
  }

  /** The defaults carry distinct ids. */
  lemma DefaultIdsDistinct()
    ensures forall i, j :: 0 <= i < j < |DefaultConfigs()| ==> DefaultConfigs()[i].id != DefaultConfigs()[j].id
  {
  }

  /** The new defaults carry distinct ids, none of them stored yet. */
  lemma {:induction false} NewDefaultsFresh(configs: seq<Selector>)
    ensures var n := NewDefaults(configs);
      (forall i :: 0 <= i < |n| ==> n[i].id !in Ids(configs))
      && (forall i, j :: 0 <= i < j < |n| ==> n[i].id != n[j].id)
  {
    DefaultIdsDistinct();
    FilterSublist(DefaultConfigs(), IdAbsent(Ids(configs)));
    SublistKeepsDistinctIds(NewDefaults(configs), DefaultConfigs());
  }

  lemma {:induction false} SublistKeepsDistinctIds(a: seq<Selector>, b: seq<Selector>)
    requires Sublist(a, b)
    requires forall i, j :: 0 <= i < j < |b| ==> b[i].id != b[j].id
    ensures forall i, j :: 0 <= i < j < |a| ==> a[i].id != a[j].id
  {
    if a != [] && b != [] {
      assert forall i, j :: 0 <= i < j < |b[1..]| ==> b[1..][i].id != b[1..][j].id by {
        forall i, j | 0 <= i < j < |b[1..]| ensures b[1..][i].id != b[1..][j].id {
          assert b[1..][i] == b[i + 1] && b[1..][j] == b[j + 1];
        }
      }
      if a[0] == b[0] && Sublist(a[1..], b[1..]) {
        SublistKeepsDistinctIds(a[1..], b[1..]);
        SublistMembers(a[1..], b[1..]);
        forall j | 0 < j < |a| ensures a[0].id != a[j].id {
          assert a[j] == a[1..][j - 1];
          assert a[j] in a[1..];
          var k :| 0 <= k < |b[1..]| && b[1..][k] == a[j];
          assert b[k + 1] == a[j];
        }
        forall i, j | 0 < i < j < |a| ensures a[i].id != a[j].id {
          assert a[i] == a[1..][i - 1] && a[j] == a[1..][j - 1];
        }
      } else {
        SublistKeepsDistinctIds(a, b[1..]);
      }
    }
  }

  lemma {:induction false} SublistMembers<T>(a: seq<T>, b: seq<T>)
    requires Sublist(a, b)
    ensures forall x :: x in a ==> exists k :: 0 <= k < |b| && b[k] == x
  {
    if a != [] && b != [] {
      if a[0] == b[0] && Sublist(a[1..], b[1..]) {
        SublistMembers(a[1..], b[1..]);
        forall x | x in a ensures exists k :: 0 <= k < |b| && b[k] == x {
          if x != a[0] {
            assert x in a[1..];
            var k :| 0 <= k < |b[1..]| && b[1..][k] == x;
            assert b[k + 1] == x;
          } else {
            assert b[0] == x;
          }
        }
      } else {
        SublistMembers(a, b[1..]);
        forall x | x in a ensures exists k :: 0 <= k < |b| && b[k] == x {
          var k :| 0 <= k < |b[1..]| && b[1..][k] == x;
          assert b[k + 1] == x;
        }
      }
    }
  }

  /** Saving the next new default appends it. */
  lemma {:induction false} AppendFresh(start: seq<Selector>, newConfigs: seq<Selector>, i: nat)
    requires i < |newConfigs|
    requires forall k :: 0 <= k < |newConfigs| ==> newConfigs[k].id !in Ids(start)
    requires forall k, j :: 0 <= k < j < |newConfigs| ==> newConfigs[k].id != newConfigs[j].id
    ensures Upsert(start + newConfigs[..i], newConfigs[i], SelectorKey) == start + newConfigs[..i] + [newConfigs[i]]
  {
    var s := start + newConfigs[..i];
    forall k | 0 <= k < |s| ensures SelectorKey(s[k]) != SelectorKey(newConfigs[i]) {
      if k < |start| {
        assert s[k] in start;
      } else {
        assert s[k] == newConfigs[k - |start|];
      }
    }
  }
}

// Properties of the settings page.
module SettingsFacts {
  import opened Seqs
  import opened Text
  import opened Records
  import opened Settings

  /**
   * The form is refused exactly when the pattern or the selector field
   * holds only white space, or no number starts in the priority field after
   * its leading white space.
   */
  lemma FormRejects(f: FormFields, now: nat)
    ensures FormConfig(f, now).None? <==> Blank(f.pattern) || Blank(f.css) || !StartsWithNumber(f.priority)
  {
    TrimEmptyIffBlank(f.pattern);
    TrimEmptyIffBlank(f.css);
    ParseIntDefined(f.priority);
  }

  /**
   * Submitting a form with an empty id adds a configuration at the end of
   * the list, unless one already carries the generated id; submitting a form
   * with an id saves a configuration found under that id, in place of the
   * first one that had it.
   */
  lemma FormId(configs: seq<Selector>, f: FormFields, now: nat)
    requires FormConfig(f, now).Some?
    ensures var saved := FormConfig(f, now).value;
      f.id == "" && Str("selector_" + NatToString(now)) !in Ids(configs) ==>
        Upsert(configs, saved, SelectorKey) == configs + [saved]
    ensures var saved := FormConfig(f, now).value;
      f.id != "" ==> FindByKey(Upsert(configs, saved, SelectorKey), SelectorKey, Str(f.id)) == Some(saved)
  {
    var saved := FormConfig(f, now).value;
    if f.id == "" && Str("selector_" + NatToString(now)) !in Ids(configs) {
      assert forall i :: 0 <= i < |configs| ==> configs[i].id in Ids(configs);
    }
    SaveThenFind(configs, saved);
  }

  lemma {:induction false} IntToStringRoundTrip(n: int)
    ensures ParseInt(IntToString(n)) == Some(n)
  {
    if n >= 0 {
      ParseIntRoundTrip(n);
    } else {
      var s := IntToString(n);
      var d := NatToString(-n);
      assert s == "-" + d;
      assert TrimStart(s) == s;
      assert s[1..] == d;
      LeadingDigitsAll(d);
      DigitsOfNat(-n);
    }
  }

  /**
   * Editing a configuration and submitting the form unchanged saves the
   * same configuration, when its id is set, its pattern and selector are
   * already trimmed and its priority is a number.
   */
  lemma {:induction false} EditSubmitRoundTrip(c: Selector, now: nat)
    requires c.id.Str? && c.id.s != ""
    requires c.domainPattern.Str? && c.domainPattern.s != "" && Trim(c.domainPattern.s) == c.domainPattern.s
    requires c.cssSelector.Str? && c.cssSelector.s != "" && Trim(c.cssSelector.s) == c.cssSelector.s
    requires c.priority.Num?
    ensures FormConfig(EditForm(c), now) == Some(c)
  {
    IntToStringRoundTrip(c.priority.n);
  }

  /** After a save the configuration is found under its id, and entries with other ids are where they were. */
  lemma {:induction false} SaveThenFind(configs: seq<Selector>, c: Selector)
    ensures FindByKey(Upsert(configs, c, SelectorKey), SelectorKey, c.id) == Some(c)
    ensures forall i :: 0 <= i < |configs| && configs[i].id != c.id ==> Upsert(configs, c, SelectorKey)[i] == configs[i]
  {
    match IndexOfKey(configs, SelectorKey, c.id)
    case None => FindAfterPush(configs, c, SelectorKey);
    case Some(i) => FindAfterReplace(configs, i, c, SelectorKey);
  }

  /** After a confirmed delete no configuration has the id, and the others keep their order. */
  lemma {:induction false} DeleteRemovesAll(configs: seq<Selector>, id: Field)
    ensures var r := Filter(configs, SelectorIdIsNot(id));
      (forall i :: 0 <= i < |r| ==> r[i].id != id)
      && (forall i :: 0 <= i < |configs| && configs[i].id != id ==> configs[i] in r)
      && Sublist(r, configs)
  {
    FilterSublist(configs, SelectorIdIsNot(id));
  }

  /** After adding the defaults every default id is stored, so adding them again adds nothing. */
  lemma {:induction false} AddDefaultsIdempotent(configs: seq<Selector>)
    ensures var after := configs + NewDefaults(configs);
      (forall i :: 0 <= i < |DefaultConfigs()| ==> DefaultConfigs()[i].id in Ids(after))
      && NewDefaults(after) == []
  {
    var after := configs + NewDefaults(configs);
    var d := DefaultConfigs();
    forall i | 0 <= i < |d| ensures d[i].id in Ids(after) {
      if d[i].id !in Ids(configs) {
        assert IdAbsent(Ids(configs))(d[i]);
        assert d[i] in NewDefaults(configs);
        assert d[i] in after;
      } else {
        var c :| c in configs && c.id == d[i].id;
        assert c in after;
      }
    }
    FilterEmpty(d, IdAbsent(Ids(after)));
  }

  /**
   * The list is shown highest priority first, as a rearrangement of the
   * stored list that keeps equal priorities in stored order; the stored
   * list itself is only read.
   */
  lemma {:induction false} ViewSorted(configs: seq<Selector>, k: int)
    requires configs != []
    ensures var rows := SelectorView(configs).rows;
      SortedDesc(rows, ViewKey) && multiset(rows) == multiset(configs)
      && Filter(rows, KeyIs(ViewKey, k)) == Filter(configs, KeyIs(ViewKey, k))
  {
    SortDescSorted(configs, ViewKey);
    SortDescStable(configs, ViewKey, k);
  }
}
