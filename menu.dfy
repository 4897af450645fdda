/**
 * The dish card of src/components/Menu/MenuCard.tsx: the choices, instructions and quantity
 * pending for the next add-to-cart, the handlers that change them, the preset-instruction
 * toggle, and the badge that sums this dish's quantities in the cart.
 */
module Menu {
  import opened Wrappers
  import opened Text
  import opened Platform
  import opened Numbers
  import opened Objects
  import opened Ledger
  import opened QuantityDisplay

  /** One option group of a dish: its name and its choices, in order. */
  datatype OptionGroup = OptionGroup(name: string, choices: seq<string>)

  /** A dish of the menu. Optional strings are "" when absent, absent option groups are []. */
  datatype MenuItem = MenuItem(
    id: string,
    nameEn: string,
    nameAr: string,
    price: real,
    descriptionEn: string,
    descriptionAr: string,
    image: string,
    unit: string,
    weightStep: Option<real>,
    minQuantity: Option<real>,
    options: seq<OptionGroup>)

  // ---------------------------------------------------------------- pending options

  /** `choices[0]`: an empty choice list gives `undefined`. */
  function FirstChoice(g: OptionGroup): Value {
    if g.choices == [] then Undefined else Str(g.choices[0])
  }

  /** The initial choices: each group in turn assigns its first choice to its name. */
  function Defaults(groups: seq<OptionGroup>): Record {
    if groups == [] then []
    else
      var last := groups[|groups| - 1];
      Put(Defaults(groups[..|groups| - 1]), last.name, FirstChoice(last))
  }

  /** The initial choices, built as the card does: one assignment per group, in order. */
  method DefaultOptions(groups: seq<OptionGroup>) returns (defaults: Record)
    ensures defaults == Defaults(groups)
  {
    defaults := [];
    var i := 0;
    while i < |groups|
      invariant 0 <= i <= |groups|
      invariant defaults == Defaults(groups[..i])
    {
      defaults := Put(defaults, groups[i].name, FirstChoice(groups[i]));
      assert groups[..i + 1][..i] == groups[..i];
      i := i + 1;
    }
    assert groups[..i] == groups;
  }

  lemma PutKeys(o: Record, k: string, v: Value)
    ensures forall k' :: HasKey(Put(o, k, v), k') <==> HasKey(o, k') || k' == k
  {
    PutGet(o, k, v);
    forall k' ensures HasKey(Put(o, k, v), k') <==> HasKey(o, k') || k' == k {
      assert Get(Put(o, k, v), k').Some? <==> HasKey(Put(o, k, v), k');
      assert Get(o, k').Some? <==> HasKey(o, k');
    }
  }

  predicate NameIn(groups: seq<OptionGroup>, k: string) {
    exists i :: 0 <= i < |groups| && groups[i].name == k
  }

  lemma NameInSnoc(groups: seq<OptionGroup>, k: string)
    requires groups != []
    ensures NameIn(groups, k) <==> NameIn(groups[..|groups| - 1], k) || groups[|groups| - 1].name == k
  {
    var n := |groups| - 1;
    if NameIn(groups, k) && groups[n].name != k {
      var i :| 0 <= i < |groups| && groups[i].name == k;
      assert groups[..n][i].name == k;
    }
    if NameIn(groups[..n], k) {
      var i :| 0 <= i < n && groups[..n][i].name == k;
      assert groups[i].name == k;
    }
  }

  /** The initial choices have one entry per group name and no other, each name once. */
  lemma {:induction false} DefaultsKeys(groups: seq<OptionGroup>)
    ensures UniqueKeys(Defaults(groups))
    ensures forall k :: HasKey(Defaults(groups), k) <==> NameIn(groups, k)
  {
    if groups != [] {
      var n := |groups| - 1;
      var prefix, last := groups[..n], groups[n];
      DefaultsKeys(prefix);
      PutShape(Defaults(prefix), last.name, FirstChoice(last));
      PutKeys(Defaults(prefix), last.name, FirstChoice(last));
      forall k ensures HasKey(Defaults(groups), k) <==> NameIn(groups, k) {
        NameInSnoc(groups, k);
      }
    }
  }

  /** Each group's name with its first choice, in group order. */
  function FirstChoices(groups: seq<OptionGroup>): Record {
    seq(|groups|, i requires 0 <= i < |groups| => (groups[i].name, FirstChoice(groups[i])))
  }

  /** No two groups share a name. */
  predicate DistinctNames(groups: seq<OptionGroup>) {
    forall i, j :: 0 <= i < j < |groups| ==> groups[i].name != groups[j].name
  }

  /** With distinct group names, the initial choices list every group, in order, at its first choice. */
  lemma {:induction false} DefaultsDistinct(groups: seq<OptionGroup>)
    requires DistinctNames(groups)
    ensures Defaults(groups) == FirstChoices(groups)
  {
    if groups != [] {
      var n := |groups| - 1;
      var prefix, last := groups[..n], groups[n];
      DistinctPrefix(groups);
      DefaultsDistinct(prefix);
      NewGroupName(prefix, last.name);
      PutNew(Defaults(prefix), last.name, FirstChoice(last));
      FirstChoicesSnoc(groups);
    }
  }

  lemma DistinctPrefix(groups: seq<OptionGroup>)
    requires groups != [] && DistinctNames(groups)
    ensures DistinctNames(groups[..|groups| - 1])
    ensures forall i :: 0 <= i < |groups| - 1 ==> groups[i].name != groups[|groups| - 1].name
  {
  }

  lemma FirstChoicesSnoc(groups: seq<OptionGroup>)
    requires groups != []
    ensures FirstChoices(groups)
      == FirstChoices(groups[..|groups| - 1]) + [(groups[|groups| - 1].name, FirstChoice(groups[|groups| - 1]))]
  {
  }

  lemma PutNew(o: Record, k: string, v: Value)
    requires !HasKey(o, k)
    ensures Put(o, k, v) == o + [(k, v)]
  {
  }

  /** A name no group carries is not among the initial choices. */
  lemma NewGroupName(groups: seq<OptionGroup>, k: string)
    requires forall i :: 0 <= i < |groups| ==> groups[i].name != k
    ensures !HasKey(Defaults(groups), k)
  {
    DefaultsKeys(groups);
  }

  // ---------------------------------------------------------------- quantity stepping

  /** `weight_step || 1`. */
  function StepOf(item: MenuItem): real {
    OrElse(item.weightStep, 1.0)
  }

  /** `min_quantity || 1`. */
  function MinQuantityOf(item: MenuItem): real {
    OrElse(item.minQuantity, 1.0)
  }

  /** The pending quantity after "+": one step more, rounded to cents. */
  function Increased(quantity: real, step: real): real {
    Round2(quantity + step)
  }

  /**
   * The pending quantity after "-": one step less, rounded to cents, when that is no more
   * than a thousandth below the minimum; otherwise the quantity stays.
   */
  function Decreased(quantity: real, step: real, min: real): real {
    if quantity - step >= min - 0.001 then Round2(quantity - step) else quantity
  }

  /** From a quantity at or above a two-decimal minimum, neither button leads below it. */
  lemma StepsKeepMinimum(quantity: real, step: real, min: real)
    requires OnCentGrid(min) && quantity >= min && step >= 0.0
    ensures Increased(quantity, step) >= min
    ensures Decreased(quantity, step, min) >= min
  {
    Round2KeepsBound(quantity + step, min);
    if quantity - step >= min - 0.001 {
      Round2KeepsBound(quantity - step, min);
    }
  }

  lemma OnCentGridSum(a: real, b: real)
    requires OnCentGrid(a) && OnCentGrid(b)
    ensures OnCentGrid(a + b) && OnCentGrid(a - b)
  {
    var m, n := (a * 100.0).Floor, (b * 100.0).Floor;
    assert a * 100.0 == m as real && b * 100.0 == n as real;
    WholeFloor((a + b) * 100.0, m + n);
    WholeFloor((a - b) * 100.0, m - n);
  }

  lemma WholeFloor(x: real, k: int)
    requires x == k as real
    ensures x.Floor as real == x
  {
  }

  /** On the cent grid the rounding is exact: "+" adds one step, an allowed "-" takes one off. */
  lemma StepsOnGrid(quantity: real, step: real, min: real)
    requires OnCentGrid(quantity) && OnCentGrid(step)
    ensures Increased(quantity, step) == quantity + step
    ensures quantity - step >= min - 0.001 ==> Decreased(quantity, step, min) == quantity - step
  {
    OnCentGridSum(quantity, step);
    Round2Fixes(quantity + step);
    Round2Fixes(quantity - step);
  }

  /** On the cent grid, "-" right after "+" gives back the quantity the card showed before. */
  lemma IncreaseThenDecrease(quantity: real, step: real, min: real)
    requires OnCentGrid(quantity) && OnCentGrid(step) && quantity >= min
    ensures Decreased(Increased(quantity, step), step, min) == quantity
  {
    StepsOnGrid(quantity, step, min);
    OnCentGridSum(quantity, step);
    StepsOnGrid(quantity + step, step, min);
  }

  // ---------------------------------------------------------------- preset instructions

  const Presets: seq<string> := ["Extra fresh", "For BBQ", "Vacuum packed"]

  /**
   * `s.replace(/,\s*,/g, ',')`: scanning from the left, a comma, blanks and a comma become one
   * comma, and the scan resumes after the second comma.
   */
  function CollapseCommas(s: string): (r: string)
    ensures |r| <= |s|
    decreases |s|
  {
    if s == [] then []
    else if s[0] == ',' && 1 + LeadingSpace(s[1..]) < |s| && s[1 + LeadingSpace(s[1..])] == ',' then
      "," + CollapseCommas(s[2 + LeadingSpace(s[1..])..])
    else [s[0]] + CollapseCommas(s[1..])
  }

  // `s.replace(/^,\s*/, '')`: a leading comma goes, with the blanks after it.
  function StripLeadingComma(s: string): (r: string)
    ensures |r| <= |s|
  {
    if s != [] && s[0] == ',' then s[1 + LeadingSpace(s[1..])..] else s
  }

  /** `s.replace(/,\s*$/, '')`: a comma followed by nothing but blanks goes, with those blanks. */
  function StripTrailingComma(s: string): (r: string)
    ensures |r| <= |s|
  {
    var j := |s| - TrailingSpace(s);
    if j > 0 && s[j - 1] == ',' then s[..j - 1] else s
  }

  /** The three clean-up replacements run after a preset is cut out, in their order. */
  function CleanSeparators(s: string): string {
    StripTrailingComma(StripLeadingComma(CollapseCommas(s)))
  }

  /** The instructions after pressing a preset button. */
  function TogglePreset(current: string, preset: string): string {
    if Contains(current, preset) then CleanSeparators(ReplaceFirst(current, preset, ""))
    else if current != "" then current + ", " + preset
    else preset
  }

  /** A preset not yet in the text is added: alone, or after the text and a comma. */
  lemma TogglePresetAdds(current: string, preset: string)
    requires !Contains(current, preset)
    ensures Contains(TogglePreset(current, preset), preset)
    ensures StartsWith(TogglePreset(current, preset), current)
    ensures |TogglePreset(current, preset)| == |current| + |preset| + (if current == "" then 0 else 2)
  {
    var r := TogglePreset(current, preset);
    if current == "" {
      assert r == preset;
      assert r[0..|preset|] == preset;
      ContainsAt(r, preset, 0);
    } else {
      Regroup(current, ", ", preset);
      assert r == current + (", " + preset);
      StartsWithAppend(current, ", " + preset);
      assert r[|current| + 2..] == preset;
      ContainsAt(r, preset, |current| + 2);
    }
  }

  /** A preset in the text is taken out: the text loses at least the preset's length. */
  lemma TogglePresetRemoves(current: string, preset: string)
    requires Contains(current, preset)
    ensures |TogglePreset(current, preset)| <= |current| - |preset|
  {
    var i := IndexOf(current, preset).value;
    assert |ReplaceFirst(current, preset, "")| == |current| - |preset|;
  }

  predicate NoComma(s: string) {
    forall i :: 0 <= i < |s| ==> s[i] != ','
  }

  lemma {:induction false} CollapseKeepsOneComma(c: string)
    requires NoComma(c)
    ensures CollapseCommas(c + ", ") == c + ", "
  {
    if c == [] {
      assert LeadingSpace(" ") == 1;
      assert CollapseCommas(" ") == [' '] + CollapseCommas([]);
      assert ", "[1..] == " ";
    } else {
      assert (c + ", ")[1..] == c[1..] + ", ";
      CollapseKeepsOneComma(c[1..]);
    }
  }

  /** In `c + ", " + p` a comma-free preset not in `c` and not starting with a blank first occurs last. */
  lemma PresetFoundLast(c: string, p: string)
    requires NoComma(c) && NoComma(p) && p != [] && !IsWhitespace(p[0]) && !Contains(c, p)
    ensures IndexOf(c + ", " + p, p) == Some(|c| + 2)
  {
    var s := c + ", " + p;
    assert OccursAt(s, p, |c| + 2) by {
      assert s[|c| + 2..|c| + 2 + |p|] == p;
    }
    forall j | 0 <= j < |c| + 2
      ensures !OccursAt(s, p, j)
    {
      if j + |p| <= |c| {
        assert !OccursAt(c, p, j);
        assert s[j..j + |p|] == c[j..j + |p|];
      } else if j + |p| <= |s| {
        if j <= |c| {
          assert s[j..j + |p|][|c| - j] == ',';
          assert p[|c| - j] != ',';
        } else {
          assert s[j..j + |p|][0] == ' ';
        }
      }
    }
  }

  /** Taking out the preset found right after ", " leaves the text and the separator. */
  lemma RemoveLastPreset(c: string, p: string)
    requires IndexOf(c + ", " + p, p) == Some(|c| + 2)
    ensures ReplaceFirst(c + ", " + p, p, "") == c + ", "
  {
    var s := c + ", " + p;
    assert s[..|c| + 2] == c + ", ";
    assert s[|c| + 2 + |p|..] == [];
  }

  lemma BlankSuffix(s: string, k: nat)
    requires k <= |s| && IsBlank(s[|s| - k..])
    ensures forall i :: |s| - k <= i < |s| ==> IsWhitespace(s[i])
  {
    forall i | |s| - k <= i < |s|
      ensures IsWhitespace(s[i])
    {
      assert s[|s| - k..][i - (|s| - k)] == s[i];
    }
  }

  /** A separator left at the end goes, when the text before it does not end in a blank. */
  lemma StripSeparator(c: string)
    requires c != "" && !IsWhitespace(c[|c| - 1])
    ensures StripTrailingComma(c + ", ") == c
  {
    var s := c + ", ";
    var k := TrailingSpace(s);
    assert s[|s| - 1] == ' ' && s[|s| - 2] == ',';
    assert k >= 1;
    BlankSuffix(s, k);
    assert !IsWhitespace(s[|s| - 2]);
    assert s[..|s| - 2] == c;
  }

  /**
   * Pressing a comma-free preset twice on comma-free instructions that do not end in a blank
   * gives the instructions back.
   */
  lemma TogglePresetTwice(current: string, preset: string)
    requires current != "" && NoComma(current) && !IsWhitespace(current[|current| - 1])
    requires preset != "" && NoComma(preset) && !IsWhitespace(preset[0])
    requires !Contains(current, preset)
    ensures TogglePreset(TogglePreset(current, preset), preset) == current
  {
    var s := current + ", " + preset;
    assert TogglePreset(current, preset) == s;
    PresetFoundLast(current, preset);
    RemoveLastPreset(current, preset);
    CollapseKeepsOneComma(current);
    assert StripLeadingComma(current + ", ") == current + ", ";
    StripSeparator(current);
  }

  /** Pressing a preset on empty instructions and then again leaves them empty. */
  lemma TogglePresetFromEmpty(preset: string)
    requires preset != ""
    ensures TogglePreset("", preset) == preset
    ensures TogglePreset(preset, preset) == ""
  {
    assert !OccursAt("", preset, 0);
    assert OccursAt(preset, preset, 0);
    assert IndexOf(preset, preset) == Some(0);
    assert ReplaceFirst(preset, preset, "") == "";
  }

  // ---------------------------------------------------------------- preset lists

  /** Instructions as the preset buttons write them: the presets joined by ", ". */
  function JoinPresets(ps: seq<string>): string {
    if ps == [] then ""
    else if |ps| == 1 then ps[0]
    else ps[0] + ", " + JoinPresets(ps[1..])
  }

  /** A text that neither starts nor ends with a blank or a comma. */
  predicate Framed(s: string) {
    s != "" && !IsWhitespace(s[0]) && s[0] != ',' && !IsWhitespace(s[|s| - 1]) && s[|s| - 1] != ','
  }

  /** A preset label: no comma, and no blank at either end. */
  predicate Tidy(p: string) {
    Framed(p) && NoComma(p)
  }

  predicate AllTidy(ps: seq<string>) {
    forall i :: 0 <= i < |ps| ==> Tidy(ps[i])
  }

  /** Tidy presets none of which occurs inside another, nor twice. */
  predicate Separable(ps: seq<string>) {
    AllTidy(ps) && forall i, j {:trigger Contains(ps[i], ps[j])} ::
      0 <= i < |ps| && 0 <= j < |ps| && i != j ==> !Contains(ps[i], ps[j])
  }

  lemma {:induction false} JoinFramed(ps: seq<string>)
    requires ps != [] && AllTidy(ps)
    ensures Framed(JoinPresets(ps))
    ensures JoinPresets(ps)[0] == ps[0][0]
  {
    if |ps| > 1 {
      JoinFramed(ps[1..]);
      var r := JoinPresets(ps[1..]);
      assert JoinPresets(ps) == ps[0] + (", " + r);
    }
  }

  /** Joining two non-empty lists puts one ", " between their joins. */
  lemma {:induction false} JoinAppend(a: seq<string>, b: seq<string>)
    requires a != [] && b != []
    ensures JoinPresets(a + b) == JoinPresets(a) + ", " + JoinPresets(b)
  {
    assert (a + b)[0] == a[0];
    if |a| == 1 {
      assert (a + b)[1..] == b;
    } else {
      assert (a + b)[1..] == a[1..] + b;
      JoinAppend(a[1..], b);
    }
  }

  /** A character of a slice is the character of the text it is cut from. */
  lemma SliceChar(s: string, j: nat, n: nat, i: int)
    ensures j + n <= |s| && 0 <= i < n ==> s[j..j + n][i] == s[j + i]
  {
  }

  /** An occurrence of a comma-free pattern that starts with no blank never straddles a ", ". */
  lemma OccursAcross(c: string, p: string, t: string, j: nat)
    requires p != "" && NoComma(p) && !IsWhitespace(p[0])
    requires OccursAt(c + ", " + t, p, j)
    ensures (j + |p| <= |c| && OccursAt(c, p, j)) || (j >= |c| + 2 && OccursAt(t, p, j - |c| - 2))
  {
    var s := c + ", " + t;
    assert s[|c|] == ',' && s[|c| + 1] == ' ';
    SliceChar(s, j, |p|, |c| - j);
    SliceChar(s, j, |p|, |c| + 1 - j);
    if j + |p| <= |c| {
      assert s[j..j + |p|] == c[j..j + |p|];
    } else if j >= |c| + 2 {
      assert s[j..j + |p|] == t[j - |c| - 2..j - |c| - 2 + |p|];
    }
  }

  /** A preset found in none of the listed presets is not in their join either. */
  lemma {:induction false} NotInJoin(ps: seq<string>, p: string)
    requires AllTidy(ps) && Tidy(p)
    requires forall i :: 0 <= i < |ps| ==> !Contains(ps[i], p)
    ensures !Contains(JoinPresets(ps), p)
  {
    var s := JoinPresets(ps);
    if |ps| > 1 {
      NotInJoin(ps[1..], p);
      forall j: nat
        ensures !OccursAt(s, p, j)
      {
        if OccursAt(s, p, j) {
          OccursAcross(ps[0], p, JoinPresets(ps[1..]), j);
        }
      }
    } else if |ps| == 0 {
      assert !OccursAt(s, p, 0);
    }
  }

  /** A preset right after ", " is found there when the text before it does not hold it. */
  lemma FoundAfterSeparator(c: string, p: string, t: string)
    requires Tidy(p) && !Contains(c, p)
    ensures IndexOf(c + ", " + p + t, p) == Some(|c| + 2)
  {
    var s := c + ", " + p + t;
    assert s == c + ", " + (p + t);
    assert OccursAt(s, p, |c| + 2) by {
      assert s[|c| + 2..|c| + 2 + |p|] == p;
    }
    forall j | 0 <= j < |c| + 2
      ensures !OccursAt(s, p, j)
    {
      if OccursAt(s, p, j) {
        OccursAcross(c, p, p + t, j);
        ContainsAt(c, p, j);
      }
    }
  }

  /** A comma-free text passes the collapse unchanged. */
  lemma {:induction false} CollapseNoComma(w: string, t: string)
    requires NoComma(w)
    ensures CollapseCommas(w + t) == w + CollapseCommas(t)
  {
    if w != [] {
      var s := w + t;
      assert s[0] == w[0] != ',';
      assert s[1..] == w[1..] + t;
      CollapseNoComma(w[1..], t);
      calc {
        CollapseCommas(s);
        [s[0]] + CollapseCommas(s[1..]);
        [w[0]] + (w[1..] + CollapseCommas(t));
        ([w[0]] + w[1..]) + CollapseCommas(t);
        { assert [w[0]] + w[1..] == w; }
        w + CollapseCommas(t);
      }
    } else {
      assert w + t == t;
    }
  }

  /** A single separator before a framed text is kept. */
  lemma CollapseSeparator(t: string)
    requires t != "" && !IsWhitespace(t[0]) && t[0] != ','
    ensures CollapseCommas(", " + t) == ", " + CollapseCommas(t)
  {
    var u := " " + t;
    assert u[1..] == t;
    assert LeadingSpace(u) == 1;
    var s := ", " + t;
    assert s[1..] == u && s[2] == t[0];
    calc {
      CollapseCommas(s);
      [','] + CollapseCommas(u);
      [','] + ([' '] + CollapseCommas(t));
      { Regroup([','], [' '], CollapseCommas(t)); }
      ([','] + [' ']) + CollapseCommas(t);
      { assert [','] + [' '] == ", "; }
      ", " + CollapseCommas(t);
    }
  }

  /** Two separators in a row, as a removed middle preset leaves them, become one. */
  lemma CollapseDoubleSeparator(t: string)
    requires t != "" && !IsWhitespace(t[0]) && t[0] != ','
    ensures CollapseCommas(", , " + t) == ", " + CollapseCommas(t)
  {
    var u := " " + t;
    assert u[1..] == t;
    var v := " , " + t;
    assert v[1..] == ", " + t;
    assert LeadingSpace(v) == 1;
    var s := ", , " + t;
    assert s[1..] == v && s[2] == ',' && s[3..] == u;
    calc {
      CollapseCommas(s);
      [','] + CollapseCommas(u);
      [','] + ([' '] + CollapseCommas(t));
      { Regroup([','], [' '], CollapseCommas(t)); }
      ([','] + [' ']) + CollapseCommas(t);
      { assert [','] + [' '] == ", "; }
      ", " + CollapseCommas(t);
    }
  }

  /** The collapse leaves a join of presets alone and goes on with what follows. */
  lemma {:induction false} CollapseJoin(ps: seq<string>, t: string)
    requires AllTidy(ps)
    ensures CollapseCommas(JoinPresets(ps) + t) == JoinPresets(ps) + CollapseCommas(t)
  {
    if |ps| == 1 {
      CollapseNoComma(ps[0], t);
    } else if |ps| > 1 {
      var p, r := ps[0], JoinPresets(ps[1..]);
      var c := CollapseCommas(t);
      JoinFramed(ps[1..]);
      assert JoinPresets(ps) == p + ", " + r;
      assert (r + t)[0] == r[0];
      calc {
        CollapseCommas(JoinPresets(ps) + t);
        { Regroup(p, ", ", r); Regroup(p, ", " + r, t); Regroup(", ", r, t); }
        CollapseCommas(p + (", " + (r + t)));
        { CollapseNoComma(p, ", " + (r + t)); }
        p + CollapseCommas(", " + (r + t));
        { CollapseSeparator(r + t); }
        p + (", " + CollapseCommas(r + t));
        { CollapseJoin(ps[1..], t); }
        p + (", " + (r + c));
        { Regroup(", ", r, c); Regroup(p, ", " + r, c); Regroup(p, ", ", r); }
        JoinPresets(ps) + c;
      }
    } else {
      assert JoinPresets(ps) + t == t;
    }
  }

  /** A framed text loses nothing to the two comma strips. */
  lemma StripFramed(s: string)
    requires Framed(s)
    ensures StripTrailingComma(StripLeadingComma(s)) == s
  {
  }

  /** Cutting out the first of the text's characters that spell `p`. */
  lemma CutAtStart(p: string, rest: string)
    requires p != ""
    ensures Contains(p + rest, p)
    ensures ReplaceFirst(p + rest, p, "") == rest
  {
    var s := p + rest;
    assert s[..|p|] == p;
    assert IndexOf(s, p) == Some(0);
    assert s[|p|..] == rest;
  }

  /** Cutting out a preset that first occurs right after ", ". */
  lemma CutAfterSeparator(c: string, p: string, t: string)
    requires Tidy(p) && !Contains(c, p)
    ensures Contains(c + ", " + p + t, p)
    ensures ReplaceFirst(c + ", " + p + t, p, "") == c + ", " + t
  {
    var s := c + ", " + p + t;
    FoundAfterSeparator(c, p, t);
    assert s[..|c| + 2] == c + ", ";
    assert s[|c| + 2 + |p|..] == t;
  }

  /** Cutting out a preset that first occurs after the last separator. */
  lemma CutLast(a: string, p: string)
    requires Tidy(p) && !Contains(a, p)
    ensures Contains(a + ", " + p, p)
    ensures ReplaceFirst(a + ", " + p, p, "") == a + ", "
  {
    CutAfterSeparator(a, p, "");
    assert a + ", " + p + "" == a + ", " + p;
    assert a + ", " + "" == a + ", ";
  }

  /** A preset with others on both sides sits between two separators. */
  lemma JoinAround(front: seq<string>, p: string, back: seq<string>)
    requires front != [] && back != []
    ensures JoinPresets(front + [p] + back) == JoinPresets(front) + ", " + p + (", " + JoinPresets(back))
  {
    assert front + [p] + back == front + ([p] + back);
    JoinAppend([p], back);
    JoinAppend(front, [p] + back);
  }

  /** Cutting out a preset that first occurs between two separators. */
  lemma CutBetween(a: string, p: string, b: string)
    requires Tidy(p) && !Contains(a, p)
    ensures Contains(a + ", " + p + (", " + b), p)
    ensures ReplaceFirst(a + ", " + p + (", " + b), p, "") == a + ", , " + b
  {
    CutAfterSeparator(a, p, ", " + b);
    assert a + ", " + (", " + b) == a + ", , " + b;
  }

  /** What is left once the first preset is cut out: a leading separator, which goes. */
  lemma CleanLeadingSeparator(ps: seq<string>)
    requires ps != [] && AllTidy(ps)
    ensures CleanSeparators(", " + JoinPresets(ps)) == JoinPresets(ps)
  {
    var b := JoinPresets(ps);
    JoinFramed(ps);
    CollapseSeparator(b);
    CollapseJoin(ps, "");
    assert b + "" == b;
    assert (", " + b)[1..] == " " + b && (" " + b)[1..] == b;
    assert LeadingSpace((", " + b)[1..]) == 1;
    assert StripLeadingComma(", " + b) == b;
    StripFramed(b);
  }

  /** What is left once the last preset is cut out: a trailing separator, which goes. */
  lemma CleanTrailingSeparator(ps: seq<string>)
    requires ps != [] && AllTidy(ps)
    ensures CleanSeparators(JoinPresets(ps) + ", ") == JoinPresets(ps)
  {
    var a := JoinPresets(ps);
    CollapseJoin(ps, ", ");
    CollapseKeepsOneComma("");
    assert "" + ", " == ", ";
    JoinFramed(ps);
    assert StripLeadingComma(a + ", ") == a + ", ";
    StripSeparator(a);
  }

  /** Two framed texts around a separator make a framed text. */
  lemma FramedAroundSeparator(a: string, b: string)
    requires Framed(a) && Framed(b)
    ensures Framed(a + ", " + b)
  {
    var s := a + ", " + b;
    assert s[0] == a[0] && s[|s| - 1] == b[|b| - 1];
  }

  /** Two separators before a join of presets become one. */
  lemma CollapseDoubleBeforeJoin(back: seq<string>)
    requires back != [] && AllTidy(back)
    ensures CollapseCommas(", , " + JoinPresets(back)) == ", " + JoinPresets(back)
  {
    var b := JoinPresets(back);
    JoinFramed(back);
    CollapseDoubleSeparator(b);
    CollapseJoin(back, "");
    assert b + "" == b;
    assert CollapseCommas("") == [];
  }

  /** The collapse turns the two separators a cut-out middle preset leaves into one. */
  lemma CollapseAfterCut(front: seq<string>, back: seq<string>)
    requires back != [] && AllTidy(front) && AllTidy(back)
    ensures CollapseCommas(JoinPresets(front) + ", , " + JoinPresets(back))
      == JoinPresets(front) + ", " + JoinPresets(back)
  {
    var a, t := JoinPresets(front), ", , " + JoinPresets(back);
    CollapseJoin(front, t);
    CollapseDoubleBeforeJoin(back);
    assert a + ", , " + JoinPresets(back) == a + t;
    assert a + (", " + JoinPresets(back)) == a + ", " + JoinPresets(back);
  }

  /** What is left once a middle preset is cut out: two separators, which become one. */
  lemma CleanDoubleSeparator(front: seq<string>, back: seq<string>)
    requires front != [] && back != [] && AllTidy(front) && AllTidy(back)
    ensures CleanSeparators(JoinPresets(front) + ", , " + JoinPresets(back)) == JoinPresets(front + back)
  {
    var a, b := JoinPresets(front), JoinPresets(back);
    CollapseAfterCut(front, back);
    JoinFramed(front);
    JoinFramed(back);
    FramedAroundSeparator(a, b);
    StripFramed(a + ", " + b);
    JoinAppend(front, back);
  }

  /** Pressing a preset the text holds: the cut-out text is cleaned up. */
  lemma ToggleByCut(current: string, preset: string, cut: string)
    requires Contains(current, preset) && ReplaceFirst(current, preset, "") == cut
    ensures TogglePreset(current, preset) == CleanSeparators(cut)
  {
  }

  /** Removing the first of several presets. */
  lemma ToggleFirstPreset(p: string, back: seq<string>)
    requires Tidy(p) && back != [] && AllTidy(back)
    ensures TogglePreset(JoinPresets([p] + back), p) == JoinPresets(back)
  {
    var b := JoinPresets(back);
    assert ([p] + back)[0] == p && ([p] + back)[1..] == back;
    assert JoinPresets([p] + back) == p + (", " + b);
    CutAtStart(p, ", " + b);
    ToggleByCut(JoinPresets([p] + back), p, ", " + b);
    CleanLeadingSeparator(back);
  }

  /** Removing the last of several presets. */
  lemma ToggleLastPreset(front: seq<string>, p: string)
    requires front != [] && AllTidy(front) && Tidy(p)
    requires forall i :: 0 <= i < |front| ==> !Contains(front[i], p)
    ensures TogglePreset(JoinPresets(front + [p]), p) == JoinPresets(front)
  {
    var a := JoinPresets(front);
    JoinAppend(front, [p]);
    NotInJoin(front, p);
    CutLast(a, p);
    ToggleByCut(JoinPresets(front + [p]), p, a + ", ");
    CleanTrailingSeparator(front);
  }

  /** Removing a preset with others on both sides. */
  lemma ToggleMiddlePreset(front: seq<string>, p: string, back: seq<string>)
    requires front != [] && back != [] && AllTidy(front) && Tidy(p) && AllTidy(back)
    requires forall i :: 0 <= i < |front| ==> !Contains(front[i], p)
    ensures TogglePreset(JoinPresets(front + [p] + back), p) == JoinPresets(front + back)
  {
    var a, b := JoinPresets(front), JoinPresets(back);
    var whole := JoinPresets(front + [p] + back);
    var cut := a + ", , " + b;
    JoinAround(front, p, back);
    NotInJoin(front, p);
    CutBetween(a, p, b);
    assert TogglePreset(whole, p) == CleanSeparators(cut) by {
      ToggleByCut(whole, p, cut);
    }
    CleanDoubleSeparator(front, back);
  }

  /** What separability says about the presets before, at and after position `k`. */
  lemma SeparableAround(ps: seq<string>, k: nat)
    requires Separable(ps) && k < |ps|
    ensures ps == ps[..k] + [ps[k]] + ps[k + 1..]
    ensures AllTidy(ps[..k]) && Tidy(ps[k]) && AllTidy(ps[k + 1..])
    ensures forall i :: 0 <= i < k ==> !Contains(ps[..k][i], ps[k])
  {
    forall i | 0 <= i < k
      ensures !Contains(ps[..k][i], ps[k])
    {
      assert ps[..k][i] == ps[i];
      assert !Contains(ps[i], ps[k]);
    }
  }

  /**
   * On instructions the preset buttons wrote, pressing a listed preset takes it out of the
   * list: the first, a middle or the last one, or the only one.
   */
  lemma TogglePresetRemovesListed(ps: seq<string>, k: nat)
    requires Separable(ps) && k < |ps|
    ensures TogglePreset(JoinPresets(ps), ps[k]) == JoinPresets(ps[..k] + ps[k + 1..])
  {
    SeparableAround(ps, k);
    var front, p, back := ps[..k], ps[k], ps[k + 1..];
    if |ps| == 1 {
      TogglePresetFromEmpty(p);
      assert front + back == [];
    } else if k == 0 {
      assert ps == [p] + back;
      ToggleFirstPreset(p, back);
      assert front + back == back;
    } else if k == |ps| - 1 {
      assert ps == front + [p];
      ToggleLastPreset(front, p);
      assert front + back == front;
    } else {
      ToggleMiddlePreset(front, p, back);
    }
  }

  /** Pressing a preset that is not listed appends it to the list. */
  lemma TogglePresetAppendsListed(ps: seq<string>, p: string)
    requires Separable(ps + [p])
    ensures TogglePreset(JoinPresets(ps), p) == JoinPresets(ps + [p])
  {
    assert forall i :: 0 <= i < |ps| ==> ps[i] == (ps + [p])[i];
    assert p == (ps + [p])[|ps|];
    NotInJoin(ps, p);
    if ps == [] {
      assert ps + [p] == [p];
    } else {
      JoinFramed(ps);
      JoinAppend(ps, [p]);
    }
  }

  /** A label whose first character never appears in `s` cannot occur in `s`. */
  lemma FirstCharAbsent(s: string, p: string)
    requires p != "" && p[0] !in s
    ensures !Contains(s, p)
  {
    forall j: nat
      ensures !OccursAt(s, p, j)
    {
      if j + |p| <= |s| {
        assert s[j..j + |p|][0] == s[j];
      }
    }
  }

  /** A label with neither a comma nor a blank at its ends is tidy. */
  lemma TidyLabel(p: string)
    requires p != "" && ',' !in p
    requires !IsWhitespace(p[0]) && !IsWhitespace(p[|p| - 1])
    ensures Tidy(p)
  {
    assert p[0] in p && p[|p| - 1] in p;
    forall i | 0 <= i < |p| ensures p[i] != ',' {
      assert p[i] in p;
    }
  }

  /** Three tidy labels, none inside another, are separable. */
  lemma SeparableThree(a: string, b: string, c: string)
    requires Tidy(a) && Tidy(b) && Tidy(c)
    requires !Contains(a, b) && !Contains(a, c) && !Contains(b, a)
    requires !Contains(b, c) && !Contains(c, a) && !Contains(c, b)
    ensures Separable([a, b, c])
  {
  }

  /** The card's three preset labels are tidy and none occurs inside another. */
  lemma PresetsSeparable()
    ensures Separable(Presets)
  {
    var e, f, v := Presets[0], Presets[1], Presets[2];
    TidyLabel(e);
    TidyLabel(f);
    TidyLabel(v);
    FirstCharAbsent(e, f);
    FirstCharAbsent(e, v);
    FirstCharAbsent(f, e);
    FirstCharAbsent(f, v);
    FirstCharAbsent(v, e);
    FirstCharAbsent(v, f);
    SeparableThree(e, f, v);
  }

  // ---------------------------------------------------------------- cart badge

  /** The badge's count: the plain sum of the quantities of the lines of dish `id`. */
  function CardQuantity(items: seq<CartItem>, id: string): real {
    if items == [] then 0.0
    else
      var last := items[|items| - 1];
      CardQuantity(items[..|items| - 1], id) + (if last.id == id then last.quantity else 0.0)
  }

  lemma {:induction false} CardQuantitySplit(a: seq<CartItem>, b: seq<CartItem>, id: string)
    ensures CardQuantity(a + b, id) == CardQuantity(a, id) + CardQuantity(b, id)
    decreases |b|
  {
    if b != [] {
      var n := |b| - 1;
      assert (a + b)[..|a + b| - 1] == a + b[..n];
      CardQuantitySplit(a, b[..n], id);
    } else {
      assert a + b == a;
    }
  }

  /** Lines of other dishes never count towards a dish's badge. */
  lemma {:induction false} CardQuantityOtherDishes(items: seq<CartItem>, id: string)
    requires forall i :: 0 <= i < |items| ==> items[i].id != id
    ensures CardQuantity(items, id) == 0.0
  {
    if items != [] {
      CardQuantityOtherDishes(items[..|items| - 1], id);
    }
  }

  /**
   * The badge is not weight-aware: a weighed line counts with its weight, where the cart's
   * item count counts it once.
   */
  lemma WeighedLineOnBadge(line: CartItem)
    requires IsWeighed(line)
    ensures CardQuantity([line], line.id) == line.quantity
    ensures TotalItems([line]) == 1.0
  {
    assert [line][..0] == [];
    assert TotalItems([line][..0]) == 0.0;
  }

  /** The badge: shown only for a positive count, as the count and the dish's unit or "in cart". */
  function Badge(total: real, unit: string): (r: Option<string>)
    ensures r.Some? <==> total > 0.0
    ensures r.Some? ==> StartsWith(r.value, QuantityText(total) + " ")
  {
    if total > 0.0 then
      var caption := if unit != "" then unit else "in cart";
      StartsWithAppend(QuantityText(total) + " ", caption);
      Some(QuantityText(total) + " " + caption)
    else None
  }

  /** The card's picture: the dish's image, or a placeholder showing its English name. */
  function CardImage(env: Env, item: MenuItem): (url: string)
    ensures url != ""
    ensures item.image != "" ==> url == item.image
    ensures item.image == "" ==> url == "https://placehold.co/400x300?text=" + env.encode(item.nameEn)
  {
    if item.image != "" then item.image else "https://placehold.co/400x300?text=" + env.encode(item.nameEn)
  }

  // ---------------------------------------------------------------- adding to the cart

  /** What "Add" hands to `addItem`: both names in one, the pending state, the stepping rule. */
  function AddRequest(item: MenuItem, options: Record, instructions: string, quantity: real): NewItem {
    NewItem(item.id, item.nameEn + " - " + item.nameAr, "", "", item.price,
      Some(options), Some(quantity), Some(StepOf(item)), Some(MinQuantityOf(item)), Some(instructions))
  }

  /**
   * The line "Add" appends: the dish's id and price, the name "<English> - <Arabic>", the
   * pending choices and instructions, the pending quantity (the minimum when it is 0) and the
   * dish's step and minimum.
   */
  lemma AddedLine(item: MenuItem, options: Record, instructions: string, quantity: real, instanceId: string)
    ensures var line := NewLine(AddRequest(item, options, instructions, quantity), instanceId);
      line.instanceId == instanceId && line.id == item.id && line.price == item.price
      && line.name == item.nameEn + " - " + item.nameAr && line.nameEn == "" && line.nameAr == ""
      && line.selectedOptions == options && line.instructions == instructions
      && line.quantity == (if quantity != 0.0 then quantity else MinQuantityOf(item))
      && line.step == Some(StepOf(item)) && line.minQuantity == Some(MinQuantityOf(item))
  {
    assert MinQuantityOf(item) != 0.0;
  }

  /** "Add" raises the dish's badge by exactly the quantity of the line it appends. */
  lemma AddRaisesBadge(items: seq<CartItem>, item: MenuItem, options: Record, instructions: string,
                       quantity: real, instanceId: string)
    ensures CardQuantity(items + [NewLine(AddRequest(item, options, instructions, quantity), instanceId)], item.id)
      == CardQuantity(items, item.id) + (if quantity != 0.0 then quantity else MinQuantityOf(item))
  {
    var line := NewLine(AddRequest(item, options, instructions, quantity), instanceId);
    AddedLine(item, options, instructions, quantity, instanceId);
    CardQuantitySplit(items, [line], item.id);
    assert [line][..0] == [];
  }

  class MenuCard {
    const item: MenuItem
    const cart: CartStore
    var pendingOptions: Record
    var pendingInstructions: string
    var pendingQuantity: real

    /** The first choice of every group, no instructions, the minimum quantity. */
    constructor (item: MenuItem, cart: CartStore)
      ensures this.item == item && this.cart == cart
      ensures pendingOptions == Defaults(item.options)
      ensures pendingInstructions == "" && pendingQuantity == MinQuantityOf(item)
    {
      var defaults := DefaultOptions(item.options);
      this.item := item;
      this.cart := cart;
      pendingOptions := defaults;
      pendingInstructions := "";
      pendingQuantity := OrElse(item.minQuantity, 1.0);
    }

    /** What the badge counts for this dish. */
    function TotalQuantity(): real
      reads cart
    {
      CardQuantity(cart.items, item.id)
    }

    method Increase()
      modifies this
      ensures pendingQuantity == Increased(old(pendingQuantity), StepOf(item))
      ensures pendingOptions == old(pendingOptions) && pendingInstructions == old(pendingInstructions)
    {
      var step := OrElse(item.weightStep, 1.0);
      pendingQuantity := Round2(pendingQuantity + step);
    }

    method Decrease()
      modifies this
      ensures pendingQuantity == Decreased(old(pendingQuantity), StepOf(item), MinQuantityOf(item))
      ensures pendingOptions == old(pendingOptions) && pendingInstructions == old(pendingInstructions)
    {
      var step := OrElse(item.weightStep, 1.0);
      var minQuantity := OrElse(item.minQuantity, 1.0);
      if pendingQuantity - step >= minQuantity - 0.001 {
        pendingQuantity := Round2(pendingQuantity - step);
      }
    }

    /** Choosing `choice` in group `optionName`; the other groups keep their choice. */
    method OptionChange(optionName: string, choice: string)
      modifies this
      ensures pendingOptions == Put(old(pendingOptions), optionName, Str(choice))
      ensures pendingInstructions == old(pendingInstructions) && pendingQuantity == old(pendingQuantity)
    {
      pendingOptions := Put(pendingOptions, optionName, Str(choice));
    }

    method EditInstructions(text: string)
      modifies this
      ensures pendingInstructions == text
      ensures pendingOptions == old(pendingOptions) && pendingQuantity == old(pendingQuantity)
    {
      pendingInstructions := text;
    }

    method PresetClick(preset: string)
      modifies this
      ensures pendingInstructions == TogglePreset(old(pendingInstructions), preset)
      ensures pendingOptions == old(pendingOptions) && pendingQuantity == old(pendingQuantity)
    {
      pendingInstructions := TogglePreset(pendingInstructions, preset);
    }

    /**
     * "Add": one line for the pending state goes to the cart under the id drawn for it; the
     * instructions are emptied and the quantity goes back to the minimum, the choices stay.
     */
    method HandleAddToCart(instanceId: string)
      modifies this, cart
      ensures cart.items == old(cart.items) + [NewLine(AddRequest(item, old(pendingOptions),
        old(pendingInstructions), old(pendingQuantity)), instanceId)]
      ensures cart.isCartOpen == old(cart.isCartOpen)
      ensures old(cart.Valid()) && !HasLine(old(cart.items), instanceId) ==> cart.Valid()
      ensures pendingInstructions == "" && pendingQuantity == MinQuantityOf(item)
      ensures pendingOptions == old(pendingOptions)
    {
      cart.AddItem(AddRequest(item, pendingOptions, pendingInstructions, pendingQuantity), instanceId);
      pendingInstructions := "";
      pendingQuantity := OrElse(item.minQuantity, 1.0);
    }
  }
}
