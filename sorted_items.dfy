/**
 * The result accumulator and message composer of the sort engine: groups
 * are pulled one at a time from the store's cursor, rendered to text and
 * accumulated under the embed's character budget; the page's boundary values
 * become the Prev/Next buttons, whose identifiers carry the pagination state.
 */
module SortedItems {
  import opened Common
  import opened Text
  import opened SortTypes
  import opened QueryBuilder

  const ItemListDelimiter: string := ", `"
  const Ellipses: string := " **...**"
  const NoResults: string := "No results were found"
  const ShowSortResultsAction: string := "show-sort-results"

  // ---------------------------------------------------------------------
  // message values

  /** An embed; a received message's embed may come without a title or a description. */
  datatype Embed = Embed(title: Option<string>, description: Option<string>)

  datatype SelectOption = SelectOption(caption: string, value: string, isDefault: bool)

  /** The interactive controls; every button has the primary style. */
  datatype Component =
    | TagSelectMenu(customId: string, placeholder: string, minValues: nat, maxValues: int, options: seq<SelectOption>)
    | Button(caption: string, customId: string)

  datatype ActionRow = ActionRow(components: seq<Component>)

  datatype Message = Message(embeds: seq<Embed>, components: seq<ActionRow>)

  // ---------------------------------------------------------------------
  // filter summary

  /** A minimum level is reported when given and not the default 0. */
  predicate ShowsMinLevel(p: SortFilterParams)
  {
    p.minLevel.Some? && p.minLevel.value != 0
  }

  /** A maximum level is reported when given and not the default 90. */
  predicate ShowsMaxLevel(p: SortFilterParams)
  {
    p.maxLevel.Some? && p.maxLevel.value != 90
  }

  function LevelFilterParts(p: SortFilterParams): seq<string>
  {
    (if ShowsMinLevel(p) then ["**Min level:** " + IntToString(p.minLevel.value)] else [])
    + (if ShowsMaxLevel(p) then ["**Max level:** " + IntToString(p.maxLevel.value)] else [])
  }

  /** The lines of `getFiltersUsedText`, in the order they are pushed. */
  function FilterLines(p: SortFilterParams): seq<string>
  {
    var levelParts := LevelFilterParts(p);
    (if StringTruthy(p.weaponElement) then ["**Weapon Element:** " + Capitalize(p.weaponElement.value)] else [])
    + (if p.ascending then ["**Order:** Ascending"] else [])
    + (if |levelParts| > 0 then [Join(levelParts, ", ")] else [])
  }

  /** `getFiltersUsedText`: the summary lines joined by newlines. */
  function FiltersUsedText(p: SortFilterParams): string
  {
    Join(FilterLines(p), "\n")
  }

  /**
   * The summary holds an element line exactly when an element is given, an
   * order line exactly when the order is ascending, and one level line
   * exactly when a bound differs from its default; the level line names the
   * minimum, the maximum, or both, joined by a comma.
   */
  lemma FilterSummaryLines(p: SortFilterParams)
    ensures var lines := FilterLines(p);
      var e := if StringTruthy(p.weaponElement) then 1 else 0;
      var a := if p.ascending then 1 else 0;
      var l := if ShowsMinLevel(p) || ShowsMaxLevel(p) then 1 else 0;
      && |lines| == e + a + l
      && (e == 1 ==> lines[0] == "**Weapon Element:** " + Capitalize(p.weaponElement.value))
      && (a == 1 ==> lines[e] == "**Order:** Ascending")
      && (l == 1 ==> lines[e + a] == LevelLine(p))
  {
    var parts := LevelFilterParts(p);
    var elementPart := if StringTruthy(p.weaponElement) then ["**Weapon Element:** " + Capitalize(p.weaponElement.value)] else [];
    var orderPart := if p.ascending then ["**Order:** Ascending"] else [];
    var levelPart := if |parts| > 0 then [Join(parts, ", ")] else [];
    assert FilterLines(p) == elementPart + orderPart + levelPart;
    if ShowsMinLevel(p) || ShowsMaxLevel(p) {
      LevelLineJoinsParts(p);
      assert levelPart == [LevelLine(p)];
    }
  }

  /**
   * The level line names the minimum, the maximum, or both joined by a
   * comma, as the bounds that differ from their defaults.
   */
  function LevelLine(p: SortFilterParams): string
    requires ShowsMinLevel(p) || ShowsMaxLevel(p)
  {
    if ShowsMinLevel(p) && ShowsMaxLevel(p) then
      "**Min level:** " + IntToString(p.minLevel.value) + ", **Max level:** " + IntToString(p.maxLevel.value)
    else if ShowsMinLevel(p) then "**Min level:** " + IntToString(p.minLevel.value)
    else "**Max level:** " + IntToString(p.maxLevel.value)
  }

  lemma LevelLineJoinsParts(p: SortFilterParams)
    requires ShowsMinLevel(p) || ShowsMaxLevel(p)
    ensures |LevelFilterParts(p)| > 0 && Join(LevelFilterParts(p), ", ") == LevelLine(p)
  {
    if ShowsMinLevel(p) && ShowsMaxLevel(p) {
      JoinPair("**Min level:** " + IntToString(p.minLevel.value), "**Max level:** " + IntToString(p.maxLevel.value), ", ");
    }
  }

  /** The default bounds 0 and 90 produce no level line. */
  lemma DefaultLevelsOmitted(p: SortFilterParams)
    requires p.minLevel == Some(0) && p.maxLevel == Some(90)
    requires !StringTruthy(p.weaponElement) && !p.ascending
    ensures FiltersUsedText(p) == ""
  {
  }

  /** A minimum of 10 with no maximum is reported alone. */
  lemma MinLevelTenReported(p: SortFilterParams)
    requires p.minLevel == Some(10) && p.maxLevel.None?
    requires !StringTruthy(p.weaponElement) && !p.ascending
    ensures FiltersUsedText(p) == "**Min level:** 10"
  {
    assert IntToString(10) == "10";
  }

  // ---------------------------------------------------------------------
  // navigation components

  /** `[...excludeTags].join(',')`, with no tags when the set is absent. */
  function ExcludedTagsCsv(excludeTags: Option<seq<string>>): string
  {
    Join(if excludeTags.Some? then excludeTags.value else [], ",")
  }

  /** A button identifier: `[kind, value, csvTags].join(separator)`. */
  function ButtonId(kind: string, value: int, csvTags: string, sep: char): string
  {
    Join([kind, IntToString(value), csvTags], [sep])
  }

  predicate IsExcluded(excludeTags: Option<seq<string>>, tag: string)
  {
    excludeTags.Some? && tag in excludeTags.value
  }

  function TagOptions(cfg: Config, excludeTags: Option<seq<string>>): (options: seq<SelectOption>)
    ensures |options| == |cfg.sortableTags|
    ensures forall i :: 0 <= i < |options| ==>
      options[i].value == cfg.sortableTags[i]
      && (options[i].isDefault <==> IsExcluded(excludeTags, cfg.sortableTags[i]))
  {
    seq(|cfg.sortableTags|, i requires 0 <= i < |cfg.sortableTags| =>
      SelectOption("Exclude " + PrettyTagName(cfg, cfg.sortableTags[i]), cfg.sortableTags[i],
                   IsExcluded(excludeTags, cfg.sortableTags[i])))
  }

  function TagSelection(cfg: Config, excludeTags: Option<seq<string>>): Component
  {
    TagSelectMenu(cfg.tagSelectionAction, "All tags included", 0, |cfg.sortableTags| - 1,
                  TagOptions(cfg, excludeTags))
  }

  function PrevButton(value: int, csvTags: string, cfg: Config): Component
  {
    Button("\U{276E} Prev Page", ButtonId(cfg.prevPageAction, value, csvTags, cfg.argSeparator))
  }

  function NextButton(value: int, csvTags: string, cfg: Config): Component
  {
    Button("Next Page \U{276F}", ButtonId(cfg.nextPageAction, value, csvTags, cfg.argSeparator))
  }

  /**
   * `getNavigationComponents`: the tag-selection row, then a row with a Prev
   * button for a given previous value and a Next button for a given next
   * value, the second row left out when it would be empty.
   */
  function NavigationComponents(prevValue: Option<int>, nextValue: Option<int>,
                                excludeTags: Option<seq<string>>, cfg: Config): (rows: seq<ActionRow>)
    ensures 1 <= |rows| <= 2 && rows[0] == ActionRow([TagSelection(cfg, excludeTags)])
    ensures |rows| == 2 <==> prevValue.Some? || nextValue.Some?
    ensures |rows| == 2 ==> |rows[1].components| == (if prevValue.Some? then 1 else 0) + (if nextValue.Some? then 1 else 0)
    ensures |rows| == 2 && prevValue.Some? ==>
      rows[1].components[0] == PrevButton(prevValue.value, ExcludedTagsCsv(excludeTags), cfg)
    ensures |rows| == 2 && nextValue.Some? ==>
      rows[1].components[|rows[1].components| - 1] == NextButton(nextValue.value, ExcludedTagsCsv(excludeTags), cfg)
  {
    var csv := ExcludedTagsCsv(excludeTags);
    var buttons :=
      (if prevValue.Some? then [PrevButton(prevValue.value, csv, cfg)] else [])
      + (if nextValue.Some? then [NextButton(nextValue.value, csv, cfg)] else []);
    if |buttons| == 0 then [ActionRow([TagSelection(cfg, excludeTags)])]
    else [ActionRow([TagSelection(cfg, excludeTags)]), ActionRow(buttons)]
  }

  // ---------------------------------------------------------------------
  // the item-type chooser

  function TypeButton(t: ItemType, cfg: Config): Component
  {
    Button(Capitalize(t.Name()), ShowSortResultsAction + [cfg.argSeparator] + t.Name())
  }

  function TypeButtons(ts: seq<ItemType>, cfg: Config): (buttons: seq<Component>)
    ensures |buttons| == |ts|
    ensures forall i :: 0 <= i < |ts| ==> buttons[i] == TypeButton(ts[i], cfg)
  {
    seq(|ts|, i requires 0 <= i < |ts| => TypeButton(ts[i], cfg))
  }

  /**
   * `multiItemDisplayMessage`: one embed naming the sort expression and the
   * filters, and the item-type buttons in a row of the first five and a row
   * of the rest (present even when empty).
   */
  function MultiItemDisplayMessage(itemTypes: seq<ItemType>, p: SortFilterParams, cfg: Config): (m: Message)
  {
    var cut := if |itemTypes| < 5 then |itemTypes| else 5;
    Message(
      [Embed(Some("Sort items by " + p.sortExpression.pretty),
             Some(FiltersUsedText(p) + "\n\nClick on one of the buttons below"))],
      [ActionRow(TypeButtons(itemTypes[..cut], cfg)), ActionRow(TypeButtons(itemTypes[cut..], cfg))])
  }

  /**
   * The chooser always has two rows, the first with at most five buttons,
   * and together they hold one button per item type, in the given order.
   */
  lemma MultiItemButtonsCoverTypes(itemTypes: seq<ItemType>, p: SortFilterParams, cfg: Config)
    ensures var m := MultiItemDisplayMessage(itemTypes, p, cfg);
      && |m.components| == 2
      && |m.components[0].components| <= 5
      && m.components[0].components + m.components[1].components == TypeButtons(itemTypes, cfg)
  {
    var cut := if |itemTypes| < 5 then |itemTypes| else 5;
    var first, rest := TypeButtons(itemTypes[..cut], cfg), TypeButtons(itemTypes[cut..], cfg);
    var all := TypeButtons(itemTypes, cfg);
    assert |first + rest| == |all|;
    forall i | 0 <= i < |all| ensures (first + rest)[i] == all[i] {
      if i < cut {
        assert (first + rest)[i] == first[i];
      } else {
        assert (first + rest)[i] == rest[i - cut];
      }
    }
  }

  /** A chooser button's identifier splits into the action and the item type. */
  lemma TypeButtonIdSplits(t: ItemType, cfg: Config)
    requires cfg.argSeparator !in ShowSortResultsAction && cfg.argSeparator !in t.Name()
    ensures Split(TypeButton(t, cfg).customId, cfg.argSeparator) == [ShowSortResultsAction, t.Name()]
  {
    SplitAfterPrefix(ShowSortResultsAction, t.Name(), cfg.argSeparator);
    SplitWithoutSeparator(t.Name(), cfg.argSeparator);
  }

  // ---------------------------------------------------------------------
  // rendering one group

  /** One tag-set alternative: its tags capitalized and joined by '+', or "None". */
  function TagAlternative(tags: seq<string>): string
  {
    if |tags| > 0 then Join(seq(|tags|, i requires 0 <= i < |tags| => Capitalize(tags[i])), "+") else "None"
  }

  /** The alternatives joined by " / " in brackets, or nothing when that text is "None". */
  function PossibleTags(tagSet: seq<seq<string>>): string
  {
    var joined := Join(seq(|tagSet|, i requires 0 <= i < |tagSet| => TagAlternative(tagSet[i])), " / ");
    if joined == "None" then "" else "[" + joined + "]"
  }

  /** One entry: title in backticks, its levels, its possible tags, trimmed. */
  function RenderItem(e: ItemEntry): string
  {
    Trim("`" + e.title + "` (lv. "
         + Join(seq(|e.levels|, i requires 0 <= i < |e.levels| => IntToString(e.levels[i])), ", ")
         + ") " + PossibleTags(e.tagSet))
  }

  /** A group's text: the signed sort value in bold, then its entries joined by ", ". */
  function GroupText(g: ItemGroup): (text: string)
    ensures |text| > 0
  {
    var sign := if g.customSortValue < 0 then "" else "+";
    "**" + sign + IntToString(g.customSortValue) + "**\n "
      + Join(seq(|g.items|, i requires 0 <= i < |g.items| => RenderItem(g.items[i])), ", ") + "\n\n"
  }

  /** The texts `render` gives the groups, in stream order. */
  function Texts(gs: seq<ItemGroup>, render: ItemGroup -> string): (ts: seq<string>)
    ensures |ts| == |gs|
  {
    seq(|gs|, i requires 0 <= i < |gs| => render(gs[i]))
  }

  // ---------------------------------------------------------------------
  // accumulation

  /** The texts in order: what repeated appending builds. */
  function Concat(ts: seq<string>): string
  {
    if |ts| == 0 then "" else Concat(ts[..|ts| - 1]) + ts[|ts| - 1]
  }

  /** The texts last first: what repeated prepending builds. */
  function ConcatReversed(ts: seq<string>): string
  {
    if |ts| == 0 then "" else ts[|ts| - 1] + ConcatReversed(ts[..|ts| - 1])
  }

  function Reverse(ts: seq<string>): (r: seq<string>)
    ensures |r| == |ts|
    ensures forall i :: 0 <= i < |ts| ==> r[i] == ts[|ts| - 1 - i]
  {
    if |ts| == 0 then [] else [ts[|ts| - 1]] + Reverse(ts[..|ts| - 1])
  }

  /** The sum of the lengths of the texts. */
  function TotalLength(ts: seq<string>): nat
  {
    if |ts| == 0 then 0 else |ts[0]| + TotalLength(ts[1..])
  }

  lemma {:induction false} TotalLengthSnoc(ts: seq<string>, k: nat)
    requires k < |ts|
    ensures TotalLength(ts[..k + 1]) == TotalLength(ts[..k]) + |ts[k]|
    decreases k
  {
    if k > 0 {
      TotalLengthSnoc(ts[1..], k - 1);
      assert ts[..k + 1][1..] == ts[1..][..k];
      assert ts[..k][1..] == ts[1..][..k - 1];
    }
  }

  /** Both accumulation orders have the total length of the texts. */
  lemma {:induction false} ConcatLength(ts: seq<string>)
    ensures |Concat(ts)| == TotalLength(ts) && |ConcatReversed(ts)| == TotalLength(ts)
    decreases |ts|
  {
    if |ts| > 0 {
      ConcatLength(ts[..|ts| - 1]);
      TotalLengthSnoc(ts, |ts| - 1);
      assert ts[..|ts|] == ts;
    }
  }

  /** Prepending each text builds the texts in reverse order. */
  lemma {:induction false} ConcatReversedIsReverse(ts: seq<string>)
    ensures ConcatReversed(ts) == Concat(Reverse(ts))
    decreases |ts|
  {
    if |ts| > 0 {
      var init := ts[..|ts| - 1];
      ConcatReversedIsReverse(init);
      ConcatCons(ts[|ts| - 1], Reverse(init));
    }
  }

  lemma {:induction false} ConcatCons(t: string, ts: seq<string>)
    ensures Concat([t] + ts) == t + Concat(ts)
    decreases |ts|
  {
    if |ts| > 0 {
      var all := [t] + ts;
      assert all[..|all| - 1] == [t] + ts[..|ts| - 1];
      ConcatCons(t, ts[..|ts| - 1]);
    }
  }

  /** The text the loop builds from the accepted texts: prepended when browsing backwards. */
  function Accumulated(ts: seq<string>, prepend: bool): string
  {
    if prepend then ConcatReversed(ts) else Concat(ts)
  }

  /** One more text is prepended or appended to what the ones before it built. */
  lemma AccumulatedSnoc(ts: seq<string>, i: nat, prepend: bool)
    requires i < |ts|
    ensures Accumulated(ts[..i + 1], prepend)
      == if prepend then ts[i] + Accumulated(ts[..i], prepend) else Accumulated(ts[..i], prepend) + ts[i]
  {
    assert ts[..i + 1][..i] == ts[..i];
  }

  /**
   * How many of the texts from index `i` on the loop accepts, given `used`
   * characters already accumulated and `slots` groups still allowed: the
   * texts are taken in order while each fits beside the ones before it.
   */
  function AcceptedFrom(ts: seq<string>, i: nat, used: nat, slots: int, budget: nat): (k: nat)
    requires i <= |ts|
    ensures i + k <= |ts|
    decreases |ts| - i
  {
    if slots <= 0 || i == |ts| || |ts[i]| + used > budget then 0
    else 1 + AcceptedFrom(ts, i + 1, used + |ts[i]|, slots - 1, budget)
  }

  /**
   * The accepted texts are a run of at most `slots` texts that fits the
   * budget, and it is the longest such run: the next text, when there is
   * one and a slot for it, would overflow.
   */
  lemma {:induction false} AcceptedFromMaximal(ts: seq<string>, i: nat, used: nat, slots: int, budget: nat)
    requires i <= |ts|
    ensures var k := AcceptedFrom(ts, i, used, slots, budget);
      && (k > 0 ==> k <= slots && used + TotalLength(ts[i..i + k]) <= budget)
      && (i + k < |ts| && k < slots ==> used + TotalLength(ts[i..i + k]) + |ts[i + k]| > budget)
    decreases |ts| - i
  {
    if !(slots <= 0 || i == |ts| || |ts[i]| + used > budget) {
      AcceptedFromMaximal(ts, i + 1, used + |ts[i]|, slots - 1, budget);
      var k := AcceptedFrom(ts, i, used, slots, budget);
      assert ts[i..i + k][1..] == ts[i + 1..i + k];
    }
  }

  lemma AcceptedFromStep(ts: seq<string>, i: nat, used: nat, slots: int, budget: nat)
    requires i < |ts| && slots > 0 && |ts[i]| + used <= budget
    ensures AcceptedFrom(ts, i, used, slots, budget) == 1 + AcceptedFrom(ts, i + 1, used + |ts[i]|, slots - 1, budget)
  {
  }

  /** The number of groups the loop accepts from the stream `gs`. */
  function Accepted(gs: seq<ItemGroup>, render: ItemGroup -> string, budget: nat, resultLimit: nat): nat
  {
    AcceptedFrom(Texts(gs, render), 0, 0, resultLimit - 1, budget)
  }

  /** The loop's state when it ends. */
  datatype LoopState = LoopState(
    sortedList: string,
    lastResult: string,
    current: Option<ItemGroup>,
    lastGroupValue: Option<int>,
    groupCount: nat)

  /**
   * The loop's state after accepting the first `j` texts: their accumulated
   * text, the last of them, the group the cursor is on next, the last
   * accepted group's value, and the count of groups read.
   */
  function StateAfter(gs: seq<ItemGroup>, ts: seq<string>, j: nat, prepend: bool): LoopState
    requires j <= |gs| == |ts|
  {
    LoopState(
      Accumulated(ts[..j], prepend),
      if j > 0 then ts[j - 1] else "",
      if j < |gs| then Some(gs[j]) else None,
      if j > 0 then Some(gs[j - 1].customSortValue) else None,
      j)
  }

  /**
   * The end state of the accumulation loop over the groups `gs` with texts
   * `ts`: the state after the accepted groups, or, when the loop ended on a
   * group that does not fit, that state with the rejected group read and its
   * text last.
   */
  function OutcomeOf(gs: seq<ItemGroup>, ts: seq<string>, prepend: bool, budget: nat, limit: int): LoopState
    requires |gs| == |ts|
  {
    var k := AcceptedFrom(ts, 0, 0, limit - 1, budget);
    var st := StateAfter(gs, ts, k, prepend);
    if k < |gs| && k < limit - 1 then st.(lastResult := ts[k], groupCount := k + 1) else st
  }

  /** The loop's end state when `render` gives the groups' texts. */
  function LoopOutcome(gs: seq<ItemGroup>, render: ItemGroup -> string, prepend: bool,
                       budget: nat, resultLimit: nat): LoopState
  {
    OutcomeOf(gs, Texts(gs, render), prepend, budget, resultLimit)
  }

  /**
   * The loop run from state `st` to its end, one iteration per step: the
   * operational reading of the loop, which `RunIsOutcome` relates to the
   * closed form above.
   */
  function Run(gs: seq<ItemGroup>, ts: seq<string>, st: LoopState, prepend: bool, budget: nat, limit: int): LoopState
    requires st.groupCount <= |gs| == |ts|
    decreases |gs| - st.groupCount
  {
    var j := st.groupCount;
    if j < |gs| && j < limit - 1 then
      if |ts[j]| + |st.sortedList| > budget then st.(lastResult := ts[j], groupCount := j + 1)
      else
        Run(gs, ts,
            LoopState(if prepend then ts[j] + st.sortedList else st.sortedList + ts[j], ts[j],
                      if j + 1 < |gs| then Some(gs[j + 1]) else None, Some(gs[j].customSortValue), j + 1),
            prepend, budget, limit)
    else st
  }

  /**
   * Run from the state after any number of accepted texts, the loop ends in
   * the closed-form outcome: it accepts exactly the texts `AcceptedFrom`
   * counts and stops on the first that does not fit.
   */
  lemma {:induction false} RunIsOutcome(gs: seq<ItemGroup>, ts: seq<string>, prepend: bool,
                                        budget: nat, limit: int, j: nat)
    requires j <= |gs| == |ts|
    requires j + AcceptedFrom(ts, j, |Accumulated(ts[..j], prepend)|, limit - 1 - j, budget)
             == AcceptedFrom(ts, 0, 0, limit - 1, budget)
    ensures Run(gs, ts, StateAfter(gs, ts, j, prepend), prepend, budget, limit) == OutcomeOf(gs, ts, prepend, budget, limit)
    decreases |gs| - j
  {
    var st := StateAfter(gs, ts, j, prepend);
    var used := |st.sortedList|;
    if j < |gs| && j < limit - 1 {
      if |ts[j]| + used > budget {
        assert AcceptedFrom(ts, j, used, limit - 1 - j, budget) == 0;
      } else {
        AcceptedFromStep(ts, j, used, limit - 1 - j, budget);
        AccumulatedSnoc(ts, j, prepend);
        var next := LoopState(if prepend then ts[j] + st.sortedList else st.sortedList + ts[j], ts[j],
                              if j + 1 < |gs| then Some(gs[j + 1]) else None, Some(gs[j].customSortValue), j + 1);
        assert next == StateAfter(gs, ts, j + 1, prepend);
        RunIsOutcome(gs, ts, prepend, budget, limit, j + 1);
      }
    } else {
      assert AcceptedFrom(ts, j, used, limit - 1 - j, budget) == 0;
    }
  }

  /**
   * The fallback for a first group that does not fit: its text up to the
   * last item delimiter within the budget less the ellipsis, then the
   * ellipsis; unchanged when something was accepted or nothing rendered.
   */
  function Truncate(sortedList: string, lastResult: string, budget: nat): string
    requires budget >= |Ellipses|
  {
    if sortedList == "" && lastResult != "" then
      var windowEnd := if budget - |Ellipses| < |lastResult| then budget - |Ellipses| else |lastResult|;
      var index := LastIndexOf(lastResult[..windowEnd], ItemListDelimiter);
      if index != -1 then lastResult[..index] + Ellipses else sortedList
    else sortedList
  }

  /**
   * `j` is a place where the too-long text `s` may be cut: an item delimiter
   * starts there, and the text before it followed by the ellipsis fits the
   * budget.
   */
  predicate CutPoint(s: string, j: int, budget: nat)
  {
    OccursAt(s, ItemListDelimiter, j) && j + |ItemListDelimiter| + |Ellipses| <= budget
  }

  /**
   * When nothing was accumulated, the fallback cuts a non-empty text at its
   * last cut point and appends the ellipsis, and leaves the page empty when
   * the text has no cut point.
   */
  lemma TruncateAtLastCutPoint(lastResult: string, budget: nat)
    requires budget >= |Ellipses| && lastResult != ""
    ensures (forall j :: !CutPoint(lastResult, j, budget)) ==> Truncate("", lastResult, budget) == ""
    ensures (exists j :: CutPoint(lastResult, j, budget)) ==>
      exists idx :: && CutPoint(lastResult, idx, budget)
                    && (forall j :: CutPoint(lastResult, j, budget) ==> j <= idx)
                    && Truncate("", lastResult, budget) == lastResult[..idx] + Ellipses
  {
    var windowEnd := if budget - |Ellipses| < |lastResult| then budget - |Ellipses| else |lastResult|;
    var window := lastResult[..windowEnd];
    var idx := LastIndexOf(window, ItemListDelimiter);
    forall j | CutPoint(lastResult, j, budget)
      ensures OccursAt(window, ItemListDelimiter, j)
    {
      assert window[j..j + |ItemListDelimiter|] == lastResult[j..j + |ItemListDelimiter|];
    }
    if idx != -1 {
      assert window[idx..idx + |ItemListDelimiter|] == lastResult[idx..idx + |ItemListDelimiter|];
      assert CutPoint(lastResult, idx, budget);
    }
  }

  /** What one pass of the accumulator yields, before the message is composed. */
  datatype PageResult = PageResult(
    renderedText: string,
    firstGroupValue: Option<int>,
    lastGroupValue: Option<int>,
    exhausted: bool)

  /**
   * The page settled from the loop's end state and the first fetched value:
   * the last value falls back to the unconsumed group's, the two values are
   * swapped when browsing backwards, and the truncation fallback applied.
   */
  function PageFrom(out: LoopState, first: Option<int>, prepend: bool, budget: nat): PageResult
    requires budget >= |Ellipses|
  {
    var last :=
      if out.lastGroupValue.Some? then out.lastGroupValue
      else if out.current.Some? then Some(out.current.value.customSortValue)
      else None;
    PageResult(
      Truncate(out.sortedList, out.lastResult, budget),
      if prepend then last else first,
      if prepend then first else last,
      out.current.None?)
  }

  /** The value of the first group of the stream, if any. */
  function FirstValue(gs: seq<ItemGroup>): Option<int>
  {
    if |gs| > 0 then Some(gs[0].customSortValue) else None
  }

  /** The accumulator's result on the stream `gs`. */
  function PageResultOf(gs: seq<ItemGroup>, prepend: bool, cfg: Config): PageResult
    requires cfg.maxEmbedDescLength >= |Ellipses|
  {
    PageFrom(LoopOutcome(gs, GroupText, prepend, cfg.maxEmbedDescLength, cfg.queryResultLimit),
             FirstValue(gs), prepend, cfg.maxEmbedDescLength)
  }

  /** Prev is offered after a forward step, or after a backward step that did not exhaust the stream. */
  predicate OffersPrev(p: SortFilterParams, exhausted: bool)
  {
    p.nextPageValueLimit.Some? || (p.prevPageValueLimit.Some? && !exhausted)
  }

  /** Next is offered after a backward step, or on a page with more groups behind it. */
  predicate OffersNext(p: SortFilterParams, exhausted: bool)
  {
    || p.prevPageValueLimit.Some?
    || (p.prevPageValueLimit.None? && p.nextPageValueLimit.None? && !exhausted)
    || (p.nextPageValueLimit.Some? && !exhausted)
  }

  /** The element is replaced by its unaliased name when it is truthy. */
  function UnaliasElement(p: SortFilterParams, unaliasBonusName: string -> string): SortFilterParams
  {
    if StringTruthy(p.weaponElement) then p.(weaponElement := Some(unaliasBonusName(p.weaponElement.value)))
    else p
  }

  /**
   * The message for the (unaliased) request `p` and the settled page: the
   * title and filter summary, the page text or the no-results notice, and
   * the navigation rows with the buttons the two rules allow.
   */
  function ComposeMessage(p: SortFilterParams, page: PageResult, cfg: Config): Message
  {
    var rows := NavigationComponents(
      if OffersPrev(p, page.exhausted) then page.firstGroupValue else None,
      if OffersNext(p, page.exhausted) then page.lastGroupValue else None,
      p.excludeTags, cfg);
    var title := "Sort " + PrettyItemType(cfg, p.itemType) + " by " + p.sortExpression.pretty;
    Message(
      [Embed(Some(title), Some(FiltersUsedText(p))),
       Embed(None, Some(if page.renderedText == "" then NoResults else page.renderedText))],
      rows)
  }

  /** The message `getSortedItemList` returns when the store streams the groups `gs`. */
  function SortedItemsPage(gs: seq<ItemGroup>, params: SortFilterParams,
                           unaliasBonusName: string -> string, cfg: Config): Message
    requires cfg.maxEmbedDescLength >= |Ellipses|
  {
    var p := UnaliasElement(params, unaliasBonusName);
    ComposeMessage(p, PageResultOf(gs, NumberTruthy(p.prevPageValueLimit), cfg), cfg)
  }

  // ---------------------------------------------------------------------
  // properties of a page

  /**
   * The loop's text is the accepted groups' texts in fetch order, or in
   * reverse fetch order when browsing backwards, and it fits the budget;
   * when the loop stopped on a group, that group's text would not have fit.
   */
  lemma {:induction false} LoopTextIsAcceptedTexts(gs: seq<ItemGroup>, render: ItemGroup -> string, prepend: bool,
                                                   budget: nat, resultLimit: nat)
    ensures var ts := Texts(gs, render);
      var k := Accepted(gs, render, budget, resultLimit);
      var out := LoopOutcome(gs, render, prepend, budget, resultLimit);
      && out.sortedList == (if prepend then Concat(Reverse(ts[..k])) else Concat(ts[..k]))
      && |out.sortedList| <= budget
      && (k < |gs| && k < resultLimit - 1 ==> |out.sortedList| + |ts[k]| > budget)
  {
    var ts := Texts(gs, render);
    var k := Accepted(gs, render, budget, resultLimit);
    AcceptedFromMaximal(ts, 0, 0, resultLimit - 1, budget);
    ConcatLength(ts[..k]);
    ConcatReversedIsReverse(ts[..k]);
    assert ts[0..k] == ts[..k];
  }

  /**
   * The loop reads at most one group fewer than the result limit (and none
   * when the limit is 0 or 1), so the cursor is asked at most `resultLimit`
   * times.
   */
  lemma LoopReadsWithinLimit(gs: seq<ItemGroup>, render: ItemGroup -> string, prepend: bool,
                             budget: nat, resultLimit: nat)
    ensures LoopOutcome(gs, render, prepend, budget, resultLimit).groupCount
            <= if resultLimit > 0 then resultLimit - 1 else 0
  {
    AcceptedFromMaximal(Texts(gs, render), 0, 0, resultLimit - 1, budget);
  }

  /** The page text never exceeds the embed budget, truncated or not. */
  lemma PageTextFits(gs: seq<ItemGroup>, prepend: bool, cfg: Config)
    requires cfg.maxEmbedDescLength >= |Ellipses|
    ensures |PageResultOf(gs, prepend, cfg).renderedText| <= cfg.maxEmbedDescLength
  {
    LoopTextIsAcceptedTexts(gs, GroupText, prepend, cfg.maxEmbedDescLength, cfg.queryResultLimit);
  }

  /**
   * With a renderer that never yields an empty text, the truncation fallback
   * changes the page only when no group was accepted and the first group was
   * read: the page is then that group's text cut at its last cut point,
   * followed by the ellipsis.
   */
  lemma TruncationOnlyWhenNothingFits(gs: seq<ItemGroup>, render: ItemGroup -> string, prepend: bool,
                                      budget: nat, resultLimit: nat)
    requires budget >= |Ellipses|
    requires forall g :: render(g) != ""
    ensures var out := LoopOutcome(gs, render, prepend, budget, resultLimit);
      var text := PageFrom(out, FirstValue(gs), prepend, budget).renderedText;
      text != out.sortedList ==>
        && Accepted(gs, render, budget, resultLimit) == 0
        && |gs| > 0 && out.lastResult == render(gs[0])
        && exists idx :: && CutPoint(out.lastResult, idx, budget)
                         && (forall j :: CutPoint(out.lastResult, j, budget) ==> j <= idx)
                         && text == out.lastResult[..idx] + Ellipses
  {
    var ts := Texts(gs, render);
    var k := Accepted(gs, render, budget, resultLimit);
    var out := LoopOutcome(gs, render, prepend, budget, resultLimit);
    var text := PageFrom(out, FirstValue(gs), prepend, budget).renderedText;
    if text != out.sortedList {
      LoopTextIsAcceptedTexts(gs, render, prepend, budget, resultLimit);
      ConcatLength(ts[..k]);
      TruncateAtLastCutPoint(out.lastResult, budget);
    }
  }

  /**
   * Conversely, when the result limit allows a group and the first group's
   * text is longer than the budget, nothing is accumulated and the page is
   * that text cut at its last cut point with the ellipsis, or empty when it
   * has none.
   */
  lemma FirstGroupTooLongIsCut(gs: seq<ItemGroup>, render: ItemGroup -> string, prepend: bool,
                               budget: nat, resultLimit: nat)
    requires budget >= |Ellipses| && resultLimit >= 2
    requires |gs| > 0 && |render(gs[0])| > budget
    ensures var out := LoopOutcome(gs, render, prepend, budget, resultLimit);
      var first := render(gs[0]);
      var text := PageFrom(out, FirstValue(gs), prepend, budget).renderedText;
      && Accepted(gs, render, budget, resultLimit) == 0
      && out.sortedList == "" && out.lastResult == first
      && ((forall j :: !CutPoint(first, j, budget)) ==> text == "")
      && ((exists j :: CutPoint(first, j, budget)) ==>
            exists idx :: && CutPoint(first, idx, budget)
                          && (forall j :: CutPoint(first, j, budget) ==> j <= idx)
                          && text == first[..idx] + Ellipses)
  {
    var ts := Texts(gs, render);
    assert ts[0] == render(gs[0]);
    assert AcceptedFrom(ts, 0, 0, resultLimit - 1, budget) == 0;
    assert ts[..0] == [];
    TruncateAtLastCutPoint(render(gs[0]), budget);
  }

  /**
   * In the message, a first group too long for the embed shows as its text
   * cut at the last cut point with the ellipsis, or as the no-results notice
   * when its text has no cut point.
   */
  lemma FirstGroupTooLongMessage(gs: seq<ItemGroup>, params: SortFilterParams,
                                 unaliasBonusName: string -> string, cfg: Config)
    requires cfg.maxEmbedDescLength >= |Ellipses| && cfg.queryResultLimit >= 2
    requires |gs| > 0 && |GroupText(gs[0])| > cfg.maxEmbedDescLength
    ensures var m := SortedItemsPage(gs, params, unaliasBonusName, cfg);
      var first := GroupText(gs[0]);
      var budget := cfg.maxEmbedDescLength;
      && ((forall j :: !CutPoint(first, j, budget)) ==> m.embeds[1].description == Some(NoResults))
      && ((exists j :: CutPoint(first, j, budget)) ==>
            exists idx :: && CutPoint(first, idx, budget)
                          && (forall j :: CutPoint(first, j, budget) ==> j <= idx)
                          && m.embeds[1].description == Some(first[..idx] + Ellipses))
  {
    var p := UnaliasElement(params, unaliasBonusName);
    FirstGroupTooLongIsCut(gs, GroupText, NumberTruthy(p.prevPageValueLimit),
                           cfg.maxEmbedDescLength, cfg.queryResultLimit);
  }

  /**
   * Browsing backwards swaps the page's boundary values and nothing else
   * about them: forwards, the first value is the first group's and the last
   * is the last accepted group's, or the first group's when none fit.
   */
  lemma PrependSwapsBoundaries(gs: seq<ItemGroup>, cfg: Config)
    requires cfg.maxEmbedDescLength >= |Ellipses|
    ensures var fwd := PageResultOf(gs, false, cfg);
      var back := PageResultOf(gs, true, cfg);
      var k := Accepted(gs, GroupText, cfg.maxEmbedDescLength, cfg.queryResultLimit);
      && back.firstGroupValue == fwd.lastGroupValue
      && back.lastGroupValue == fwd.firstGroupValue
      && back.exhausted == fwd.exhausted
      && fwd.firstGroupValue == FirstValue(gs)
      && fwd.lastGroupValue == (if k > 0 then Some(gs[k - 1].customSortValue) else FirstValue(gs))
  {
  }

  /**
   * On the first page (neither limit given) there is no Prev button, and a
   * Next button carrying the last value exactly when groups remain unread.
   */
  lemma FirstPageOffersOnlyNext(gs: seq<ItemGroup>, params: SortFilterParams,
                                unaliasBonusName: string -> string, cfg: Config)
    requires cfg.maxEmbedDescLength >= |Ellipses|
    requires params.nextPageValueLimit.None? && params.prevPageValueLimit.None?
    ensures var m := SortedItemsPage(gs, params, unaliasBonusName, cfg);
      var page := PageResultOf(gs, false, cfg);
      && (|m.components| == 2 <==> !page.exhausted)
      && (!page.exhausted ==>
            m.components[1].components == [NextButton(page.lastGroupValue.value, ExcludedTagsCsv(params.excludeTags), cfg)])
  {
  }

  /**
   * After Next, a non-empty page always offers Prev, carrying the first
   * group's value, and offers Next too exactly when groups remain unread.
   */
  lemma ForwardPageOffersPrev(gs: seq<ItemGroup>, params: SortFilterParams,
                              unaliasBonusName: string -> string, cfg: Config)
    requires cfg.maxEmbedDescLength >= |Ellipses|
    requires params.nextPageValueLimit.Some? && params.prevPageValueLimit.None? && |gs| > 0
    ensures var m := SortedItemsPage(gs, params, unaliasBonusName, cfg);
      var page := PageResultOf(gs, false, cfg);
      && |m.components| == 2
      && m.components[1].components[0] == PrevButton(gs[0].customSortValue, ExcludedTagsCsv(params.excludeTags), cfg)
      && (|m.components[1].components| == 2 <==> !page.exhausted)
  {
  }

  /**
   * After Prev, a non-empty page always offers Next, carrying the value of
   * the first group read (the page's last after the swap), and offers Prev
   * too exactly when groups remain unread.
   */
  lemma BackwardPageOffersNext(gs: seq<ItemGroup>, params: SortFilterParams,
                               unaliasBonusName: string -> string, cfg: Config)
    requires cfg.maxEmbedDescLength >= |Ellipses|
    requires NumberTruthy(params.prevPageValueLimit) && params.nextPageValueLimit.None? && |gs| > 0
    ensures var m := SortedItemsPage(gs, params, unaliasBonusName, cfg);
      var page := PageResultOf(gs, true, cfg);
      var row := m.components[1].components;
      && |m.components| == 2
      && row[|row| - 1] == NextButton(gs[0].customSortValue, ExcludedTagsCsv(params.excludeTags), cfg)
      && (|row| == 2 <==> !page.exhausted)
  {
  }

  /** An empty stream gives the no-results notice and no navigation buttons. */
  lemma EmptyStreamPage(params: SortFilterParams, unaliasBonusName: string -> string, cfg: Config)
    requires cfg.maxEmbedDescLength >= |Ellipses|
    ensures var m := SortedItemsPage([], params, unaliasBonusName, cfg);
      && m.embeds[1].description == Some(NoResults)
      && |m.components| == 1
  {
  }

  // ---------------------------------------------------------------------
  // the cursor and the loop

  /** The store's aggregation cursor over the pipeline's groups, pulled one at a time. */
  class GroupCursor {
    const groups: seq<ItemGroup>
    var fetches: nat

    constructor (groups: seq<ItemGroup>)
      ensures this.groups == groups && fetches == 0
    {
      this.groups := groups;
      fetches := 0;
    }

    /** `cursor.next()`: the next group, or nothing once the stream is exhausted. */
    method Next() returns (g: Option<ItemGroup>)
      modifies this
      ensures fetches == old(fetches) + 1
      ensures g == if old(fetches) < |groups| then Some(groups[old(fetches)]) else None
    {
      g := if fetches < |groups| then Some(groups[fetches]) else None;
      fetches := fetches + 1;
    }
  }

  /**
   * The accumulation loop of `getSortedItemList` on a fresh cursor: the first
   * fetch, then one group per iteration while the stream lasts and fewer than
   * `resultLimit - 1` groups have been read; a group whose text (as `render`
   * gives it) does not fit beside the accumulated text ends the loop, and
   * every other one is prepended (browsing backwards) or appended, and the
   * cursor advanced.
   */
  method AccumulateGroups(cursor: GroupCursor, render: ItemGroup -> string, prepend: bool,
                          budget: nat, resultLimit: nat)
    returns (out: LoopState, firstGroupValue: Option<int>)
    requires cursor.fetches == 0
    modifies cursor
    ensures out == LoopOutcome(cursor.groups, render, prepend, budget, resultLimit)
    ensures firstGroupValue == FirstValue(cursor.groups)
    ensures cursor.fetches <= if resultLimit > 0 then resultLimit else 1
  {
    var limit: int := resultLimit;
    ghost var gs := cursor.groups;
    ghost var ts := Texts(gs, render);

    var sortedList: string := "";
    var lastResult: string := "";
    var groupCount: nat := 0;
    var lastGroupValue: Option<int> := None;

    var itemGroup := cursor.Next();
    firstGroupValue := if itemGroup.Some? then Some(itemGroup.value.customSortValue) else None;
    ghost var start := LoopState(sortedList, lastResult, itemGroup, lastGroupValue, groupCount);
    assert start == StateAfter(gs, ts, 0, prepend);
    ghost var final := Run(gs, ts, start, prepend, budget, limit);

    while itemGroup.Some? && groupCount < limit - 1
      invariant groupCount <= |gs|
      invariant cursor.fetches == groupCount + 1
      invariant itemGroup == if groupCount < |gs| then Some(gs[groupCount]) else None
      invariant Run(gs, ts, LoopState(sortedList, lastResult, itemGroup, lastGroupValue, groupCount), prepend, budget, limit) == final
      decreases |gs| - groupCount
    {
      ghost var i := groupCount;
      groupCount := groupCount + 1;
      lastResult := render(itemGroup.value);
      assert lastResult == ts[i];
      if |lastResult| + |sortedList| > budget {
        break;
      }
      if prepend {
        sortedList := lastResult + sortedList;
      } else {
        sortedList := sortedList + lastResult;
      }
      lastGroupValue := Some(itemGroup.value.customSortValue);
      itemGroup := cursor.Next();
    }
    out := LoopState(sortedList, lastResult, itemGroup, lastGroupValue, groupCount);
    assert out == final;
    RunIsOutcome(gs, ts, prepend, budget, limit, 0);
    LoopReadsWithinLimit(gs, render, prepend, budget, resultLimit);
  }

  /**
   * The steps of `getSortedItemList` between the loop and the buttons: the
   * last value falls back to the unconsumed group's, the boundary values are
   * swapped when browsing backwards, and a first group too long for the
   * budget is cut at its last item delimiter and marked with an ellipsis.
   */
  method SettlePage(out: LoopState, firstValue: Option<int>, prepend: bool, budget: nat)
    returns (page: PageResult)
    requires budget >= |Ellipses|
    ensures page == PageFrom(out, firstValue, prepend, budget)
  {
    var sortedList, lastResult, itemGroup := out.sortedList, out.lastResult, out.current;
    var firstGroupValue, lastGroupValue := firstValue, out.lastGroupValue;
    if lastGroupValue == None {
      lastGroupValue := if itemGroup.Some? then Some(itemGroup.value.customSortValue) else None;
    }
    if prepend {
      lastGroupValue, firstGroupValue := firstGroupValue, lastGroupValue;
    }
    if sortedList == "" && lastResult != "" {
      var windowEnd := if budget - |Ellipses| < |lastResult| then budget - |Ellipses| else |lastResult|;
      var lastItemIndexBeforeLimit := LastIndexOf(lastResult[..windowEnd], ItemListDelimiter);
      if lastItemIndexBeforeLimit != -1 {
        sortedList := lastResult[..lastItemIndexBeforeLimit] + Ellipses;
      }
    }
    page := PageResult(sortedList, firstGroupValue, lastGroupValue, itemGroup == None);
  }

  /**
   * The last steps of `getSortedItemList`: the Prev and Next values passed
   * on only where the source's two rules allow them, the no-results notice,
   * the title and the filter summary.
   */
  method ComposePage(p: SortFilterParams, page: PageResult, cfg: Config) returns (message: Message)
    ensures message == ComposeMessage(p, page, cfg)
  {
    var exhausted := page.exhausted;
    var buttonRow := NavigationComponents(
      if p.nextPageValueLimit != None || (p.prevPageValueLimit != None && !exhausted)
      then page.firstGroupValue else None,
      if p.prevPageValueLimit != None
         || (p.prevPageValueLimit == None && p.nextPageValueLimit == None && !exhausted)
         || (p.nextPageValueLimit != None && !exhausted)
      then page.lastGroupValue else None,
      p.excludeTags, cfg);
    var sortedList := page.renderedText;
    if sortedList == "" {
      sortedList := NoResults;
    }
    var title := "Sort " + PrettyItemType(cfg, p.itemType) + " by " + p.sortExpression.pretty;
    var filters := FiltersUsedText(p);
    message := Message([Embed(Some(title), Some(filters)), Embed(None, Some(sortedList))], buttonRow);
  }

  /**
   * `getSortedItemList`: the element is unaliased, the pipeline built and
   * handed to the store (`aggregate`, which stands for the document store),
   * the groups accumulated, the page settled, the buttons decided and the
   * message composed.
   */
  method GetSortedItemList(params: SortFilterParams, unaliasBonusName: string -> string,
                           aggregate: seq<Stage> -> seq<ItemGroup>, cfg: Config) returns (message: Message)
    requires cfg.maxEmbedDescLength >= |Ellipses|
    ensures var gs := aggregate(SortQueryPipeline(UnaliasElement(params, unaliasBonusName), cfg.queryResultLimit));
      message == SortedItemsPage(gs, params, unaliasBonusName, cfg)
  {
    var p := params;
    if p.weaponElement != None && p.weaponElement.value != "" {
      p := p.(weaponElement := Some(unaliasBonusName(p.weaponElement.value)));
    }
    var pipeline := GetSortQueryPipeline(p, cfg.queryResultLimit);
    var cursor := new GroupCursor(aggregate(pipeline));
    var prepend := p.prevPageValueLimit != None && p.prevPageValueLimit.value != 0;

    var out, firstGroupValue := AccumulateGroups(cursor, GroupText, prepend, cfg.maxEmbedDescLength, cfg.queryResultLimit);
    var page := SettlePage(out, firstGroupValue, prepend, cfg.maxEmbedDescLength);

    message := ComposePage(p, page, cfg);
  }
}
