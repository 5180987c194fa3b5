/**
 * The query pipeline builder: sort and filter parameters become the ordered
 * list of aggregation stages the document store runs. Stages whose content
 * the builder copies through unexamined (the averaged and keyed fields, the
 * resolver's derived-field expression) are kept as opaque descriptors; the
 * match filter is spelled out, and `Matches` gives it the store's meaning on
 * one item document.
 */
module QueryBuilder {
  import opened Common
  import opened SortTypes

  // ---------------------------------------------------------------------
  // the pipeline as data

  /** The `type` key of the item-type filter: absent, one value, or `$in` a list. */
  datatype TypeConstraint = AnyType | TypeIs(name: string) | TypeIn(names: seq<string>)

  datatype ItemTypeFilter = ItemTypeFilter(category: string, itemType: TypeConstraint)

  /** A directional page cursor on the sort value: `$gt` or `$lt`. */
  datatype ValueBound = Unbounded | Above(limit: int) | Below(limit: int)

  /** The `customSortValue` condition: `$exists`, `$ne` and the optional cursor. */
  datatype SortValueFilter = SortValueFilter(mustExist: bool, excluded: int, bound: ValueBound)

  /** One `$nor` alternative on `tagSet.tags`: a single tag, or `$all` of several. */
  datatype TagRule = TaggedWith(tag: string) | TaggedWithAll(tags: seq<string>)

  /** The `level` condition: `$gte` and `$lte`, each present or not. */
  datatype LevelRange = LevelRange(gte: Option<int>, lte: Option<int>)

  datatype MatchFilter = MatchFilter(
    sortValue: SortValueFilter,
    itemType: ItemTypeFilter,
    nor: seq<TagRule>,
    element: Option<string>,
    level: Option<LevelRange>)

  datatype Stage =
    | AddAveragedFields                     // $avg damage, $arrayToObject bonuses and resists
    | AddSortValue(expression: MongoExpression)
    | Match(filter: MatchFilter)
    | GroupByValueTitleTagSet               // push the levels of identical (value, title, tagSet)
    | SortByTitle
    | GroupByValue                          // push {title, levels, tagSet} per sort value
    | CopySortValue                         // customSortValue := _id.customSortValue
    | SortByValue(order: int)
    | Limit(count: nat)

  // ---------------------------------------------------------------------
  // the builder

  /** `getItemTypeFilter`: the category/type constraint for one sortable type. */
  function GetItemTypeFilter(t: ItemType): (f: ItemTypeFilter)
  {
    if t == Weapon then ItemTypeFilter("weapon", AnyType)
    else if t == Cape then ItemTypeFilter("accessory", TypeIn(["cape", "wings"]))
    else ItemTypeFilter("accessory", TypeIs(t.Name()))
  }

  /** The four unconditional `$nor` exclusions. */
  function FixedExclusions(): seq<TagRule>
  {
    [TaggedWith("ak"), TaggedWith("alexander"),
     TaggedWithAll(["temp", "default"]), TaggedWithAll(["temp", "rare"])]
  }

  /** The cursor rule: the next limit wins over the previous one; descending flips both. */
  function CursorBound(p: SortFilterParams): (b: ValueBound)
  {
    match (p.nextPageValueLimit, p.prevPageValueLimit)
    case (Some(next), _) => if p.ascending then Above(next) else Below(next)
    case (None, Some(prev)) => if p.ascending then Below(prev) else Above(prev)
    case (None, None) => Unbounded
  }

  /**
   * The order groups are fetched in: ascending exactly when the request is
   * ascending and the previous limit is falsy, or descending and it is truthy.
   */
  function SortOrder(p: SortFilterParams): (order: int)
    ensures order == 1 || order == -1
    ensures order == 1 <==> p.ascending != NumberTruthy(p.prevPageValueLimit)
  {
    if (p.ascending && !NumberTruthy(p.prevPageValueLimit))
      || (!p.ascending && NumberTruthy(p.prevPageValueLimit))
    then 1 else -1
  }

  /** The match filter the parameters call for, field by field. */
  function MatchFilterFor(p: SortFilterParams): (f: MatchFilter)
  {
    MatchFilter(
      SortValueFilter(true, 0, CursorBound(p)),
      GetItemTypeFilter(p.itemType),
      FixedExclusions(),
      if StringTruthy(p.weaponElement) then p.weaponElement else None,
      if p.minLevel.Some? || p.maxLevel.Some? then Some(LevelRange(p.minLevel, p.maxLevel)) else None)
  }

  /** The pipeline: derived fields, match, two-level grouping, ordering, cap. */
  function SortQueryPipeline(p: SortFilterParams, resultLimit: nat): (stages: seq<Stage>)
  {
    [ AddAveragedFields,
      AddSortValue(p.sortExpression.mongo),
      Match(MatchFilterFor(p)),
      GroupByValueTitleTagSet,
      SortByTitle,
      GroupByValue,
      CopySortValue,
      SortByValue(SortOrder(p)),
      Limit(resultLimit) ]
  }

  /**
   * `getSortQueryPipeline` as written: the filter starts with the fixed
   * conditions and is then completed step by step.
   */
  method GetSortQueryPipeline(p: SortFilterParams, resultLimit: nat) returns (stages: seq<Stage>)
    ensures stages == SortQueryPipeline(p, resultLimit)
  {
    var filter := MatchFilter(
      SortValueFilter(true, 0, Unbounded),
      GetItemTypeFilter(p.itemType),
      FixedExclusions(),
      if StringTruthy(p.weaponElement) then Some(p.weaponElement.value) else None,
      None);
    if p.minLevel != None || p.maxLevel != None {
      filter := filter.(level := Some(LevelRange(p.minLevel, p.maxLevel)));
    }
    if p.nextPageValueLimit != None {
      if p.ascending {
        filter := filter.(sortValue := filter.sortValue.(bound := Above(p.nextPageValueLimit.value)));
      } else {
        filter := filter.(sortValue := filter.sortValue.(bound := Below(p.nextPageValueLimit.value)));
      }
    } else if p.prevPageValueLimit != None {
      if p.ascending {
        filter := filter.(sortValue := filter.sortValue.(bound := Below(p.prevPageValueLimit.value)));
      } else {
        filter := filter.(sortValue := filter.sortValue.(bound := Above(p.prevPageValueLimit.value)));
      }
    }
    var prevTruthy := p.prevPageValueLimit != None && p.prevPageValueLimit.value != 0;
    var sortOrder := if (p.ascending && !prevTruthy) || (!p.ascending && prevTruthy) then 1 else -1;
    stages := [
      AddAveragedFields,
      AddSortValue(p.sortExpression.mongo),
      Match(filter),
      GroupByValueTitleTagSet,
      SortByTitle,
      GroupByValue,
      CopySortValue,
      SortByValue(sortOrder),
      Limit(resultLimit)
    ];
  }

  // ---------------------------------------------------------------------
  // what the match stage selects

  /** An item document as the match stage sees it, after the derived fields are added. */
  datatype ItemDocument = ItemDocument(
    category: string,
    storedType: string,
    tagSet: seq<seq<string>>,
    elements: seq<string>,
    level: int,
    customSortValue: Option<int>)

  /** `tagSet.tags` equals `tag`: some alternative of the item carries the tag. */
  predicate CarriesTag(d: ItemDocument, tag: string)
  {
    exists i :: 0 <= i < |d.tagSet| && tag in d.tagSet[i]
  }

  /** `$all` on `tagSet.tags`: every listed tag is carried by some alternative. */
  predicate CarriesAll(d: ItemDocument, tags: seq<string>)
  {
    forall t :: t in tags ==> CarriesTag(d, t)
  }

  predicate RuleHolds(r: TagRule, d: ItemDocument)
  {
    match r
    case TaggedWith(tag) => CarriesTag(d, tag)
    case TaggedWithAll(tags) => CarriesAll(d, tags)
  }

  predicate BoundHolds(b: ValueBound, v: int)
  {
    match b
    case Unbounded => true
    case Above(limit) => v > limit
    case Below(limit) => v < limit
  }

  predicate TypeHolds(f: ItemTypeFilter, d: ItemDocument)
  {
    && d.category == f.category
    && match f.itemType
       case AnyType => true
       case TypeIs(name) => d.storedType == name
       case TypeIn(names) => d.storedType in names
  }

  predicate LevelHolds(r: LevelRange, level: int)
  {
    (r.gte.Some? ==> level >= r.gte.value) && (r.lte.Some? ==> level <= r.lte.value)
  }

  /** The store's reading of a match filter on one document. */
  predicate Matches(f: MatchFilter, d: ItemDocument)
  {
    && (f.sortValue.mustExist ==> d.customSortValue.Some?)
    && (d.customSortValue.Some? ==>
          d.customSortValue.value != f.sortValue.excluded
          && BoundHolds(f.sortValue.bound, d.customSortValue.value))
    && TypeHolds(f.itemType, d)
    && (forall i :: 0 <= i < |f.nor| ==> !RuleHolds(f.nor[i], d))
    && (f.element.Some? ==> f.element.value in d.elements)
    && (f.level.Some? ==> LevelHolds(f.level.value, d.level))
  }

  // ---------------------------------------------------------------------
  // properties of the pipeline

  /**
   * The item-type filter selects weapons for the weapon type, capes and wings
   * for the cape type, and accessories of exactly the requested type otherwise.
   */
  lemma ItemTypeFilterSelects(t: ItemType, d: ItemDocument)
    ensures TypeHolds(GetItemTypeFilter(t), d) <==>
      if t == Weapon then d.category == "weapon"
      else if t == Cape then d.category == "accessory" && (d.storedType == "cape" || d.storedType == "wings")
      else d.category == "accessory" && d.storedType == t.Name()
  {
  }

  /** The stage list has a fixed shape, whatever the parameters. */
  lemma PipelineShape(p: SortFilterParams, resultLimit: nat)
    ensures var stages := SortQueryPipeline(p, resultLimit);
      && |stages| == 9
      && stages[0] == AddAveragedFields
      && stages[1] == AddSortValue(p.sortExpression.mongo)
      && stages[2].Match?
      && stages[3] == GroupByValueTitleTagSet
      && stages[4] == SortByTitle
      && stages[5] == GroupByValue
      && stages[6] == CopySortValue
      && stages[7].SortByValue? && (stages[7].order == 1 <==> p.ascending != NumberTruthy(p.prevPageValueLimit))
      && stages[8] == Limit(resultLimit)
  {
  }

  /**
   * Everything the match stage of the pipeline admits, stated condition by
   * condition: a defined non-zero sort value beyond the cursor in the browsing
   * direction, the item type, none of the four fixed exclusions, the weapon
   * element when one is given, and each level bound that is given.
   */
  lemma MatchStageAdmits(p: SortFilterParams, d: ItemDocument)
    ensures Matches(MatchFilterFor(p), d) <==>
      && d.customSortValue.Some?
      && d.customSortValue.value != 0
      && (p.nextPageValueLimit.Some? ==>
            if p.ascending then d.customSortValue.value > p.nextPageValueLimit.value
            else d.customSortValue.value < p.nextPageValueLimit.value)
      && (p.nextPageValueLimit.None? && p.prevPageValueLimit.Some? ==>
            if p.ascending then d.customSortValue.value < p.prevPageValueLimit.value
            else d.customSortValue.value > p.prevPageValueLimit.value)
      && TypeHolds(GetItemTypeFilter(p.itemType), d)
      && !CarriesTag(d, "ak")
      && !CarriesTag(d, "alexander")
      && !(CarriesTag(d, "temp") && CarriesTag(d, "default"))
      && !(CarriesTag(d, "temp") && CarriesTag(d, "rare"))
      && (StringTruthy(p.weaponElement) ==> p.weaponElement.value in d.elements)
      && (p.minLevel.Some? ==> d.level >= p.minLevel.value)
      && (p.maxLevel.Some? ==> d.level <= p.maxLevel.value)
  {
    assert MatchFilterFor(p).nor == FixedExclusions();
    FixedExclusionsAdmit(d);
  }

  /**
   * A document passes the four fixed exclusions exactly when it carries
   * neither "ak" nor "alexander", and "temp" with neither "default" nor "rare".
   */
  lemma FixedExclusionsAdmit(d: ItemDocument)
    ensures (forall i :: 0 <= i < |FixedExclusions()| ==> !RuleHolds(FixedExclusions()[i], d)) <==>
      && !CarriesTag(d, "ak")
      && !CarriesTag(d, "alexander")
      && !(CarriesTag(d, "temp") && CarriesTag(d, "default"))
      && !(CarriesTag(d, "temp") && CarriesTag(d, "rare"))
  {
    var nor := FixedExclusions();
    assert CarriesAll(d, ["temp", "default"]) <==> CarriesTag(d, "temp") && CarriesTag(d, "default") by {
      assert forall t :: t in ["temp", "default"] <==> t == "temp" || t == "default";
    }
    assert CarriesAll(d, ["temp", "rare"]) <==> CarriesTag(d, "temp") && CarriesTag(d, "rare") by {
      assert forall t :: t in ["temp", "rare"] <==> t == "temp" || t == "rare";
    }
    assert (forall i :: 0 <= i < |nor| ==> !RuleHolds(nor[i], d)) <==>
      !RuleHolds(nor[0], d) && !RuleHolds(nor[1], d) && !RuleHolds(nor[2], d) && !RuleHolds(nor[3], d);
  }

  /**
   * With one page limit set, and a previous limit that is not 0, the cursor
   * bound and the fetch order point the same way: values are fetched
   * starting next to the cursor and moving away from it.
   */
  lemma CursorAndOrderAgree(p: SortFilterParams)
    requires p.nextPageValueLimit.None? || p.prevPageValueLimit.None?
    requires p.prevPageValueLimit != Some(0)
    ensures CursorBound(p).Above? ==> SortOrder(p) == 1
    ensures CursorBound(p).Below? ==> SortOrder(p) == -1
  {
  }

  /**
   * A previous limit of 0 is defined but falsy: the bound is set while the
   * order stays that of a first page, so an ascending request fetches from
   * the smallest value below 0 rather than from the one next to the cursor.
   */
  lemma ZeroPrevLimitOrderMismatch(p: SortFilterParams)
    requires p.ascending && p.nextPageValueLimit.None? && p.prevPageValueLimit == Some(0)
    ensures CursorBound(p) == Below(0) && SortOrder(p) == 1
  {
  }

  /** The excluded tags of the request play no part in the pipeline. */
  lemma PipelineIgnoresExcludedTags(p: SortFilterParams, tags: Option<seq<string>>, resultLimit: nat)
    ensures SortQueryPipeline(p.(excludeTags := tags), resultLimit) == SortQueryPipeline(p, resultLimit)
  {
  }
}
