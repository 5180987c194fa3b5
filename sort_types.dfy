/**
 * The values shared by the sort engine: the request parameters, the item
 * groups the document store streams back, and the deployment constants the
 * engine is parameterised by.
 */
module SortTypes {
  import opened Common

  /** The sortable item types, one per sort sub-command except "all-items". */
  datatype ItemType = Weapon | Cape | Helm | Belt | Necklace | Ring | Trinket | Bracer
  {
    /** The type's name as stored in documents and shown on buttons. */
    function Name(): string
    {
      match this
      case Weapon => "weapon"
      case Cape => "cape"
      case Helm => "helm"
      case Belt => "belt"
      case Necklace => "necklace"
      case Ring => "ring"
      case Trinket => "trinket"
      case Bracer => "bracer"
    }
  }

  /** The resolver's derived-field expression, passed to the store unexamined. */
  datatype MongoExpression = MongoExpression(source: string)

  /** A resolved sort expression: the formula, its label, and its store form. */
  datatype SortExpression = SortExpression(baseExpression: string, pretty: string, mongo: MongoExpression)

  /**
   * The fields of a sort request that the engine reads. An absent optional
   * field is JavaScript's `undefined`.
   */
  datatype SortFilterParams = SortFilterParams(
    itemType: ItemType,
    ascending: bool,
    sortExpression: SortExpression,
    weaponElement: Option<string>,
    minLevel: Option<int>,
    maxLevel: Option<int>,
    nextPageValueLimit: Option<int>,
    prevPageValueLimit: Option<int>,
    excludeTags: Option<seq<string>>)

  /** JavaScript truthiness of an optional number: defined and not zero. */
  predicate NumberTruthy(v: Option<int>)
  {
    v.Some? && v.value != 0
  }

  /** JavaScript truthiness of an optional string: defined and not empty. */
  predicate StringTruthy(s: Option<string>)
  {
    s.Some? && s.value != ""
  }

  /** One title within a group: the levels it occurs at and its tag-set alternatives. */
  datatype ItemEntry = ItemEntry(title: string, levels: seq<int>, tagSet: seq<seq<string>>)

  /** All entries sharing one derived sort value: the unit of pagination. */
  datatype ItemGroup = ItemGroup(customSortValue: int, items: seq<ItemEntry>)

  /**
   * Constants of the deployment that live outside the modelled files:
   * MAX_EMBED_DESC_LENGTH, QUERY_RESULT_LIMIT, INTERACTION_ID_ARG_SEPARATOR,
   * the SORT_ACTIONS identifiers, SORTABLE_TAGS and the two display-name tables.
   */
  datatype Config = Config(
    maxEmbedDescLength: nat,
    queryResultLimit: nat,
    argSeparator: char,
    prevPageAction: string,
    nextPageAction: string,
    tagSelectionAction: string,
    sortableTags: seq<string>,
    prettyTagNames: map<string, string>,
    prettyItemTypes: map<ItemType, string>)

  /** Looking up a missing key of a display-name table yields the text "undefined". */
  function PrettyTagName(cfg: Config, tag: string): string
  {
    if tag in cfg.prettyTagNames then cfg.prettyTagNames[tag] else "undefined"
  }

  /**
   * A tag's display name as an array join writes it: a missing key is
   * undefined, which the join writes as the empty string.
   */
  function JoinedTagName(cfg: Config, tag: string): string
  {
    if tag in cfg.prettyTagNames then cfg.prettyTagNames[tag] else ""
  }

  function PrettyItemType(cfg: Config, t: ItemType): string
  {
    if t in cfg.prettyItemTypes then cfg.prettyItemTypes[t] else "undefined"
  }
}
