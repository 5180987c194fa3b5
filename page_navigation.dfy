/**
 * The Prev/Next button handler: it reads the boundary value and the
 * excluded-tag list back out of the pressed button's identifier, recovers
 * the other filters from the message's first embed, sets exactly one of the
 * two page limits, and asks the sort engine for the new page.
 */
module PageNavigation {
  import opened Common
  import opened Text
  import opened SortTypes
  import opened QueryBuilder
  import opened SortedItems

  /** The handler's failures: a thrown `TypeError`, or a boundary that is no integer. */
  datatype HandlerError =
    | MissingTagList          // `args[1]` is undefined, so `.split` throws
    | MissingEmbed            // the message has no first embed to read
    | NotAnInteger(text: string)

  /** The pagination state an identifier carries once decoded. */
  datatype PageRequest = PageRequest(valueLimit: int, excludedTags: seq<string>)

  /** The two names the handler is registered under. */
  function HandlerNames(cfg: Config): seq<string>
  {
    [cfg.prevPageAction, cfg.nextPageAction]
  }

  /**
   * How an interaction identifier reaches a handler: the event dispatcher,
   * which is not part of this model, splits it on the separator; the first
   * piece selects the handler and the rest are its arguments.
   */
  function Dispatch(customId: string, sep: char): (string, seq<string>)
  {
    var parts := Split(customId, sep);
    (parts[0], parts[1..])
  }

  /**
   * The argument decoding of `run`: the boundary value and the excluded-tag
   * list split on commas. With fewer than two arguments the split of
   * `undefined` throws.
   */
  function DecodeArgs(args: seq<string>): Result<PageRequest, HandlerError>
  {
    if |args| < 2 then Err(MissingTagList)
    else
      match ParseInteger(args[0])
      case None => Err(NotAnInteger(args[0]))
      case Some(v) => Ok(PageRequest(v, Split(args[1], ',')))
  }

  /**
   * The filters `run` hands to the sort engine. `getFiltersFromEmbed`, whose
   * code is not part of this model, turns the first embed's title, its
   * description and the excluded tags back into a request; the Next handler
   * then sets only the next limit and any other name only the previous limit.
   */
  function UsedFilters(handlerName: string, args: seq<string>, embeds: seq<Embed>,
                       getFiltersFromEmbed: (Option<string>, Option<string>, seq<string>) -> SortFilterParams,
                       cfg: Config): Result<SortFilterParams, HandlerError>
  {
    if |args| < 2 then Err(MissingTagList)
    else if |embeds| == 0 then Err(MissingEmbed)
    else
      match DecodeArgs(args)
      case Err(e) => Err(e)
      case Ok(req) =>
        var base := getFiltersFromEmbed(embeds[0].title, embeds[0].description, req.excludedTags);
        if handlerName == cfg.nextPageAction then Ok(base.(nextPageValueLimit := Some(req.valueLimit)))
        else Ok(base.(prevPageValueLimit := Some(req.valueLimit)))
  }

  // ---------------------------------------------------------------------
  // the handler

  /**
   * `run`: decode the arguments, rebuild the filters from the embed, set the
   * limit the button names, and compose the next page from the groups the
   * store (`aggregate`) returns for the rebuilt request.
   */
  method RunPageHandler(handlerName: string, args: seq<string>, embeds: seq<Embed>,
                        getFiltersFromEmbed: (Option<string>, Option<string>, seq<string>) -> SortFilterParams,
                        unaliasBonusName: string -> string, aggregate: seq<Stage> -> seq<ItemGroup>,
                        cfg: Config) returns (reply: Result<Message, HandlerError>)
    requires cfg.maxEmbedDescLength >= |Ellipses|
    ensures var filters := UsedFilters(handlerName, args, embeds, getFiltersFromEmbed, cfg);
      && (reply.Ok? <==> filters.Ok?)
      && (reply.Err? ==> reply.error == filters.error)
      && (reply.Ok? ==> reply.value == SortedItemsPage(
            aggregate(SortQueryPipeline(UnaliasElement(filters.value, unaliasBonusName), cfg.queryResultLimit)),
            filters.value, unaliasBonusName, cfg))
  {
    if |args| < 2 {
      return Err(MissingTagList);
    }
    var valueLimit, excludedTagList := args[0], args[1];
    var excludedTags := Split(excludedTagList, ',');
    if |embeds| == 0 {
      return Err(MissingEmbed);
    }
    var usedFilters := getFiltersFromEmbed(embeds[0].title, embeds[0].description, excludedTags);
    var limit := ParseInteger(valueLimit);
    if limit == None {
      return Err(NotAnInteger(valueLimit));
    }
    if handlerName == cfg.nextPageAction {
      usedFilters := usedFilters.(nextPageValueLimit := limit);
    } else {
      usedFilters := usedFilters.(prevPageValueLimit := limit);
    }
    var message := GetSortedItemList(usedFilters, unaliasBonusName, aggregate, cfg);
    reply := Ok(message);
  }

  // ---------------------------------------------------------------------
  // properties of the decoding

  /**
   * The filters differ from the embed's only in the one limit the handler
   * name selects: the next limit for the Next name, the previous limit for
   * any other, both set to the decoded boundary value.
   */
  lemma SetsExactlyOneLimit(handlerName: string, args: seq<string>, embeds: seq<Embed>,
                            getFiltersFromEmbed: (Option<string>, Option<string>, seq<string>) -> SortFilterParams,
                            cfg: Config)
    requires |args| >= 2 && |embeds| > 0 && ParseInteger(args[0]).Some?
    ensures var r := UsedFilters(handlerName, args, embeds, getFiltersFromEmbed, cfg);
      var base := getFiltersFromEmbed(embeds[0].title, embeds[0].description, Split(args[1], ','));
      var v := ParseInteger(args[0]).value;
      && r.Ok?
      && (handlerName == cfg.nextPageAction ==>
            r.value.nextPageValueLimit == Some(v) && r.value.(nextPageValueLimit := base.nextPageValueLimit) == base)
      && (handlerName != cfg.nextPageAction ==>
            r.value.prevPageValueLimit == Some(v) && r.value.(prevPageValueLimit := base.prevPageValueLimit) == base)
  {
  }

  /**
   * The handler fails exactly when an argument or the embed is missing or
   * the boundary is not an integer, in the order the code meets them.
   */
  lemma HandlerFailures(handlerName: string, args: seq<string>, embeds: seq<Embed>,
                        getFiltersFromEmbed: (Option<string>, Option<string>, seq<string>) -> SortFilterParams,
                        cfg: Config)
    ensures var r := UsedFilters(handlerName, args, embeds, getFiltersFromEmbed, cfg);
      && (r == Err(MissingTagList) <==> |args| < 2)
      && (r == Err(MissingEmbed) <==> |args| >= 2 && |embeds| == 0)
      && (r.Err? && r.error.NotAnInteger? <==> |args| >= 2 && |embeds| > 0 && ParseInteger(args[0]).None?)
  {
  }

  /** The tag list the decoder recovers: an empty list comes back as one empty tag. */
  function DecodedTags(tags: seq<string>): seq<string>
  {
    if |tags| == 0 then [""] else tags
  }

  /** No tag holds a comma or the separator. */
  predicate TagsEncodable(tags: seq<string>, sep: char)
  {
    forall i :: 0 <= i < |tags| ==> ',' !in tags[i] && sep !in tags[i]
  }

  /**
   * Splitting the comma-joined tag list on commas gives the list back when it
   * is non-empty, and the one-element list `[""]` when it is empty.
   */
  lemma TagListRoundTrip(tags: seq<string>)
    requires TagsEncodable(tags, ',')
    ensures Split(Join(tags, ","), ',') == DecodedTags(tags)
  {
    if |tags| > 0 {
      SplitJoin(tags, ',');
    }
  }

  /**
   * The reserved separator occurs in neither action name, is neither a comma
   * nor a character of a rendered integer, and the two names differ.
   */
  predicate SeparatorReserved(cfg: Config)
  {
    var sep := cfg.argSeparator;
    && sep != ',' && sep != '-' && !IsDigit(sep)
    && sep !in cfg.prevPageAction && sep !in cfg.nextPageAction
    && cfg.prevPageAction != cfg.nextPageAction
  }

  /**
   * A button identifier built from an action name the separator avoids, a
   * value and an encodable tag list dispatches to that action and decodes to
   * the value and the tag list.
   */
  lemma {:induction false} ButtonIdRoundTrip(kind: string, value: int, tags: seq<string>, sep: char)
    requires sep != ',' && sep != '-' && !IsDigit(sep) && sep !in kind
    requires TagsEncodable(tags, sep)
    ensures var (name, args) := Dispatch(ButtonId(kind, value, Join(tags, ","), sep), sep);
      && name == kind
      && DecodeArgs(args) == Ok(PageRequest(value, DecodedTags(tags)))
  {
    var csv := Join(tags, ",");
    var number := IntToString(value);
    IntToStringAlphabet(value);
    assert sep !in number;
    JoinAvoids(tags, ",", sep);
    SplitJoin([kind, number, csv], sep);
    assert Split(ButtonId(kind, value, csv, sep), sep)[1..] == [number, csv];
    ParseIntegerOfIntToString(value);
    TagListRoundTrip(tags);
  }

  /** The tags a request excludes, an absent list read as none. */
  function ExcludedList(excludeTags: Option<seq<string>>): seq<string>
  {
    if excludeTags.Some? then excludeTags.value else []
  }

  /**
   * Pressing the Prev button of a navigation row resumes backwards: the
   * handler answers to its identifier, sets only the previous limit to the
   * button's value, and passes the encoded tags to the embed reader.
   */
  lemma PrevButtonResumesBackward(prevValue: int, nextValue: Option<int>, excludeTags: Option<seq<string>>,
                                  embeds: seq<Embed>,
                                  getFiltersFromEmbed: (Option<string>, Option<string>, seq<string>) -> SortFilterParams,
                                  cfg: Config)
    requires SeparatorReserved(cfg) && TagsEncodable(ExcludedList(excludeTags), cfg.argSeparator)
    requires |embeds| > 0
    ensures var rows := NavigationComponents(Some(prevValue), nextValue, excludeTags, cfg);
      var (name, args) := Dispatch(rows[1].components[0].customId, cfg.argSeparator);
      var base := getFiltersFromEmbed(embeds[0].title, embeds[0].description, DecodedTags(ExcludedList(excludeTags)));
      && name in HandlerNames(cfg) && name == cfg.prevPageAction
      && UsedFilters(name, args, embeds, getFiltersFromEmbed, cfg) == Ok(base.(prevPageValueLimit := Some(prevValue)))
  {
    ButtonIdRoundTrip(cfg.prevPageAction, prevValue, ExcludedList(excludeTags), cfg.argSeparator);
  }

  /**
   * Pressing the Next button of a navigation row resumes forwards: the
   * handler answers to its identifier, sets only the next limit to the
   * button's value, and passes the encoded tags to the embed reader.
   */
  lemma NextButtonResumesForward(prevValue: Option<int>, nextValue: int, excludeTags: Option<seq<string>>,
                                 embeds: seq<Embed>,
                                 getFiltersFromEmbed: (Option<string>, Option<string>, seq<string>) -> SortFilterParams,
                                 cfg: Config)
    requires SeparatorReserved(cfg) && TagsEncodable(ExcludedList(excludeTags), cfg.argSeparator)
    requires |embeds| > 0
    ensures var rows := NavigationComponents(prevValue, Some(nextValue), excludeTags, cfg);
      var buttons := rows[1].components;
      var (name, args) := Dispatch(buttons[|buttons| - 1].customId, cfg.argSeparator);
      var base := getFiltersFromEmbed(embeds[0].title, embeds[0].description, DecodedTags(ExcludedList(excludeTags)));
      && name in HandlerNames(cfg) && name == cfg.nextPageAction
      && UsedFilters(name, args, embeds, getFiltersFromEmbed, cfg) == Ok(base.(nextPageValueLimit := Some(nextValue)))
  {
    ButtonIdRoundTrip(cfg.nextPageAction, nextValue, ExcludedList(excludeTags), cfg.argSeparator);
  }
}
