# Item-Tool-DF core, modelled in Dafny

Item-Tool-DF is a Discord bot for the game DragonFable. This project models
the parts of it that turn a user's request into a query and a query's
results into a message. Each part is proved against a specification:

- **Sort query builder.** It turns a sort request into a document-store
  aggregation pipeline. The pipeline is built from:
  - an item-type filter;
  - four fixed tag exclusions;
  - an optional weapon element and level range;
  - a cursor bound on the derived sort value;
  - a two-level grouping, a fetch order and a result cap.
- **Sorted item list.** It pulls value groups from the store's cursor one
  at a time and accumulates their rendered text, within the embed
  description budget and the result limit. Browsing backwards prepends
  instead of appending. Then it:
  - settles the page's boundary values;
  - cuts a first group that is too long at its last item delimiter;
  - decides which of the Prev and Next buttons to offer;
  - composes the two embeds and the component rows.

  It also covers the filter summary and the multi-item-type button message.
- **Page navigation.** The Prev/Next button handler reads the boundary
  value and the excluded-tag list back out of the button's identifier. It
  sets exactly one page limit and asks for the next page.
- **Pet search.** A trailing Roman numeral in the search term becomes a
  variant filter, the term's words are aliased, and an optional level cap is
  added. The first hit is formatted as an embed.
- **Character inventory.** It checks a character ID, then reads the level
  and the item names from the character page. Successful lookups are
  cached.

JavaScript values are modelled explicitly:

- `undefined` is `Option.None`.
- The arithmetic of the Roman-numeral conversion on a missing table entry is
  `Numeric` (`Undefined`, `Num(n)` or `NaN`).
- Truthiness of optional numbers and strings is `NumberTruthy` and
  `StringTruthy`. These are kept apart from `!== undefined` tests, because
  the source mixes the two.

Parameters of the model stand for:

- **the document store** (`aggregate`: pipeline to group stream) and its
  cursor (`GroupCursor`);
- **the search engine** (`search`);
- **the character site** (`CharPageSite`, a map from ID to page sections);
- **helpers whose code is not part of this model**: `unaliasBonusName`,
  `getFiltersFromEmbed`, `escapeMarkdown`;
- **deployment constants** (`Config`): embed length, result limit, ID
  separator, action names, sortable tags, display-name tables.

Files:

- `common.dfy`: the Option, Result and Numeric datatypes.
- `text.dfy`: the JavaScript string operations used (join, one-character
  split, trim, lastIndexOf, `String(n)`, `Number` on integer text).
- `sort_types.dfy`: the sort request, item groups, `Config`.
- `query_builder.dfy`, `sorted_items.dfy`, `page_navigation.dfy`,
  `pet_search.dfy`, `character_inventory.dfy`: one module per core file.

Code that changes state step by step is modelled as methods with loops or
classes: the pipeline construction, the accumulation loop, the numeral loop
and the cached lookup. Each is proved equal to a specification function,
and the properties are lemmas about those functions.

## Model

| member | source | states |
|---|---|---|
| QueryBuilder.ItemTypeFilterSelects | src/interactionLogic/sort/queryBuilder.ts:9-17 | A document passes the type filter exactly when it is a weapon (weapon type), an accessory stored as cape or wings (cape type), or an accessory stored under exactly the requested type. |
| QueryBuilder.SortOrder | src/interactionLogic/sort/queryBuilder.ts:54-55 | The fetch order is 1 or -1. It is 1 exactly when `ascending` differs from the truthiness of the previous limit. |
| QueryBuilder.GetSortQueryPipeline | src/interactionLogic/sort/queryBuilder.ts:19-105 | The filter built by mutation (fixed part, then level range, then cursor bound) yields exactly the declared nine-stage pipeline. |
| QueryBuilder.PipelineShape | src/interactionLogic/sort/queryBuilder.ts:57-104 | Every pipeline has nine stages in a fixed order. Only the sort expression, the match filter, the order and the cap depend on the request. |
| QueryBuilder.MatchStageAdmits | src/interactionLogic/sort/queryBuilder.ts:29-52 | A document passes the match stage exactly when all of these hold: its sort value is defined and non-zero; the value lies beyond the cursor in the direction the limits and `ascending` give (next limit first); the item type holds; none of the fixed exclusions applies; the truthy element is among its elements; and each given level bound holds. |
| QueryBuilder.FixedExclusionsAdmit | src/interactionLogic/sort/queryBuilder.ts:32-37 | The `$nor` list admits exactly the documents without "ak" and without "alexander" that do not carry "temp" together with "default" or with "rare". |
| QueryBuilder.CursorAndOrderAgree | src/interactionLogic/sort/queryBuilder.ts:46-55 | Take a request with at most one limit set and no previous limit of 0. A lower cursor bound comes with ascending order, and an upper one with descending order. |
| QueryBuilder.ZeroPrevLimitOrderMismatch | src/interactionLogic/sort/queryBuilder.ts:49-55 | A previous limit of 0 sets the bound (`!== undefined`) but not the order (truthiness). An ascending request then fetches below 0 in ascending order. |
| QueryBuilder.PipelineIgnoresExcludedTags | src/interactionLogic/sort/queryBuilder.ts:19-28 | The pipeline does not depend on the request's excluded tags. |
| SortedItems.FilterSummaryLines | src/interactionLogic/sort/getSortedItems.ts:29-49 | The summary has one line for a truthy element, one for ascending order and one for a shown level bound, in that order, with the line texts the source writes. |
| SortedItems.LevelLineJoinsParts | src/interactionLogic/sort/getSortedItems.ts:38-46 | When a level bound is shown, the level line is the non-empty list of level parts joined by ", ". |
| SortedItems.DefaultLevelsOmitted | src/interactionLogic/sort/getSortedItems.ts:40-45 | Levels 0 to 90 with no element and descending order give an empty summary. |
| SortedItems.MinLevelTenReported | src/interactionLogic/sort/getSortedItems.ts:40-42 | A minimum level of 10 alone gives exactly the summary `**Min level:** 10`. |
| SortedItems.TagOptions | src/interactionLogic/sort/getSortedItems.ts:64-69 | There is one option per sortable tag, in order. An option is preselected exactly when its tag is excluded. |
| SortedItems.NavigationComponents | src/interactionLogic/sort/getSortedItems.ts:51-102 | The first row is the tag menu. A second row exists exactly when a Prev or Next value is given; it holds the Prev button first and the Next button last, each built for its value and the excluded-tag list. |
| SortedItems.MultiItemButtonsCoverTypes | src/interactionLogic/sort/getSortedItems.ts:104-133 | The message has two rows. The first holds at most five buttons, and the two rows together hold one button per item type, in order. |
| SortedItems.TypeButtonIdSplits | src/interactionLogic/sort/getSortedItems.ts:126 | A type button's identifier splits on the separator into the show-results action and the type name. |
| SortedItems.GroupText | src/interactionLogic/sort/getSortedItems.ts:172-182 | A rendered group is never empty. |
| SortedItems.ConcatReversedIsReverse | src/interactionLogic/sort/getSortedItems.ts:189 | Prepending each text in turn builds the texts in reverse order. |
| SortedItems.AccumulatedSnoc | src/interactionLogic/sort/getSortedItems.ts:189-190 | One more accepted group puts its text in front when browsing backwards, and at the end otherwise. |
| SortedItems.AcceptedFromMaximal | src/interactionLogic/sort/getSortedItems.ts:162-187 | The accepted groups respect the slot limit and the budget. When the loop stops with a slot and a group left, that group's text would exceed the budget. |
| SortedItems.RunIsOutcome | src/interactionLogic/sort/getSortedItems.ts:162-194 | Iterating the loop body from any reachable state ends in the closed-form outcome. |
| SortedItems.LoopTextIsAcceptedTexts | src/interactionLogic/sort/getSortedItems.ts:162-194 | The loop's text is the accepted groups' texts in fetch order, or in reverse when browsing backwards. It fits the budget, and a group left unread for lack of room would not fit. |
| SortedItems.LoopReadsWithinLimit | src/interactionLogic/sort/getSortedItems.ts:162 | At most `QUERY_RESULT_LIMIT - 1` groups are read. |
| SortedItems.PageTextFits | src/interactionLogic/sort/getSortedItems.ts:185-210 | The page text, including a truncated first group, never exceeds the embed description budget. |
| SortedItems.TruncateAtLastCutPoint | src/interactionLogic/sort/getSortedItems.ts:201-209 | When nothing was accumulated, a non-empty text is cut at its last cut point and the ellipsis is appended. A cut point is a delimiter whose preceding text, with the ellipsis, fits the budget. Without a cut point the page stays empty. |
| SortedItems.TruncationOnlyWhenNothingFits | src/interactionLogic/sort/getSortedItems.ts:201-210 | The text is truncated only when no group was accepted and the first group was read. It is then that group's text cut at its last cut point, followed by the ellipsis. |
| SortedItems.FirstGroupTooLongIsCut | src/interactionLogic/sort/getSortedItems.ts:162-209 | Conversely, when the limit allows a group and the first group is longer than the budget, nothing is accumulated. The page is then that group cut at its last cut point with the ellipsis, or empty when there is no cut point. |
| SortedItems.FirstGroupTooLongMessage | src/interactionLogic/sort/getSortedItems.ts:201-248 | In the message, such a first group shows cut at its last cut point with the ellipsis. Without a cut point the message shows the no-results notice. |
| SortedItems.PrependSwapsBoundaries | src/interactionLogic/sort/getSortedItems.ts:195-199 | Browsing backwards swaps the first and last boundary values of the same stream. The first value is the first fetched group's. The last value is the last accepted group's, or the first group's when none was accepted. |
| SortedItems.FirstPageOffersOnlyNext | src/interactionLogic/sort/getSortedItems.ts:212-235 | A first page (no limits) has a button row exactly when the stream was not exhausted. That row is a single Next button at the last value. |
| SortedItems.ForwardPageOffersPrev | src/interactionLogic/sort/getSortedItems.ts:212-235 | After Next, the page always offers Prev at its first value. It offers Next as well exactly when the stream was not exhausted. |
| SortedItems.BackwardPageOffersNext | src/interactionLogic/sort/getSortedItems.ts:212-235 | After Prev, the page always offers Next at the first fetched value. It offers Prev as well exactly when the stream was not exhausted. |
| SortedItems.EmptyStreamPage | src/interactionLogic/sort/getSortedItems.ts:237-249 | An empty stream gives the no-results notice and only the tag-menu row. |
| SortedItems.GroupCursor.constructor | src/interactionLogic/sort/getSortedItems.ts:143 | A fresh cursor over the aggregation's groups has made no fetch. |
| SortedItems.GroupCursor.Next | src/interactionLogic/sort/getSortedItems.ts:155 | Each call counts one fetch and yields the next group, or nothing once the stream is exhausted. |
| SortedItems.AccumulateGroups | src/interactionLogic/sort/getSortedItems.ts:149-194 | The loop on a fresh cursor ends in the specified outcome, records the first group's value, and fetches at most `QUERY_RESULT_LIMIT` times. |
| SortedItems.SettlePage | src/interactionLogic/sort/getSortedItems.ts:195-210 | The fallback, swap and truncation steps yield the specified page. |
| SortedItems.ComposePage | src/interactionLogic/sort/getSortedItems.ts:212-250 | The button rules, the notice, the title and the summary yield the specified message. |
| SortedItems.GetSortedItemList | src/interactionLogic/sort/getSortedItems.ts:135-251 | The reply is the page specified for the groups the store returns for the pipeline of the unaliased request. |
| PageNavigation.RunPageHandler | src/buttonInteractionHandlers/nextAndPrevPageSortResults.ts:13-31 | The handler fails exactly when decoding the filters fails, and with the same error. Otherwise it replies with the page for the rebuilt filters. |
| PageNavigation.SetsExactlyOneLimit | src/buttonInteractionHandlers/nextAndPrevPageSortResults.ts:20-29 | The rebuilt filters differ from the embed's in exactly one limit: the next limit for the Next name, the previous one otherwise. That limit is set to the decoded value. |
| PageNavigation.HandlerFailures | src/buttonInteractionHandlers/nextAndPrevPageSortResults.ts:18-28 | There are three exact failure conditions, in code order: fewer than two arguments, then no embed, then a boundary that is no integer. |
| PageNavigation.TagListRoundTrip | src/buttonInteractionHandlers/nextAndPrevPageSortResults.ts:19 | Splitting the comma-joined tag list on commas gives back the tags. An empty list comes back as one empty tag. |
| PageNavigation.ButtonIdRoundTrip | src/interactionLogic/sort/getSortedItems.ts:79-91 | A button identifier dispatches to its action. Its arguments decode to the button's value and tag list. |
| PageNavigation.PrevButtonResumesBackward | src/buttonInteractionHandlers/nextAndPrevPageSortResults.ts:9-28 | The Prev button of a page reaches a registered handler name. That handler sets only the previous limit, to the button's value. |
| PageNavigation.NextButtonResumesForward | src/buttonInteractionHandlers/nextAndPrevPageSortResults.ts:9-28 | The Next button of a page reaches a registered handler name. That handler sets only the next limit, to the button's value. |
| Text.ParseIntegerOfIntToString | src/buttonInteractionHandlers/nextAndPrevPageSortResults.ts:26 | `Number(String(n)) == n` for every integer boundary value. |
| Text.LastIndexOf | src/interactionLogic/sort/getSortedItems.ts:205-207 | The result is -1 or an occurrence of the delimiter, and no occurrence lies after it. |
| PetSearch.RomanIntToInt | src/interactionLogic/search/pets.ts:12-27 | The loop computes the left-to-right value, `undefined` and `NaN` included. |
| PetSearch.RomanValueIsSubtractive | src/interactionLogic/search/pets.ts:12-27 | On a non-empty word of i, v and x, the value is the standard subtractive value. |
| PetSearch.RomanValueNeedsRomanLetters | src/interactionLogic/search/pets.ts:13-15 | An empty word, or one with a letter outside the table, has no numeric value. |
| PetSearch.RomanValueDefined | src/interactionLogic/search/pets.ts:12-27 | The value is a number exactly when the word is non-empty and uses only i, v and x. |
| PetSearch.RomanValueExamples | src/interactionLogic/search/pets.ts:12-27 | iv is 4, ix is 9, xiv is 14 and xxxix is 39. |
| PetSearch.SubtractiveSnoc | src/interactionLogic/search/pets.ts:16-23 | Appending a letter adds its value to the subtractive value. |
| PetSearch.UnitsValue | src/interactionLogic/search/pets.ts:80 | The units part of the pattern is worth 0 to 9, and 0 only when it is empty. |
| PetSearch.NumeralValueInRange | src/interactionLogic/search/pets.ts:80 | A non-empty word the pattern accepts, in lower case, has a value between 1 and 39. |
| PetSearch.SplitWords | src/interactionLogic/search/pets.ts:81 | The term splits into at least one word, and no word holds a separator. |
| PetSearch.Candidates | src/interactionLogic/search/pets.ts:85 | The examined positions are valid word indices other than the first. |
| PetSearch.StripTrailingNumeral | src/interactionLogic/search/pets.ts:83-91 | The loop removes the word and pushes the variant filter that the strip specification gives. |
| PetSearch.BuildPetQuery | src/interactionLogic/search/pets.ts:79-151 | The query is the specified one for the term and the level cap. |
| PetSearch.StripTestsOnlyTail | src/interactionLogic/search/pets.ts:85-91 | Only the last word is examined, then the second-to-last, never the first. Nothing is removed exactly when neither is a numeral. Otherwise the first numeral found is removed, and its value becomes the variant. |
| PetSearch.StripRemovesAtMostOne | src/interactionLogic/search/pets.ts:88-89 | Stripping removes exactly one word when it yields a variant, and none otherwise. |
| PetSearch.StripKeepsWords | src/interactionLogic/search/pets.ts:88 | Every remaining word is a word of the term. |
| PetSearch.VariantFilterInRange | src/interactionLogic/search/pets.ts:80-87 | With the intended numeral test, every variant filter holds a number from 1 to 39. |
| PetSearch.FilterListShape | src/interactionLogic/search/pets.ts:145-151 | A filter list exists exactly when a numeral was removed or a cap is given. The variant comes first and the cap last, and a level filter exists exactly for the given cap. |
| PetSearch.TermSplitsIntoWords | src/interactionLogic/search/pets.ts:81-92 | Without alias words, the query term splits on spaces back into the remaining words. |
| PetSearch.PetSpaceWords | src/interactionLogic/search/pets.ts:81 | "pet " splits into "pet" and an empty word. |
| PetSearch.WrittenNumeralValues | src/interactionLogic/search/pets.ts:13-15 | The written test turns the empty word into `undefined` and "II" into `NaN`. |
| PetSearch.WrittenNumeralWithoutValue | src/interactionLogic/search/pets.ts:80-87 | As written, "pet " yields a variant filter on `undefined`. |
| PetSearch.IntendedNumeralValues | src/interactionLogic/search/pets.ts:80 | The intended test rejects the empty word and reads "II" as 2. |
| PetSearch.IntendedNumeralExamples | src/interactionLogic/search/pets.ts:80-87 | With the intended test, "pet " yields no filter. |
| PetSearch.GetPetSearchResult | src/interactionLogic/search/pets.ts:75-197 | The embed is the formatted first hit of the search for the built query. `noResults` holds exactly when there are no hits, which is exactly when the embed is the not-found notice. |
| PetSearch.DescriptionIsNotNotice | src/interactionLogic/search/pets.ts:60-65 | A hit's description starts with the tags heading, so it is never the not-found notice. |
| PetSearch.BonusTextSigned | src/interactionLogic/search/pets.ts:46-51 | A numeric bonus shows `+` for zero or positive values and `-` for negative ones, followed by the magnitude. A text bonus shows `+[text]`. |
| PetSearch.BonusesTextShape | src/interactionLogic/search/pets.ts:44-52 | The line is "None" without bonuses. Otherwise it is the bonus texts in order, joined by ", ". |
| PetSearch.TagsTextShape | src/interactionLogic/search/pets.ts:33-43 | There is one alternative per present tag list. With none, the line is `` `None` ``; otherwise the alternatives are joined by " or ". An empty list shows as `` `Untagged` ``. |
| PetSearch.SingleTagText | src/interactionLogic/search/pets.ts:37-41 | A one-tag alternative shows the tag's display name. A tag with no display name, or an empty one, shows as `` `Untagged` ``, because the join writes a missing name as empty text. |
| PetSearch.AttackLinesNumbered | src/interactionLogic/search/pets.ts:53-59 | Single-line attacks are listed one per line and numbered from 1. No attacks give the notice. |
| CharacterInventory.ValidCharIdExamples | src/interactionLogic/sort/characterInventory.ts:18-20 | IDs of 2 and 12 digits pass. IDs of 1 or 13 digits, or with a letter or a space, fail. |
| CharacterInventory.LevelAt | src/interactionLogic/sort/characterInventory.ts:53-55 | A capture is one or two digits. |
| CharacterInventory.FirstLevelFrom | src/interactionLogic/sort/characterInventory.ts:53-55 | The result is the first position from which the level pattern matches, or -1 when none does. |
| CharacterInventory.LevelIsFirstMatch | src/interactionLogic/sort/characterInventory.ts:52-61 | A level is found exactly when the pattern matches somewhere. It is the first match's digits read as a number, so at most 99. |
| CharacterInventory.TwoDigitsAtMost99 | src/interactionLogic/sort/characterInventory.ts:54 | One or two digits are worth at most 99. |
| CharacterInventory.RenderedLevelParses | src/interactionLogic/sort/characterInventory.ts:52-61 | A level up to 99 written as `Level: n` and a line end is read back exactly. |
| CharacterInventory.StackCountShape | src/interactionLogic/sort/characterInventory.ts:68 | Every name ending in `(x`, digits and `)` is a stack count. |
| CharacterInventory.StackCountSplits | src/interactionLogic/sort/characterInventory.ts:68 | Every stack count ends in `(x`, one or more digits and `)`. |
| CharacterInventory.TrimIdempotent | src/interactionLogic/sort/characterInventory.ts:66 | A trimmed line trims to itself. |
| CharacterInventory.KeptItemsComplete | src/interactionLogic/sort/characterInventory.ts:68 | The filter keeps exactly the lines that are non-empty and are not stack counts. |
| CharacterInventory.InventoryItemsClean | src/interactionLogic/sort/characterInventory.ts:62-68 | Every item name is non-empty, trimmed and not a stack count. |
| CharacterInventory.LookupOutcomes | src/interactionLogic/sort/characterInventory.ts:42-73 | A malformed ID fails with the format message. A page without a level fails with the not-found message naming the ID. A success has a valid ID, a level of at most 99 and clean items. |
| CharacterInventory.CharPageSite.constructor | src/interactionLogic/sort/characterInventory.ts:13-17 | A site serving the given pages has made no request. |
| CharacterInventory.CharPageSite.GetCharPage | src/interactionLogic/sort/characterInventory.ts:13-39 | A malformed ID is rejected without a request. A valid one costs exactly one request and yields the page, or a failed fetch. |
| CharacterInventory.InventoryCache.constructor | src/interactionLogic/sort/characterInventory.ts:10-11 | The cache starts empty. |
| CharacterInventory.InventoryCache.GetCharLevelAndItems | src/interactionLogic/sort/characterInventory.ts:42-74 | A cached ID is answered from the cache, with no request and no change. Otherwise the result is the uncached lookup, after one request for a valid ID, and only a success is stored under the ID. |

## Left out

- The document store and the search engine are parameters (`aggregate`, `search`). The model does not cover:
  - the execution of the aggregation stages: `$avg` of damage, `$arrayToObject`, grouping and sorting inside the store;
  - the pet query's `should` clauses with their boosts and fuzziness;
  - the scoring script.

  The model states what is sent and what is done with the result.
- Discord I/O is left out: replying or updating the interaction, ephemeral flags, `preferEphemeralErrorMessage`, labels and styles beyond what the contracts name.
- HTTP is left out: `got`, the 3-second timeout, the retry limit and the single resend in `getCharPage` are reduced to one fetch that yields the page or fails.
- HTML selection is left out: the cheerio selectors are reduced to the text of the player section and of the inventory and bank sections.
- The cache's five-minute expiry (EphemeralMap) is not modelled, and concurrent lookups are not modelled.
- The following helpers are not part of this model:
  - `unaliasBonusName`, `getFiltersFromEmbed` and `Util.escapeMarkdown` are parameters;
  - `capitalize` is assumed to upper-case a leading ASCII letter;
  - the event dispatcher is assumed to split an identifier on the separator, the first piece naming the handler.
- The deployment constants are fields of `Config`: MAX_EMBED_DESC_LENGTH, QUERY_RESULT_LIMIT, INTERACTION_ID_ARG_SEPARATOR, SORT_ACTIONS, SORTABLE_TAGS, PRETTY_TAG_NAMES, PRETTY_ITEM_TYPES. The embed length is required to be at least the ellipsis length. INTERACTION_ID_ARG_SEPARATOR is assumed to be a single character (`Config.argSeparator` is a `char`).
- String lengths and slices count Unicode code points. JavaScript's `.length` and `.slice` count UTF-16 code units, so the two agree only on text without characters outside the Basic Multilingual Plane. This affects the budget test and the truncation window (src/interactionLogic/sort/getSortedItems.ts:185 and 205-206), and with them SortedItems.LoopTextIsAcceptedTexts, SortedItems.PageTextFits and the truncation lemmas.
- The excluded tags are a `Set` in the source and an `Option<seq<string>>` in the model. The sequence may hold duplicates that a set cannot, and joining a set lists each tag once; the model's contracts hold for any sequence, duplicates included.
- Sort values, levels and bonus values are integers. Floating-point sort values are not modelled.
- The sort expression's store form is opaque text.
- `getRandomPet` is not modelled. It has no logic beyond a random-score query.
- WORD_ALIASES is looked up only for its two own keys. The inherited prototype keys of a JavaScript object (such as `constructor`) are not modelled.
- PageNavigation.RunPageHandler: the boundary is read only as optionally signed decimal digits, trimmed, with empty text read as 0 (`Text.ParseInteger`). Every other boundary ends in `NotAnInteger`. That includes text `Number` reads as an integer in another notation ("0x10", "0b11", "1e3", "1.0"), as well as text it reads as NaN or as a fraction. The source stores whatever `Number` gives as the limit. The identifiers the bot writes itself always hold decimal digits.
- SortedItems.AccumulateGroups: the fetch count is stated as an upper bound, not as its exact value.
- SortedItems.GetSortedItemList: the source replaces the weapon element on the caller's object, and the model rebinds a copy. No caller reads the object afterwards.
- PetSearch.StripTrailingNumeral, PetSearch.BuildPetQuery and PetSearch.GetPetSearchResult: these use the corrected numeral test (see Findings). The as-written test is `PetSearch.WrittenNumeral`.

## Findings

| source | as written | input that shows it | evidently intended | confidence | as-written member | corrected member |
|---|---|---|---|---|---|---|
| src/interactionLogic/search/pets.ts:80-87 | The numeral pattern is case-insensitive and every part of it is optional. A matching word is converted exactly as typed, against a lower-case table (lines 13-15). | The term "pet " has an empty last word, which matches and is converted to `undefined`, so the query filters on an undefined variant. The term "pet II" converts to `NaN`. | Only non-empty numerals count, and they are converted case-insensitively: "pet " gets no filter, and "pet II" gets variant 2. | not executed | PetSearch.WrittenNumeralWithoutValue | PetSearch.VariantFilterInRange |
