/**
 * The character inventory lookup: a character ID is checked before the
 * character page is fetched, the level is read from the player section, the
 * item names from the inventory and bank sections, and each successful
 * lookup is remembered in a cache that later lookups consult first.
 */
module CharacterInventory {
  import opened Common
  import opened Text

  const IdFormatMessage: string := "Character IDs must be between 2 and 12 digits long."

  function NotFoundMessage(charID: string): string
  {
    "Character ID `" + charID + "` was not found."
  }

  /** The failures of a lookup: a validation error shown to the user, or a failed fetch. */
  datatype InventoryError = ValidationError(message: string) | FetchFailed

  /** The texts of the page sections the lookup reads: the player card, and the inventory and bank cards. */
  datatype CharPage = CharPage(playerInfo: string, inventoryAndBank: string)

  datatype LevelAndItems = LevelAndItems(level: nat, items: seq<string>)

  // ---------------------------------------------------------------------
  // the character ID

  /** The pattern `^[0-9]{2,12}$`: two to twelve ASCII digits and nothing else. */
  predicate ValidCharId(charID: string)
  {
    2 <= |charID| <= 12 && AllDigits(charID)
  }

  /** The ID check accepts exactly the IDs of two to twelve digits. */
  lemma ValidCharIdExamples()
    ensures ValidCharId("12") && ValidCharId("123456789012")
    ensures !ValidCharId("1") && !ValidCharId("1234567890123") && !ValidCharId("12a") && !ValidCharId(" 12")
  {
    assert "12a"[2] == 'a';
    assert " 12"[0] == ' ';
  }

  // ---------------------------------------------------------------------
  // the level

  const LevelLabel: string := "Level: "

  /**
   * The digits the pattern `Level: ([0-9]{1,2})\n` captures when a match
   * starts at `i`: two digits and a line end, or else one digit and a line end.
   */
  function LevelAt(text: string, i: nat): (digits: Option<string>)
    ensures digits.Some? ==> 1 <= |digits.value| <= 2 && AllDigits(digits.value)
  {
    var j := i + |LevelLabel|;
    if !(j <= |text| && text[i..j] == LevelLabel) then None
    else if j + 3 <= |text| && IsDigit(text[j]) && IsDigit(text[j + 1]) && text[j + 2] == '\n' then Some(text[j..j + 2])
    else if j + 2 <= |text| && IsDigit(text[j]) && text[j + 1] == '\n' then Some(text[j..j + 1])
    else None
  }

  /** The first position at or after `i` where the pattern matches, or -1. */
  function FirstLevelFrom(text: string, i: nat): (k: int)
    ensures k == -1 || (i <= k <= |text| && LevelAt(text, k).Some?)
    ensures forall j :: i <= j <= |text| && (k == -1 || j < k) ==> LevelAt(text, j).None?
    decreases |text| + 1 - i
  {
    if i > |text| then -1
    else if LevelAt(text, i).Some? then i
    else FirstLevelFrom(text, i + 1)
  }

  /** `Number(levelMatch[1])` for the first match in the player section, or `None` without a match. */
  function ParseLevel(text: string): Option<nat>
  {
    var k := FirstLevelFrom(text, 0);
    if k < 0 then None else Some(DigitsValue(LevelAt(text, k).value))
  }

  /** Up to two digits are worth at most 99. */
  lemma TwoDigitsAtMost99(d: string)
    requires AllDigits(d) && |d| <= 2
    ensures DigitsValue(d) <= 99
  {
    if |d| == 2 {
      assert d[..1][..0] == [];
    }
  }

  /**
   * A level is found exactly when the pattern matches somewhere; it is the
   * value of the first match's digits, and so lies between 0 and 99.
   */
  lemma LevelIsFirstMatch(text: string)
    ensures ParseLevel(text).None? <==> forall j :: 0 <= j <= |text| ==> LevelAt(text, j).None?
    ensures ParseLevel(text).Some? ==>
      var k := FirstLevelFrom(text, 0);
      && ParseLevel(text).value == DigitsValue(LevelAt(text, k).value)
      && (forall j :: 0 <= j < k ==> LevelAt(text, j).None?)
      && ParseLevel(text).value <= 99
  {
    var k := FirstLevelFrom(text, 0);
    if k >= 0 {
      TwoDigitsAtMost99(LevelAt(text, k).value);
    }
  }

  /** A level rendered as the page shows it at the start of the section reads back. */
  lemma RenderedLevelParses(level: nat, rest: string)
    requires level <= 99
    ensures ParseLevel(LevelLabel + NatToString(level) + "\n" + rest) == Some(level)
  {
    var digits := NatToString(level);
    var text := LevelLabel + digits + "\n" + rest;
    var j := |LevelLabel|;
    assert text[0..j] == LevelLabel;
    if level < 10 {
      assert text[j] == digits[0] && text[j + 1] == '\n';
      assert text[j..j + 1] == digits;
    } else {
      assert |digits| == 2 by {
        assert NatToString(level) == NatToString(level / 10) + [DigitChar(level % 10)];
      }
      assert text[j] == digits[0] && text[j + 1] == digits[1] && text[j + 2] == '\n';
      assert text[j..j + 2] == digits;
    }
    assert LevelAt(text, 0) == Some(digits);
    DigitsValueOfNatToString(level);
  }

  // ---------------------------------------------------------------------
  // the items

  /** The number of digits at the end of `s`. */
  function TrailingDigits(s: string): (k: nat)
    ensures k <= |s|
    ensures forall i :: |s| - k <= i < |s| ==> IsDigit(s[i])
    ensures k < |s| ==> !IsDigit(s[|s| - k - 1])
    decreases |s|
  {
    if |s| > 0 && IsDigit(s[|s| - 1]) then 1 + TrailingDigits(s[..|s| - 1]) else 0
  }

  /**
   * The stack-count pattern `\(x[0-9]+\)$`: the name ends in `(x`, one or
   * more digits and `)`. The digits are the whole run of digits before the
   * `)`, since the character before them is the x.
   */
  predicate IsStackCount(item: string)
  {
    |item| >= 1 && item[|item| - 1] == ')'
    && var body := item[..|item| - 1];
       var k := TrailingDigits(body);
       k >= 1 && |body| >= k + 2 && body[|body| - k - 2] == '(' && body[|body| - k - 1] == 'x'
  }

  /** Digits after a non-digit are exactly the trailing run. */
  lemma {:induction false} TrailingDigitsOfSuffix(a: string, d: string)
    requires |a| > 0 && !IsDigit(a[|a| - 1]) && AllDigits(d)
    ensures TrailingDigits(a + d) == |d|
    decreases |d|
  {
    if |d| > 0 {
      assert (a + d)[..|a + d| - 1] == a + d[..|d| - 1];
      TrailingDigitsOfSuffix(a, d[..|d| - 1]);
    }
  }

  /** A name is a stack count exactly when it is some text, `(x`, digits and `)`. */
  lemma StackCountShape(p: string, d: string)
    requires AllDigits(d) && |d| >= 1
    ensures IsStackCount(p + "(x" + d + ")")
  {
    var item := p + "(x" + d + ")";
    var body := item[..|item| - 1];
    assert body == (p + "(x") + d;
    TrailingDigitsOfSuffix(p + "(x", d);
  }

  lemma StackCountSplits(item: string)
    requires IsStackCount(item)
    ensures exists p, d :: AllDigits(d) && |d| >= 1 && item == p + "(x" + d + ")"
  {
    var body := item[..|item| - 1];
    var k := TrailingDigits(body);
    var p := body[..|body| - k - 2];
    var d := body[|body| - k..];
    assert AllDigits(d);
    assert item == p + "(x" + d + ")";
  }

  /** `!!item && !item.match(/\(x[0-9]+\)$/)`: a non-empty name without a stack count. */
  predicate KeepItem(item: string)
  {
    item != "" && !IsStackCount(item)
  }

  /** `.map(itemName => itemName.trim())`: every line trimmed. */
  function TrimmedLines(lines: seq<string>): seq<string>
  {
    seq(|lines|, j requires 0 <= j < |lines| => Trim(lines[j]))
  }

  /** The `.filter` step: the lines that are kept, in order. */
  function KeptItems(lines: seq<string>): seq<string>
  {
    if |lines| == 0 then []
    else (if KeepItem(lines[0]) then [lines[0]] else []) + KeptItems(lines[1..])
  }

  /** The item names of the inventory and bank sections: one per line, trimmed, stacks left out. */
  function InventoryItems(text: string): seq<string>
  {
    KeptItems(TrimmedLines(Split(text, '\n')))
  }

  /** Trimming twice trims no more than once. */
  lemma TrimIdempotent(s: string)
    ensures Trim(Trim(s)) == Trim(s)
  {
    var t := TrimStart(s);
    var r := TrimEnd(t);
    assert Trim(s) == r;
    if r != [] {
      assert r == t[..|r|];
      assert r[0] == t[0];
      assert !IsWhitespace(r[0]);
      assert !IsWhitespace(r[|r| - 1]);
    }
    TrimUnchanged(r);
  }

  /** The filter keeps exactly the lines that pass the test. */
  lemma {:induction false} KeptItemsComplete(lines: seq<string>)
    ensures forall x :: x in KeptItems(lines) <==> x in lines && KeepItem(x)
    decreases |lines|
  {
    if |lines| > 0 {
      KeptItemsComplete(lines[1..]);
      var head := if KeepItem(lines[0]) then [lines[0]] else [];
      assert KeptItems(lines) == head + KeptItems(lines[1..]);
      assert lines == [lines[0]] + lines[1..];
    }
  }

  /** Every item of the lookup is trimmed and non-empty and has no stack count. */
  lemma InventoryItemsClean(text: string)
    ensures var items := InventoryItems(text);
      forall i :: 0 <= i < |items| ==> items[i] != "" && !IsStackCount(items[i]) && Trim(items[i]) == items[i]
  {
    var lines := Split(text, '\n');
    var trimmed := TrimmedLines(lines);
    var items := KeptItems(trimmed);
    KeptItemsComplete(trimmed);
    forall i | 0 <= i < |items| ensures items[i] != "" && !IsStackCount(items[i]) && Trim(items[i]) == items[i] {
      assert items[i] in items;
      var j :| 0 <= j < |trimmed| && trimmed[j] == items[i];
      TrimIdempotent(lines[j]);
    }
  }

  // ---------------------------------------------------------------------
  // the lookup

  /** `getCharPage` without its network details: the ID check, then the page or a failed fetch. */
  function CharPageFor(charID: string, pages: map<string, CharPage>): Result<CharPage, InventoryError>
  {
    if !ValidCharId(charID) then Err(ValidationError(IdFormatMessage))
    else if charID in pages then Ok(pages[charID])
    else Err(FetchFailed)
  }

  /** An uncached lookup: the page, then the level (or the not-found error), then the items. */
  function LevelAndItemsOf(charID: string, pages: map<string, CharPage>): Result<LevelAndItems, InventoryError>
  {
    match CharPageFor(charID, pages)
    case Err(e) => Err(e)
    case Ok(page) =>
      match ParseLevel(page.playerInfo)
      case None => Err(ValidationError(NotFoundMessage(charID)))
      case Some(level) => Ok(LevelAndItems(level, InventoryItems(page.inventoryAndBank)))
  }

  /**
   * An ID of the wrong form fails with the format message; a page without a
   * level fails with a message naming the ID; a success carries a level of
   * at most 99 and clean item names.
   */
  lemma LookupOutcomes(charID: string, pages: map<string, CharPage>)
    ensures !ValidCharId(charID) ==> LevelAndItemsOf(charID, pages) == Err(ValidationError(IdFormatMessage))
    ensures ValidCharId(charID) && charID in pages && ParseLevel(pages[charID].playerInfo).None? ==>
      LevelAndItemsOf(charID, pages) == Err(ValidationError(NotFoundMessage(charID)))
    ensures LevelAndItemsOf(charID, pages).Ok? ==>
      var v := LevelAndItemsOf(charID, pages).value;
      && ValidCharId(charID) && charID in pages
      && v.level <= 99
      && forall i :: 0 <= i < |v.items| ==> v.items[i] != "" && !IsStackCount(v.items[i]) && Trim(v.items[i]) == v.items[i]
  {
    if charID in pages {
      LevelIsFirstMatch(pages[charID].playerInfo);
      InventoryItemsClean(pages[charID].inventoryAndBank);
    }
  }

  /** The character page site, as far as the lookup sees it: the pages it serves, and a count of requests. */
  class CharPageSite {
    const pages: map<string, CharPage>
    var fetches: nat

    constructor(pages: map<string, CharPage>)
      ensures this.pages == pages && fetches == 0
    {
      this.pages := pages;
      fetches := 0;
    }

    /** `getCharPage`: an ID of the wrong form is rejected before any request is made. */
    method GetCharPage(charID: string) returns (page: Result<CharPage, InventoryError>)
      modifies this
      ensures page == CharPageFor(charID, pages)
      ensures fetches == old(fetches) + (if ValidCharId(charID) then 1 else 0)
    {
      if !(2 <= |charID| <= 12 && AllDigits(charID)) {
        return Err(ValidationError(IdFormatMessage));
      }
      fetches := fetches + 1;
      page := if charID in pages then Ok(pages[charID]) else Err(FetchFailed);
    }
  }

  /** The shared cache of looked-up characters. */
  class InventoryCache {
    var entries: map<string, LevelAndItems>

    constructor()
      ensures entries == map[]
    {
      entries := map[];
    }

    /**
     * `getCharLevelAndItems`: a cached ID is answered from the cache without
     * a request; otherwise the page is fetched and parsed, and a success is
     * stored under the ID before it is returned.
     */
    method GetCharLevelAndItems(site: CharPageSite, charID: string) returns (r: Result<LevelAndItems, InventoryError>)
      modifies this, site
      ensures charID in old(entries) ==>
        r == Ok(old(entries)[charID]) && entries == old(entries) && site.fetches == old(site.fetches)
      ensures charID !in old(entries) ==>
        && r == LevelAndItemsOf(charID, site.pages)
        && site.fetches == old(site.fetches) + (if ValidCharId(charID) then 1 else 0)
        && entries == (if r.Ok? then old(entries)[charID := r.value] else old(entries))
    {
      if charID in entries {
        return Ok(entries[charID]);
      }
      var body := site.GetCharPage(charID);
      if body.Err? {
        return Err(body.error);
      }
      var levelMatch := ParseLevel(body.value.playerInfo);
      if levelMatch == None {
        return Err(ValidationError(NotFoundMessage(charID)));
      }
      var items := InventoryItems(body.value.inventoryAndBank);
      var levelAndItems := LevelAndItems(levelMatch.value, items);
      entries := entries[charID := levelAndItems];
      r := Ok(levelAndItems);
    }
  }
}
