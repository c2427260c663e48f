/**
 * The two text helpers of the profile card: trimming a display name so that
 * it fits, and naming the rank that a level falls into.
 */
module ProfileText {

  /** A character counts as ASCII when its code point is below 128. */
  predicate IsAscii(c: char)
  {
    c as int < 128
  }

  /** End index of the slice s[:n] under Python's rules: a negative n counts
    * from the end, and either way the index is clamped to 0..len(s). */
  function SliceEnd(len: nat, n: int): (e: nat)
    ensures e <= len
  {
    if n >= 0 then (if n < len then n else len)
    else if len + n > 0 then len + n else 0
  }

  const Ellipsis: string := "..."

  /**
   * The display name cut to maxLength characters (Python slice semantics)
   * with an ellipsis appended; when the kept part is longer than one
   * character and ends in a non-ASCII character, that character is
   * replaced by the ellipsis instead. Texts that fit are returned as they are.
   */
  function TrimText(text: string, maxLength: int := 12): (r: string)
    ensures |text| <= maxLength ==> r == text
    ensures |text| > maxLength ==> |r| >= 3 && r[|r| - 3..] == Ellipsis && r[..|r| - 3] <= text
    ensures |text| > maxLength ==>
      var e := SliceEnd(|text|, maxLength);
      |r| - 3 == (if e > 1 && !IsAscii(text[e - 1]) then e - 1 else e)
  {
    if |text| > maxLength then
      var kept := text[..SliceEnd(|text|, maxLength)];
      if |kept| > 1 && !IsAscii(kept[|kept| - 1]) then kept[..|kept| - 1] + Ellipsis
      else kept + Ellipsis
    else text
  }

  /** With a non-negative limit, at most maxLength characters of the text
    * are kept, and exactly maxLength when the last kept one is ASCII. */
  lemma TrimTextLength(text: string, maxLength: int)
    requires 0 <= maxLength < |text|
    ensures |TrimText(text, maxLength)| <= maxLength + 3
    ensures maxLength <= 1 || IsAscii(text[maxLength - 1]) ==>
      TrimText(text, maxLength) == text[..maxLength] + Ellipsis
    ensures maxLength > 1 && !IsAscii(text[maxLength - 1]) ==>
      TrimText(text, maxLength) == text[..maxLength - 1] + Ellipsis
    ensures maxLength >= 1 ==> text[..maxLength - 1] <= TrimText(text, maxLength)
  {
  }

  predicate AllAscii(s: string)
  {
    forall i :: 0 <= i < |s| ==> IsAscii(s[i])
  }

  /** For ASCII text and a limit of at least one, trimming a trimmed text
    * changes nothing more. */
  lemma TrimTextAsciiIdempotent(text: string, maxLength: int)
    requires 1 <= maxLength
    requires AllAscii(text)
    ensures TrimText(TrimText(text, maxLength), maxLength) == TrimText(text, maxLength)
  {
    if |text| > maxLength {
      var r := TrimText(text, maxLength);
      assert r == text[..maxLength] + Ellipsis;
      assert r[..maxLength] == text[..maxLength];
      assert IsAscii(r[maxLength - 1]);
    }
  }

  /** A name of twelve Chinese characters and one more loses its twelfth
    * character to the ellipsis; trimming again then adds a fourth dot. */
  lemma TrimTextTwiceOnWideText()
    ensures TrimText("一二三四五六七八九十甲乙丙") == "一二三四五六七八九十甲..."
    ensures TrimText(TrimText("一二三四五六七八九十甲乙丙")) == "一二三四五六七八九十甲...."
  {
    var t := "一二三四五六七八九十甲乙丙";
    assert t[..12] == "一二三四五六七八九十甲乙";
    var r := "一二三四五六七八九十甲...";
    assert r[..12] == "一二三四五六七八九十甲.";
  }

  /** One entry of the rank table: levels start..end (both inclusive) are
    * named name. */
  datatype RankRange = RankRange(start: int, end: int, name: string)

  predicate Covers(rank: RankRange, level: int)
  {
    rank.start <= level <= rank.end
  }

  /** The rank name used when no entry covers the level. */
  const DefaultRankName: string := "无名小卒"

  /** The name of the first entry, in table order, that covers the level,
    * or the default name when none does. */
  function FindRankName(ranks: seq<RankRange>, level: int): (r: string)
    ensures r == DefaultRankName || exists i :: 0 <= i < |ranks| && Covers(ranks[i], level) && r == ranks[i].name
  {
    if ranks == [] then DefaultRankName
    else if Covers(ranks[0], level) then ranks[0].name
    else FindRankName(ranks[1..], level)
  }

  /** The first covering entry decides, whatever later entries say. */
  lemma {:induction false} FindRankNameFirstMatch(ranks: seq<RankRange>, level: int, i: nat)
    requires i < |ranks| && Covers(ranks[i], level)
    requires forall j :: 0 <= j < i ==> !Covers(ranks[j], level)
    ensures FindRankName(ranks, level) == ranks[i].name
  {
    if i > 0 {
      assert !Covers(ranks[0], level);
      FindRankNameFirstMatch(ranks[1..], level, i - 1);
    }
  }

  /** A level that no entry covers gets the default name. */
  lemma {:induction false} FindRankNameDefault(ranks: seq<RankRange>, level: int)
    requires forall j :: 0 <= j < |ranks| ==> !Covers(ranks[j], level)
    ensures FindRankName(ranks, level) == DefaultRankName
  {
    if ranks != [] {
      assert !Covers(ranks[0], level);
      FindRankNameDefault(ranks[1..], level);
    }
  }

  /** No two entries share a level. */
  predicate Disjoint(ranks: seq<RankRange>)
  {
    forall i, j :: 0 <= i < j < |ranks| ==> ranks[i].end < ranks[j].start || ranks[j].end < ranks[i].start
  }

  /** With disjoint entries the order of the table does not matter: any
    * entry that covers the level names it. */
  lemma FindRankNameDisjoint(ranks: seq<RankRange>, level: int, i: nat)
    requires Disjoint(ranks)
    requires i < |ranks| && Covers(ranks[i], level)
    ensures FindRankName(ranks, level) == ranks[i].name
  {
    forall j | 0 <= j < i
      ensures !Covers(ranks[j], level)
    {
      assert ranks[j].end < ranks[i].start || ranks[i].end < ranks[j].start;
    }
    FindRankNameFirstMatch(ranks, level, i);
  }

  /** A concrete table: level 5 falls into the second entry and level 0 into
    * none. */
  lemma RankTableExample()
    ensures FindRankName([RankRange(1, 4, "新手"), RankRange(5, 9, "学徒")], 5) == "学徒"
    ensures FindRankName([RankRange(1, 4, "新手"), RankRange(5, 9, "学徒")], 0) == DefaultRankName
  {
  }
}
