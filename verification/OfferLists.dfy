/** Lists of offer IDs as one comma-separated column. */
module OfferLists {
  import opened Offers

  const COMMA: char := ','

  predicate NoComma(s: string) {
    COMMA !in s
  }

  function Join(ids: seq<string>): string {
    if |ids| == 0 then ""
    else if |ids| == 1 then ids[0]
    else Join(ids[..|ids| - 1]) + [COMMA] + ids[|ids| - 1]
  }

  function Split(s: string): (parts: seq<string>)
    ensures |parts| > 0
  {
    if s == "" then [""]
    else
      var parts, c := Split(s[..|s| - 1]), s[|s| - 1];
      if c == COMMA then parts + [""] else parts[..|parts| - 1] + [parts[|parts| - 1] + [c]]
  }

  /** What is read back from the column: nothing from an empty one. */
  function ReadBack(s: string): seq<string> {
    if s == "" then [] else Split(s)
  }

  lemma {:induction false} PartsHaveNoComma(s: string)
    ensures forall part <- Split(s) :: NoComma(part)
  {
    if s != "" {
      PartsHaveNoComma(s[..|s| - 1]);
      var parts := Split(s[..|s| - 1]);
      assert NoComma(parts[|parts| - 1]);
    }
  }

  lemma {:induction false} SplitAppend(s: string, word: string)
    requires NoComma(word)
    ensures Split(s + word) == Split(s)[..|Split(s)| - 1] + [Split(s)[|Split(s)| - 1] + word]
  {
    if word == "" {
      assert s + word == s && Split(s)[|Split(s)| - 1] + word == Split(s)[|Split(s)| - 1];
    } else {
      var init, c := word[..|word| - 1], word[|word| - 1];
      assert (s + word)[..|s + word| - 1] == s + init && (s + word)[|s + word| - 1] == c;
      SplitAppend(s, init);
      assert Split(s)[|Split(s)| - 1] + init + [c] == Split(s)[|Split(s)| - 1] + word;
    }
  }

  lemma SplitAfterComma(s: string, word: string)
    requires NoComma(word)
    ensures Split(s + [COMMA] + word) == Split(s) + [word]
  {
    var prefix := s + [COMMA];
    assert prefix[..|prefix| - 1] == s;
    assert Split(prefix) == Split(s) + [""];
    SplitAppend(prefix, word);
    assert "" + word == word;
  }

  lemma {:induction false} SplitJoin(ids: seq<string>)
    requires ids != [] && forall id <- ids :: NoComma(id)
    ensures Split(Join(ids)) == ids
  {
    hide Split, NoComma;
    var n := |ids| - 1;
    assert ids == ids[..n] + [ids[n]];
    if n == 0 {
      SplitWord(ids[0]);
    } else {
      SplitJoin(ids[..n]);
      SplitAfterComma(Join(ids[..n]), ids[n]);
    }
  }

  lemma SplitWord(word: string)
    requires NoComma(word)
    ensures Split(word) == [word]
  {
    SplitAppend("", word);
    assert "" + word == word;
  }

  lemma JoinIsEmpty(ids: seq<string>)
    ensures Join(ids) == "" <==> ids == [] || ids == [""]
  {
  }

  /** The list survives the column exactly when no ID has a comma and it is not one empty ID. */
  lemma ListSurvives(ids: seq<string>)
    ensures ReadBack(Join(ids)) == ids <==> (forall id <- ids :: NoComma(id)) && ids != [""]
  {
    JoinIsEmpty(ids);
    if (forall id <- ids :: NoComma(id)) && ids != [] && ids != [""] {
      SplitJoin(ids);
    }
    PartsHaveNoComma(Join(ids));
  }

  /** One more character goes into the last part, or starts a new one. */
  function WithChar(parts: seq<string>, c: char): seq<string>
    requires parts != []
  {
    if c == COMMA then parts + [""] else parts[..|parts| - 1] + [parts[|parts| - 1] + [c]]
  }

  lemma SplitSnoc(s: string, c: char)
    ensures Split(s + [c]) == WithChar(Split(s), c)
  {
    assert (s + [c])[..|s|] == s;
  }

  lemma WithCharAfter(first: seq<string>, parts: seq<string>, c: char)
    requires parts != []
    ensures WithChar(first + parts, c) == first + WithChar(parts, c)
  {
    assert (first + parts)[..|first + parts| - 1] == first + parts[..|parts| - 1];
  }

  lemma {:induction false} SplitAtComma(s: string, rest: string)
    ensures Split(s + [COMMA] + rest) == Split(s) + Split(rest)
  {
    if rest == "" {
      SplitAfterComma(s, "");
    } else {
      hide Split, WithChar;
      var init, c := rest[..|rest| - 1], rest[|rest| - 1];
      assert rest == init + [c] && s + [COMMA] + rest == s + [COMMA] + init + [c];
      SplitAtComma(s, init);
      SplitSnoc(s + [COMMA] + init, c);
      SplitSnoc(init, c);
      WithCharAfter(Split(s), Split(init), c);
    }
  }

  lemma {:induction false} PartsOfJoin(ids: seq<string>, id: string)
    requires id in ids && NoComma(id)
    ensures id in Split(Join(ids))
  {
    hide Split, NoComma;
    var n := |ids| - 1;
    assert ids == ids[..n] + [ids[n]];
    if n > 0 {
      SplitAtComma(Join(ids[..n]), ids[n]);
      if id in ids[..n] {
        PartsOfJoin(ids[..n], id);
      }
    }
    SplitWord(id);
  }

  /** One ID of a list is still excluded after the list went through the column exactly when it has no comma
      itself, whatever the others are; only a list of one empty ID loses a clean one. */
  lemma ExclusionSurvives(ids: seq<string>, id: string)
    requires id in ids
    ensures id in Elements(ReadBack(Join(ids))) <==> NoComma(id) && ids != [""]
  {
    JoinIsEmpty(ids);
    PartsHaveNoComma(Join(ids));
    if NoComma(id) {
      PartsOfJoin(ids, id);
    }
  }
}
