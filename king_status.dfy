/** What a move token claims about the opponent's king after the move. */
module KingStatuses {

  datatype KingStatus = Safe | Check | Mate

  /** `impl From<&str> for KingStatus`: '+' wins over '#'; neither is Safe. */
  function FromToken(s: string): (r: KingStatus)
    ensures r == Check <==> '+' in s
    ensures r == Mate <==> '#' in s && '+' !in s
    ensures r == Safe <==> '+' !in s && '#' !in s
  {
    if '+' in s then Check
    else if '#' in s then Mate
    else Safe
  }

  /** The status depends only on which markers occur, not on where. */
  lemma OnlyMarkersMatter(s: string, t: string)
    requires ('+' in s <==> '+' in t) && ('#' in s <==> '#' in t)
    ensures FromToken(s) == FromToken(t)
  {
  }

  /** Characters other than the two markers, added anywhere, do not change the status. */
  lemma {:induction false} OtherTextIrrelevant(s: string, pre: string, post: string)
    requires '+' !in pre + post && '#' !in pre + post
    ensures FromToken(pre + s + post) == FromToken(s)
  {
    assert forall c :: c in pre + s + post <==> c in pre || c in s || c in post;
    assert forall c :: c in pre + post <==> c in pre || c in post;
  }
}
