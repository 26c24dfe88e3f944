/**
 * A partial square: the rank and/or file a move token names in front of the
 * target square (the "b" of "Nbd7", the "4" of "R4e1").
 */
module OptSquares {
  import opened Wrappers

  datatype OptSq = OptSq(digit: Option<nat>, letter: Option<nat>)
  {
    /**
     * `OptSq::overwrite`: every coordinate `other` supplies replaces this
     * one's; a coordinate it leaves out is kept. The source updates the
     * value in place; the model returns the updated value.
     */
    function Overwrite(other: OptSq): (r: OptSq)
      ensures other.digit.Some? ==> r.digit == other.digit
      ensures other.digit.None? ==> r.digit == digit
      ensures other.letter.Some? ==> r.letter == other.letter
      ensures other.letter.None? ==> r.letter == letter
    {
      var d := match other.digit case Some(x) => Some(x) case None => digit;
      var l := match other.letter case Some(x) => Some(x) case None => letter;
      OptSq(d, l)
    }
  }

  /** `OptSq::new`: nothing is known. */
  function New(): (r: OptSq)
  {
    OptSq(None, None)
  }

  /** Overwriting with the empty disambiguator changes nothing. */
  lemma OverwriteNew(s: OptSq)
    ensures s.Overwrite(New()) == s
    ensures New().Overwrite(s) == s
  {
  }

  /** Overwriting twice with the same value is overwriting once. */
  lemma OverwriteIdempotent(s: OptSq, o: OptSq)
    ensures s.Overwrite(o).Overwrite(o) == s.Overwrite(o)
  {
  }

  /** Successive overwrites compose: the later supplier wins per coordinate. */
  lemma OverwriteCompose(s: OptSq, o1: OptSq, o2: OptSq)
    ensures s.Overwrite(o1).Overwrite(o2) == s.Overwrite(o1.Overwrite(o2))
  {
  }
}
