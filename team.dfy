/** The two sides. */
module Teams {
  import opened Wrappers
  import Strings

  datatype Team = White | Black
  {
    /** `Team::not`: the opponent. */
    function Not(): (r: Team)
      ensures r != this
    {
      match this
      case White => Black
      case Black => White
    }

    /** `impl Display for Team`. */
    function Display(): (r: string)
    {
      match this
      case White => "White"
      case Black => "Black"
    }

    /** `Team::abrev`: the one-letter form, upper case. */
    function Abrev(): (r: string)
    {
      match this
      case White => "W"
      case Black => "B"
    }
  }

  /** `impl From<&str> for Team`: three spellings per side; anything else panics. */
  function FromStr(s: string): (r: Result<Team>)
    ensures r.Ok? <==> s in {"w", "White", "white", "b", "Black", "black"}
    ensures r.Ok? ==> (r.value == White <==> s in {"w", "White", "white"})
    ensures r.Err? ==> r.error.Panicked?
  {
    if s == "w" || s == "White" || s == "white" then Ok(White)
    else if s == "b" || s == "Black" || s == "black" then Ok(Black)
    else Err(Panicked("Invalid item provided to decode as team"))
  }

  /** The opponent of the opponent is the side itself, and no side is its own opponent. */
  lemma NotInvolution(t: Team)
    ensures t.Not().Not() == t
    ensures t.Not() != t
    ensures t == White <==> t.Not() == Black
  {
  }

  /** The lowercased abbreviation, the FEN active-colour field, decodes back to the side. */
  lemma AbrevRoundTrip(t: Team)
    ensures Strings.ToLower(t.Abrev()) == (if t == White then "w" else "b")
    ensures FromStr(Strings.ToLower(t.Abrev())) == Ok(t)
  {
    assert Strings.ToLower("W") == "w";
    assert Strings.ToLower("B") == "b";
  }

  /** The displayed name decodes back to the side. */
  lemma DisplayRoundTrip(t: Team)
    ensures FromStr(t.Display()) == Ok(t)
  {
  }
}
