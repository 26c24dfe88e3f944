/** The six piece kinds and their letter tables. */
module Pieces {
  import opened Wrappers

  datatype Piece = Pawn | Knight | Bishop | Rook | Queen | King
  {
    /** `impl From<Piece> for &str`: the upper-case letter of the kind. */
    function Letter(): (r: string)
      ensures |r| == 1 && 'A' <= r[0] <= 'Z'
    {
      match this
      case Rook => "R"
      case Bishop => "B"
      case Knight => "N"
      case King => "K"
      case Queen => "Q"
      case Pawn => "P"
    }

    /** `Piece::to_str`: the letter a move label starts with; pawns have none. */
    function ToStr(): (r: string)
      ensures this == Pawn ==> r == ""
      ensures this != Pawn ==> r == Letter()
    {
      match this
      case Rook => "R"
      case Bishop => "B"
      case Knight => "N"
      case King => "K"
      case Queen => "Q"
      case Pawn => ""
    }

    /**
     * `Piece::value`: material value. The pawn is worth least, knight and
     * bishop alike, then rook, queen and the king, which is worth most.
     */
    function Value(): (r: nat)
      ensures 1 <= r <= 15
      ensures r == 1 <==> this == Pawn
      ensures r == 3 <==> this == Knight || this == Bishop
      ensures r == 5 <==> this == Rook
      ensures r == 10 <==> this == Queen
      ensures r == 15 <==> this == King
    {
      match this
      case Rook => 5
      case Bishop => 3
      case Knight => 3
      case King => 15
      case Queen => 10
      case Pawn => 1
    }
  }

  /** `Piece::from_char`: only the six upper-case letters name a piece. */
  function FromChar(c: char): (r: Option<Piece>)
    ensures r.Some? <==> c in "BKRPQN"
    ensures r.Some? ==> r.value.Letter() == [c]
  {
    match c
    case 'B' => Some(Bishop)
    case 'K' => Some(King)
    case 'R' => Some(Rook)
    case 'P' => Some(Pawn)
    case 'Q' => Some(Queen)
    case 'N' => Some(Knight)
    case _ => None
  }

  /** `impl From<char> for Piece`: either case of the six letters; anything else panics. */
  function FromAnyCase(c: char): (r: Result<Piece>)
    ensures r.Ok? <==> c in "BKRPQNbkrpqn"
    ensures r.Err? ==> r.error.Panicked?
    ensures r.Ok? ==> r.value.Letter() == [if 'a' <= c <= 'z' then (c as int - 32) as char else c]
  {
    match c
    case 'B' => Ok(Bishop)
    case 'b' => Ok(Bishop)
    case 'K' => Ok(King)
    case 'k' => Ok(King)
    case 'R' => Ok(Rook)
    case 'r' => Ok(Rook)
    case 'P' => Ok(Pawn)
    case 'p' => Ok(Pawn)
    case 'Q' => Ok(Queen)
    case 'q' => Ok(Queen)
    case 'N' => Ok(Knight)
    case 'n' => Ok(Knight)
    case _ => Err(Panicked("cannot cast char into Piece"))
  }

  /**
   * `impl FromStr for Piece`: the one-letter strings the six letters spell.
   * Its error value carries nothing, so it is `None` here.
   */
  function FromStr(s: string): (r: Option<Piece>)
    ensures r.Some? <==> |s| == 1 && s[0] in "BKRPQN"
    ensures r.Some? ==> r.value.Letter() == s
  {
    if |s| == 1 then FromChar(s[0]) else None
  }

  /** Each kind's letter reads back as that kind, by every reader. */
  lemma LetterRoundTrip(p: Piece)
    ensures FromChar(p.Letter()[0]) == Some(p)
    ensures FromStr(p.Letter()) == Some(p)
    ensures FromAnyCase(p.Letter()[0]) == Ok(p)
  {
  }

  /** Distinct kinds have distinct letters. */
  lemma LetterInjective(p: Piece, q: Piece)
    ensures p.Letter() == q.Letter() ==> p == q
  {
  }

  /** Characters the piece reader must refuse. */
  lemma FromCharRejects()
    ensures FromChar(' ') == None && FromChar('x') == None && FromChar('d') == None
    ensures FromStr("Z") == None
  {
  }
}
