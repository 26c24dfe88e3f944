/** Castling rights and their FEN field. */
module Castlings {
  import opened Teams

  /** `CastlingAvailability`: long is queen-side, short is king-side. */
  datatype Availability = Availability(long: bool, short: bool)

  /** `CastlingAvailability::new`: both rights. */
  function AvailabilityNew(): (r: Availability)
  {
    Availability(true, true)
  }

  datatype Castling = Castling(white: Availability, black: Availability)
  {
    function Rights(team: Team): (r: Availability)
    {
      match team
      case White => white
      case Black => black
    }

    predicate NoneGranted()
    {
      !white.short && !white.long && !black.short && !black.long
    }

    /**
     * `Castling::revoke` clears both rights of one side. The source clears the
     * fields in place; the model returns the updated value.
     */
    function Revoke(team: Team): (r: Castling)
      ensures r.Rights(team) == Availability(false, false)
      ensures r.Rights(team.Not()) == Rights(team.Not())
    {
      match team
      case White => this.(white := Availability(false, false))
      case Black => this.(black := Availability(false, false))
    }

    /** The FEN castling field: the granted rights among K, Q, k, q in that order, or "-". */
    function FenField(): (r: string)
    {
      if NoneGranted() then "-"
      else Keep(white.short, 'K') + Keep(white.long, 'Q') + Keep(black.short, 'k') + Keep(black.long, 'q')
    }
  }

  function Keep(granted: bool, c: char): (r: string)
  {
    if granted then [c] else []
  }

  /** `Castling::new`: every right is granted. */
  function New(): (r: Castling)
  {
    Castling(AvailabilityNew(), AvailabilityNew())
  }

  /** `Castling::fen`, built one pushed character at a time. */
  method Fen(c: Castling) returns (res: string)
    ensures res == c.FenField()
  {
    res := "";
    if !c.white.short && !c.white.long && !c.black.short && !c.black.long {
      res := res + ['-'];
    } else {
      if c.white.short {
        res := res + ['K'];
      }
      if c.white.long {
        res := res + ['Q'];
      }
      if c.black.short {
        res := res + ['k'];
      }
      if c.black.long {
        res := res + ['q'];
      }
    }
  }

  /**
   * `impl From<&str> for Castling` (its body is not part of this model): a
   * right is granted exactly when its letter occurs in the field.
   */
  function FromFen(s: string): (r: Castling)
    ensures r.white.short <==> 'K' in s
    ensures r.white.long <==> 'Q' in s
    ensures r.black.short <==> 'k' in s
    ensures r.black.long <==> 'q' in s
  {
    Castling(Availability('Q' in s, 'K' in s), Availability('q' in s, 'k' in s))
  }

  /** Every right is granted initially, so the field is "KQkq". */
  lemma NewFen()
    ensures New().FenField() == "KQkq"
    ensures !New().NoneGranted()
  {
  }

  /** The field is "-" exactly when no right is granted. */
  lemma FenDash(c: Castling)
    ensures c.FenField() == "-" <==> c.NoneGranted()
  {
    if !c.NoneGranted() {
      var k1, k2 := Keep(c.white.short, 'K'), Keep(c.white.long, 'Q');
      var k3, k4 := Keep(c.black.short, 'k'), Keep(c.black.long, 'q');
      assert c.FenField() == k1 + k2 + k3 + k4;
      assert '-' !in k1 && '-' !in k2 && '-' !in k3 && '-' !in k4;
      assert '-' !in c.FenField();
    }
  }

  /** Each letter occurs in the field exactly when its right is granted. */
  lemma FenLetters(c: Castling)
    ensures 'K' in c.FenField() <==> c.white.short
    ensures 'Q' in c.FenField() <==> c.white.long
    ensures 'k' in c.FenField() <==> c.black.short
    ensures 'q' in c.FenField() <==> c.black.long
    ensures 1 <= |c.FenField()| <= 4
  {
  }

  /** The FEN field reads back as the same rights. */
  lemma FenRoundTrip(c: Castling)
    ensures FromFen(c.FenField()) == c
  {
    FenLetters(c);
  }

  /** Revoking a side twice is revoking it once, and revoking both sides revokes all. */
  lemma RevokeProperties(c: Castling, t: Team)
    ensures c.Revoke(t).Revoke(t) == c.Revoke(t)
    ensures c.Revoke(t).Revoke(t.Not()).NoneGranted()
    ensures New().Revoke(White).Revoke(Black).FenField() == "-"
  {
  }
}
