/**
 * Squares of the 8x8 board. `digit` is the rank (0 is rank "1"), `letter`
 * the file (0 is file "a"). The source stores both as `usize`; the model uses
 * `nat`, so a square value may lie off the board exactly as a Rust `Sq`
 * built without `Sq::new` may.
 */
module Squares {
  import opened Wrappers
  import opened Strings
  import OptSquares

  const SIZE: nat := 8

  /** `cmp::min(7, x)`. */
  function Clamp(x: nat): (r: nat)
    ensures r <= 7
    ensures x <= 7 ==> r == x
    ensures x > 7 ==> r == 7
  {
    if x < 7 then x else 7
  }

  /** A cast `x as usize` of a signed machine value (64-bit two's complement). */
  function AsUsize(x: int): (r: nat)
    ensures 0 <= x < 0x1_0000_0000_0000_0000 ==> r == x
    ensures -0x1_0000_0000_0000_0000 <= x < 0 ==> r == x + 0x1_0000_0000_0000_0000
  {
    x % 0x1_0000_0000_0000_0000
  }

  datatype Sq = Sq(digit: nat, letter: nat)
  {
    predicate OnBoard()
    {
      digit < SIZE && letter < SIZE
    }

    /** `can_add`: the coordinate-wise sum stays on the board. */
    predicate CanAdd(o: Sq)
    {
      digit + o.digit < SIZE && letter + o.letter < SIZE
    }

    /** `can_sub`: the coordinate-wise difference does not go below zero. */
    predicate CanSub(o: Sq)
    {
      o.digit <= digit && o.letter <= letter
    }

    /** `impl Add for Sq`: coordinate-wise sum saturating at 7. */
    function Add(o: Sq): (r: Sq)
      ensures r.OnBoard()
      ensures r.digit <= digit + o.digit && r.letter <= letter + o.letter
      ensures CanAdd(o) ==> r == Sq(digit + o.digit, letter + o.letter)
    {
      Sq(Clamp(digit + o.digit), Clamp(letter + o.letter))
    }

    /** `impl Sub for Sq`: coordinate-wise difference saturating at 0. */
    function Sub(o: Sq): (r: Sq)
      ensures r.digit <= digit && r.letter <= letter
      ensures CanSub(o) ==> r.digit + o.digit == digit && r.letter + o.letter == letter
      ensures o.digit >= digit ==> r.digit == 0
      ensures o.letter >= letter ==> r.letter == 0
    {
      Sq(if o.digit <= digit then digit - o.digit else 0,
         if o.letter <= letter then letter - o.letter else 0)
    }

    /** `dark_square`. */
    predicate DarkSquare()
    {
      (digit % 2 == 0 && letter % 2 == 0) || (digit % 2 != 0 && letter % 2 != 0)
    }

    /** `union`: the coordinates the disambiguator supplies replace this square's. */
    function Union(o: OptSquares.OptSq): (r: Sq)
      ensures o.digit.Some? ==> r.digit == o.digit.value
      ensures o.digit.None? ==> r.digit == digit
      ensures o.letter.Some? ==> r.letter == o.letter.value
      ensures o.letter.None? ==> r.letter == letter
    {
      var s := this;
      var s := if o.digit.Some? then s.(digit := o.digit.value) else s;
      if o.letter.Some? then s.(letter := o.letter.value) else s
    }

    /** `mutate`: the square shifted by an offset, when that stays on the board. */
    function Mutate(rank: int, file: int): (r: Option<Sq>)
      ensures r.Some? <==> ValidIdx(digit + rank, letter + file)
      ensures r.Some? ==> r.value.OnBoard() && r.value.digit == digit + rank && r.value.letter == letter + file
    {
      var iRank := digit + rank;
      var iFile := letter + file;
      if ValidIdx(iRank, iFile) then Some(New(iRank, iFile)) else None
    }

    /**
     * `get_file_char`: `(97 + letter as u8) as char`. The cast keeps the low
     * byte of `letter`, and the `u8` addition must not overflow.
     */
    function FileChar(): (c: char)
      requires letter % 256 <= 158
      ensures c as int == 'a' as int + letter % 256
      ensures letter < SIZE ==> 'a' <= c <= 'h'
    {
      (97 + letter % 256) as char
    }

    /** `impl Display for Sq`: the file letter followed by the rank number. */
    function Display(): (r: string)
      requires letter % 256 <= 158
      ensures r == [FileChar()] + NatToString(digit + 1)
      ensures OnBoard() ==> |r| == 2 && '1' <= r[1] <= '8'
    {
      [FileChar()] + NatToString(digit + 1)
    }

    /** The two characters `Display` prints for a square on the board. */
    function Name(): (r: string)
      requires OnBoard()
    {
      [FileChar(), DigitChar(digit + 1)]
    }
  }

  /** `Sq::new`: each coordinate is clamped to 7. */
  function New(digit: nat, letter: nat): (r: Sq)
    ensures r.OnBoard()
    ensures digit < SIZE ==> r.digit == digit
    ensures letter < SIZE ==> r.letter == letter
    ensures digit >= SIZE ==> r.digit == 7
    ensures letter >= SIZE ==> r.letter == 7
  {
    Sq(Clamp(digit), Clamp(letter))
  }

  /** `valid_idx`. */
  predicate ValidIdx(rank: int, file: int)
  {
    !(rank > 7 || rank < 0 || file > 7 || file < 0)
  }

  /** `try_into`: the square at signed coordinates, if they lie on the board. */
  function TryInto(rank: int, file: int): (r: Option<Sq>)
    ensures r.Some? <==> 0 <= rank < SIZE && 0 <= file < SIZE
    ensures r.Some? ==> r.value == Sq(rank, file)
  {
    if ValidIdx(rank, file) then Some(New(rank as nat, file as nat)) else None
  }

  /** A file character as `to_digit(18)` reads it after subtracting 10. */
  predicate FileLetter(c: char)
  {
    'a' <= c <= 'h' || 'A' <= c <= 'H'
  }

  function FileIndex(c: char): (r: nat)
    requires FileLetter(c)
    ensures r < SIZE
  {
    if 'a' <= c <= 'h' then c as int - 'a' as int else c as int - 'A' as int
  }

  /**
   * `Sq::notation`: reads the rank digit from the last character and the file
   * letter from the one before it. A rank digit 0 underflows `d - 1`, and a
   * decimal digit in the file position underflows `d - 10`.
   */
  function Notation(s: string): (r: Result<Sq>)
    ensures |s| == 0 ==> r.Err? && r.error.Failed?
    ensures r.Ok? <==> |s| >= 2 && '1' <= s[|s| - 1] <= '9' && FileLetter(s[|s| - 2])
    ensures r.Ok? ==> r.value == New(s[|s| - 1] as int - '1' as int, FileIndex(s[|s| - 2]))
    ensures r.Err? && r.error.Panicked? <==>
      |s| >= 1 && (s[|s| - 1] == '0' || (|s| >= 2 && '1' <= s[|s| - 1] <= '9' && '0' <= s[|s| - 2] <= '9'))
  {
    if |s| == 0 then Err(Failed("len was 0, must be 2"))
    else
      match ToDigit(s[|s| - 1], 10)
      case None => Err(Failed("invalid notation"))
      case Some(d) =>
        if d < 1 then Err(Panicked(SUB_OVERFLOW))
        else if |s| == 1 then Err(Failed("len was 1, must be 2"))
        else
          match ToDigit(s[|s| - 2], 10 + SIZE)
          case None => Err(Failed("not letter"))
          case Some(f) =>
            if f < 10 then Err(Panicked(SUB_OVERFLOW))
            else Ok(New(d - 1, f - 10))
  }

  /** `dark_square` holds exactly when rank and file have the same parity. */
  lemma DarkSquareParity(s: Sq)
    ensures s.DarkSquare() <==> s.digit % 2 == s.letter % 2
  {
  }

  /** The clamped sum is the plain sum exactly when `can_add` holds. */
  lemma AddIff(a: Sq, b: Sq)
    ensures a.CanAdd(b) <==> a.Add(b) == Sq(a.digit + b.digit, a.letter + b.letter)
  {
  }

  /** The saturated difference undoes an addition exactly when `can_sub` holds. */
  lemma SubIff(a: Sq, b: Sq)
    ensures a.CanSub(b) <==> (a.Sub(b).digit + b.digit == a.digit && a.Sub(b).letter + b.letter == a.letter)
  {
  }

  /** The board's own square arithmetic examples, saturating cases included. */
  lemma ArithmeticExamples()
    ensures New(3, 4).Add(New(1, 0)) == New(4, 4)
    ensures New(4, 7).Add(New(6, 5)) == New(7, 7)
    ensures New(1, 1).Sub(New(2, 2)) == New(0, 0)
  {
  }

  /** Adding the zero square changes nothing. */
  lemma AddZero(s: Sq)
    requires s.OnBoard()
    ensures s.Add(Sq(0, 0)) == s
  {
  }

  /** `mutate` agrees with `try_into` of the shifted coordinates. */
  lemma MutateTryInto(s: Sq, rank: int, file: int)
    ensures s.Mutate(rank, file) == TryInto(s.digit + rank, s.letter + file)
  {
  }

  /** `union` composes with `OptSq::overwrite`. */
  lemma UnionOverwrite(s: Sq, o1: OptSquares.OptSq, o2: OptSquares.OptSq)
    ensures s.Union(o1).Union(o2) == s.Union(o1.Overwrite(o2))
  {
  }

  /** Printing an on-board square and reading it back gives the same square. */
  lemma NotationDisplay(s: Sq)
    requires s.OnBoard()
    ensures Notation(s.Display()) == Ok(s)
  {
    var t := s.Display();
    assert t == [s.FileChar(), DigitChar(s.digit + 1)];
  }

  /** On the board, `Name` is what `Display` prints. */
  lemma NameDisplay(s: Sq)
    requires s.OnBoard()
    ensures s.Name() == s.Display()
    ensures Notation(s.Name()) == Ok(s)
  {
    NotationDisplay(s);
  }

  /** The error cases the square reader reports rather than panicking on. */
  lemma NotationErrors()
    ensures Notation("") == Err(Failed("len was 0, must be 2"))
    ensures Notation("-") == Err(Failed("invalid notation"))
    ensures Notation("4") == Err(Failed("len was 1, must be 2"))
    ensures Notation("e3") == Ok(Sq(2, 4))
  {
  }
}
