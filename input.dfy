/**
 * Reading a square from the end of a move token. The source walks a reversed
 * character iterator that the caller goes on using; here the iterator is the
 * string of characters not yet read, and each step takes its last character
 * and hands back what is left.
 */
module Input {
  import opened Wrappers
  import opened Strings
  import opened Squares
  import OptSquares

  /** One step of the reversed iterator: the last character and what is left before it. */
  function Pop(chars: string): (r: Option<(char, string)>)
    ensures r.None? <==> chars == []
    ensures r.Some? ==> chars == r.value.1 + [r.value.0]
  {
    if chars == [] then None else Some((chars[|chars| - 1], chars[..|chars| - 1]))
  }

  /**
   * `letter_index`: the radix-18 value of the character less 10, so the file
   * letters of either case give 0 .. 7; a decimal digit makes the subtraction
   * underflow (a panic), and anything else gives nothing.
   */
  function LetterIndex(c: char): (r: Result<Option<nat>>)
    ensures r == Ok(None) <==> ToDigit(c, 18).None?
    ensures r.Err? <==> '0' <= c <= '9'
    ensures r.Err? ==> r.error == Panicked(SUB_OVERFLOW)
    ensures ('a' <= c <= 'h' || 'A' <= c <= 'H') <==> r.Ok? && r.value.Some?
    ensures 'a' <= c <= 'h' ==> r == Ok(Some(c as int - 'a' as int))
    ensures 'A' <= c <= 'H' ==> r == Ok(Some(c as int - 'A' as int))
  {
    match ToDigit(c, 18)
    case Some(x) => if x < 10 then Err(Panicked(SUB_OVERFLOW)) else Ok(Some(x - 10))
    case None => Ok(None)
  }

  const NO_DIGIT := "not enough chars in input for digit indice"
  const NO_DIGIT_AFTER_MARK := "not enough chars in input after check/mate"
  const NO_LETTER := "not enough chars in input for letter indice"

  function NotDigit(c: char): string
  {
    "last char (" + [c] + ") not digit"
  }

  /**
   * `to_index_pos`: the rank digit (after one trailing '+' or '#'), then the
   * file letter, read from the end of `chars`; `[digit - 1, file]` and the
   * characters left unread.
   */
  function ToIndexPos(chars: string): (r: (string, Result<(nat, nat)>))
    ensures |r.0| <= |chars| && r.0 == chars[..|r.0|]
  {
    if chars == [] then ([], Err(Failed(NO_DIGIT)))
    else
      var last := chars[|chars| - 1];
      var rest := chars[..|chars| - 1];
      if (last == '+' || last == '#') && rest == [] then ([], Err(Failed(NO_DIGIT_AFTER_MARK)))
      else
        var digitRaw := if last == '+' || last == '#' then rest[|rest| - 1] else last;
        var rest := if last == '+' || last == '#' then rest[..|rest| - 1] else rest;
        match ToDigit(digitRaw, 10)
        case None => (rest, Err(Failed(NotDigit(digitRaw))))
        case Some(digit) =>
          if rest == [] then ([], Err(Failed(NO_LETTER)))
          else
            var letterRaw := rest[|rest| - 1];
            var rest := rest[..|rest| - 1];
            match LetterIndex(letterRaw)
            case Err(e) => (rest, Err(e))
            case Ok(None) => (rest, Err(Panicked(UNWRAP_NONE)))
            case Ok(Some(letter)) =>
              if digit == 0 then (rest, Err(Panicked(SUB_OVERFLOW))) else (rest, Ok((digit - 1, letter)))
  }

  /** `chars_to_sq`: the square of `to_index_pos`, clamped onto the board. */
  function CharsToSq(chars: string): (r: (string, Result<Sq>))
    ensures r.0 == ToIndexPos(chars).0
    ensures r.1.Ok? <==> ToIndexPos(chars).1.Ok?
    ensures r.1.Ok? ==> r.1.value == Squares.New(ToIndexPos(chars).1.value.0, ToIndexPos(chars).1.value.1)
    ensures r.1.Err? ==> r.1.error == ToIndexPos(chars).1.error
  {
    var (rest, pos) := ToIndexPos(chars);
    match pos
    case Ok((digit, letter)) => (rest, Ok(Squares.New(digit, letter)))
    case Err(e) => (rest, Err(e))
  }

  /** At most one of the trailing check or mate markers. */
  predicate Marker(m: string)
  {
    m == [] || m == "+" || m == "#"
  }

  /**
   * A square's name at the end of a token, optionally followed by one marker,
   * is read back as that square, and exactly the characters before it are
   * left for the caller.
   */
  lemma ReadsSquare(pre: string, s: Sq, m: string)
    requires s.OnBoard() && Marker(m)
    ensures ToIndexPos(pre + s.Name() + m) == (pre, Ok((s.digit, s.letter)))
    ensures CharsToSq(pre + s.Name() + m) == (pre, Ok(s))
  {
    var chars := pre + s.Name() + m;
    var core := pre + s.Name();
    if m == [] {
      assert chars == core;
    } else {
      assert chars[..|chars| - 1] == core;
    }
    assert core[|core| - 1] == DigitChar(s.digit + 1);
    assert core[..|core| - 1] == pre + [s.FileChar()];
    assert (pre + [s.FileChar()])[..|pre|] == pre;
  }

  /** The examples of the source's tests, and a trailing marker. */
  lemma Examples()
    ensures ToIndexPos("a1") == ([], Ok((0, 0)))
    ensures ToIndexPos("b4") == ([], Ok((3, 1)))
    ensures ToIndexPos("h7") == ([], Ok((6, 7)))
    ensures ToIndexPos("Qh5+") == ("Q", Ok((4, 7)))
    ensures LetterIndex('a') == Ok(Some(0)) && LetterIndex('f') == Ok(Some(5))
    ensures LetterIndex('h') == Ok(Some(7)) && LetterIndex('j') == Ok(None)
  {
    assert "Qh5+" == "Q" + Sq(4, 7).Name() + "+";
    ReadsSquare("Q", Sq(4, 7), "+");
  }

  /** The failures that are `Err` values rather than panics, each with its message. */
  lemma ReadFailures(chars: string)
    ensures chars == [] ==> ToIndexPos(chars).1 == Err(Failed(NO_DIGIT))
    ensures (chars == "+" || chars == "#") ==> ToIndexPos(chars).1 == Err(Failed(NO_DIGIT_AFTER_MARK))
    ensures |chars| >= 1 && !(chars[|chars| - 1] in "+#") && !('0' <= chars[|chars| - 1] <= '9')
      ==> ToIndexPos(chars).1 == Err(Failed(NotDigit(chars[|chars| - 1])))
    ensures |chars| == 1 && '0' <= chars[0] <= '9' ==> ToIndexPos(chars).1 == Err(Failed(NO_LETTER))
    ensures ToIndexPos(chars).1.Err? && ToIndexPos(chars).1.error.Panicked? ==> |chars| >= 2
  {
    if |chars| >= 1 && !(chars[|chars| - 1] in "+#") {
      DecimalDigit(chars[|chars| - 1]);
    }
  }

  /**
   * `position_indicator` (called but not shown): a rank digit '1' .. '8' or a
   * file letter 'a' .. 'h' as a disambiguator; any other character gives
   * neither coordinate.
   */
  function PositionIndicator(c: char): (r: OptSquares.OptSq)
    ensures '1' <= c <= '8' ==> r == OptSquares.OptSq(Some(c as int - '1' as int), None)
    ensures 'a' <= c <= 'h' ==> r == OptSquares.OptSq(None, Some(c as int - 'a' as int))
    ensures !('1' <= c <= '8' || 'a' <= c <= 'h') ==> r == OptSquares.New()
  {
    if '1' <= c <= '8' then OptSquares.OptSq(Some(c as int - '1' as int), None)
    else if 'a' <= c <= 'h' then OptSquares.OptSq(None, Some(c as int - 'a' as int))
    else OptSquares.New()
  }
}
