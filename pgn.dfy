/**
 * `pgn::parse`: the movetext of a game split on whitespace and read three
 * tokens at a time ("1. e4 e5"), while more than three tokens remain. A
 * group whose number token holds '{' ends the game without a turn; a group
 * whose black move holds '{' (an annotation such as "{black resigns}") ends
 * it with a turn that has no black move.
 */
module Pgn {
  import opened Wrappers
  import Strings

  /** `Turn`: the white move is always present. */
  datatype Turn = Turn(white: Option<string>, black: Option<string>)

  /** The turns read from the remaining tokens. */
  function TurnsOf(split: seq<string>): (r: seq<Turn>)
    decreases |split|
  {
    if |split| <= 3 then []
    else if '{' in split[0] then []
    else if '{' in split[2] then [Turn(Some(split[1]), None)]
    else [Turn(Some(split[1]), Some(split[2]))] + TurnsOf(split[3..])
  }

  /** `parse` of a whole line. */
  function Parse(game: string): (r: seq<Turn>)
  {
    TurnsOf(Strings.SplitWhitespace(game))
  }

  /** `parse` as the source runs it: a loop that drains three tokens per turn. */
  method ParseGame(game: string) returns (vec: seq<Turn>)
    ensures vec == Parse(game)
  {
    vec := [];
    var split := Strings.SplitWhitespace(game);
    while |split| > 3
      invariant vec + TurnsOf(split) == Parse(game)
      decreases |split|
    {
      var drain := split[..3];
      split := split[3..];
      if '{' in drain[0] {
        break;
      }
      var willBreak := false;
      var black: Option<string>;
      if '{' in drain[2] {
        willBreak := true;
        black := None;
      } else {
        black := Some(drain[2]);
      }
      vec := vec + [Turn(Some(drain[1]), black)];
      if willBreak {
        break;
      }
    }
  }

  /**
   * Each turn consumes three tokens and the loop needs more than three, so
   * there are at most (tokens - 1) / 3 turns; three tokens or fewer give none.
   */
  lemma {:induction false} TurnsBound(split: seq<string>)
    ensures |split| <= 3 ==> TurnsOf(split) == []
    ensures |split| >= 1 ==> |TurnsOf(split)| <= (|split| - 1) / 3
    decreases |split|
  {
    if |split| > 3 && '{' !in split[0] && '{' !in split[2] {
      TurnsBound(split[3..]);
    }
  }

  /**
   * Turn k comes from the k-th group of three tokens: its number token holds
   * no '{', its white move is the group's second token, and its black move,
   * when present, the third.
   */
  lemma {:induction false} TurnsFromGroups(split: seq<string>, k: nat)
    requires k < |TurnsOf(split)|
    ensures 3 * k + 3 < |split|
    ensures '{' !in split[3 * k]
    ensures TurnsOf(split)[k].white == Some(split[3 * k + 1])
    ensures TurnsOf(split)[k].black.Some? <==> '{' !in split[3 * k + 2]
    ensures TurnsOf(split)[k].black.Some? ==> TurnsOf(split)[k].black.value == split[3 * k + 2]
    decreases k
  {
    if k > 0 {
      TurnsFromGroups(split[3..], k - 1);
      assert 3 * (k - 1) + 3 == 3 * k;
    }
  }

  /** A turn without a black move is the last one. */
  lemma {:induction false} MissingBlackEnds(split: seq<string>, k: nat)
    requires k < |TurnsOf(split)| && TurnsOf(split)[k].black.None?
    ensures k == |TurnsOf(split)| - 1
    decreases k
  {
    if k > 0 {
      MissingBlackEnds(split[3..], k - 1);
    }
  }

  /** Without annotations every complete group but a trailing one of exactly three becomes a turn. */
  lemma {:induction false} TurnsWithoutAnnotations(split: seq<string>)
    requires forall i :: 0 <= i < |split| ==> '{' !in split[i]
    ensures |split| >= 1 ==> |TurnsOf(split)| == (|split| - 1) / 3
    ensures forall k :: 0 <= k < |TurnsOf(split)| ==> TurnsOf(split)[k].black.Some?
    decreases |split|
  {
    if |split| > 3 {
      assert '{' !in split[0] && '{' !in split[2];
      TurnsWithoutAnnotations(split[3..]);
      var rest := TurnsOf(split[3..]);
      assert TurnsOf(split) == [Turn(Some(split[1]), Some(split[2]))] + rest;
      forall k | 0 <= k < |TurnsOf(split)|
        ensures TurnsOf(split)[k].black.Some?
      {
        if k > 0 {
          assert TurnsOf(split)[k] == rest[k - 1];
        }
      }
    }
  }

  /** Three tokens give no turn; a fourth token lets the group through; an annotation stops the game. */
  lemma Examples()
    ensures TurnsOf(["1.", "e4", "e5"]) == []
    ensures TurnsOf(["1.", "e4", "e5", "2."]) == [Turn(Some("e4"), Some("e5"))]
    ensures TurnsOf(["1.", "Qf4#", "{black", "wins}", "2."]) == [Turn(Some("Qf4#"), None)]
    ensures TurnsOf(["{start}", "e4", "e5", "2."]) == []
  {
    assert '{' !in "1.";
    assert '{' !in "e5";
    assert '{' in "{black";
    assert '{' in "{start}";
  }
}
