/**
 * The score bookkeeping of `handleServerRoundEnd` as values: one round won
 * credits the winner with exactly one point, and a match is over when a
 * score reaches `RoundsToWinMatch` (2), which makes a match best of three.
 */
module Scoring {
  import opened Catalog
  import opened Fighters

  /** `match.scores[wI]++`. */
  function Credit(scores: seq<int>, w: Slot): (r: seq<int>)
    requires |scores| == 2
    ensures |r| == 2
    ensures r[Index(w)] == scores[Index(w)] + 1
    ensures r[Index(Other(w))] == scores[Index(Other(w))]
  {
    scores[Index(w) := scores[Index(w)] + 1]
  }

  predicate Decided(scores: seq<int>)
    requires |scores| == 2
  {
    scores[0] >= RoundsToWinMatch || scores[1] >= RoundsToWinMatch
  }

  /**
   * The scores after the rounds won by `ws`, stopping once the match is
   * decided: a run of `Credit`s, each of which is what `World.HandleRoundEnd`
   * does to the scores of a match in play.
   */
  function PlayRounds(scores: seq<int>, ws: seq<Slot>): (r: seq<int>)
    requires |scores| == 2
    ensures |r| == 2
    decreases |ws|
  {
    if Decided(scores) || ws == [] then scores else PlayRounds(Credit(scores, ws[0]), ws[1..])
  }

  /** How many of the rounds `ws` the player in slot `s` won. */
  function Wins(ws: seq<Slot>, s: Slot): nat {
    if ws == [] then 0 else (if ws[0] == s then 1 else 0) + Wins(ws[1..], s)
  }

  /** How many of the rounds `ws` are played before the match is decided. */
  function RoundsPlayed(scores: seq<int>, ws: seq<Slot>): nat
    requires |scores| == 2
    decreases |ws|
  {
    if Decided(scores) || ws == [] then 0 else 1 + RoundsPlayed(Credit(scores, ws[0]), ws[1..])
  }

  /**
   * Each score is its starting value plus the rounds its player won among
   * those played, and rounds stop being played only once the match is
   * decided.
   */
  lemma {:induction false} ScoresCountWins(scores: seq<int>, ws: seq<Slot>)
    requires |scores| == 2
    ensures var r, k := PlayRounds(scores, ws), RoundsPlayed(scores, ws);
      && k <= |ws|
      && r[0] == scores[0] + Wins(ws[..k], P1)
      && r[1] == scores[1] + Wins(ws[..k], P2)
      && (k < |ws| ==> Decided(r))
    decreases |ws|
  {
    if !Decided(scores) && ws != [] {
      var k := RoundsPlayed(Credit(scores, ws[0]), ws[1..]);
      ScoresCountWins(Credit(scores, ws[0]), ws[1..]);
      assert ws[..k + 1][0] == ws[0] && ws[..k + 1][1..] == ws[1..][..k];
    } else {
      assert ws[..0] == [];
    }
  }

  /**
   * From any undecided score pair, enough round wins decide the match: from
   * 0-0, three rounds always do.
   */
  lemma {:induction false} DecidedWithinThreeRounds(scores: seq<int>, ws: seq<Slot>)
    requires |scores| == 2 && scores[0] >= 0 && scores[1] >= 0
    requires |ws| + scores[0] + scores[1] >= 3
    ensures Decided(PlayRounds(scores, ws))
    decreases |ws|
  {
    if !Decided(scores) && ws != [] {
      DecidedWithinThreeRounds(Credit(scores, ws[0]), ws[1..]);
    }
  }

  /** No score passes the threshold, and a match from 0-0 never lasts more than three rounds. */
  lemma {:induction false} ScoresStayInRange(scores: seq<int>, ws: seq<Slot>)
    requires |scores| == 2
    requires 0 <= scores[0] <= RoundsToWinMatch && 0 <= scores[1] <= RoundsToWinMatch
    ensures var r := PlayRounds(scores, ws);
      0 <= r[0] <= RoundsToWinMatch && 0 <= r[1] <= RoundsToWinMatch
      && (!Decided(scores) ==> r[0] + r[1] <= 3)
    decreases |ws|
  {
    if !Decided(scores) && ws != [] {
      ScoresStayInRange(Credit(scores, ws[0]), ws[1..]);
    }
  }
}
