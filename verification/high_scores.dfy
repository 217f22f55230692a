/** The two game high-score trackers: one score per user for 2048, one score per user and
    difficulty for Snake. Both keep the larger of the stored and the submitted score, except
    that the very first submission is stored as it is. */
module HighScores {
  import opened Common

  /** The score kept after a submission: the submission itself when nothing is stored yet,
      otherwise the submission only when it is strictly greater. */
  function Kept(stored: Option<int>, score: int): (r: int)
    ensures stored.None? ==> r == score
    ensures stored.Some? ==> r >= stored.value && r >= score && (r == stored.value || r == score)
  {
    if stored.None? then score
    else if score > stored.value then score
    else stored.value
  }

  /** The stored score after a run of submissions on an existing record. */
  function Replay(stored: int, scores: seq<int>): int {
    if scores == [] then stored else Kept(Some(Replay(stored, scores[..|scores| - 1])), scores[|scores| - 1])
  }

  /** Replaying submissions keeps the maximum: the result is at least the starting score and
      every submitted score, and it is one of them. */
  lemma {:induction false} ReplayIsMax(stored: int, scores: seq<int>)
    ensures Replay(stored, scores) >= stored
    ensures forall i :: 0 <= i < |scores| ==> Replay(stored, scores) >= scores[i]
    ensures Replay(stored, scores) == stored || exists i :: 0 <= i < |scores| && Replay(stored, scores) == scores[i]
  {
    if scores != [] {
      var init := scores[..|scores| - 1];
      ReplayIsMax(stored, init);
      assert forall i :: 0 <= i < |init| ==> init[i] == scores[i];
      if Replay(stored, scores) != stored && Replay(stored, scores) != scores[|scores| - 1] {
        var i :| 0 <= i < |init| && Replay(stored, init) == init[i];
        assert Replay(stored, scores) == scores[i];
      }
    }
  }

  /** Once a record exists its score never decreases, however the submissions continue. */
  lemma {:induction false} ReplayMonotone(stored: int, scores: seq<int>, n: nat)
    requires n <= |scores|
    ensures Replay(stored, scores[..n]) <= Replay(stored, scores)
    decreases |scores|
  {
    if n < |scores| {
      var init := scores[..|scores| - 1];
      assert init[..n] == scores[..n];
      ReplayMonotone(stored, init, n);
    } else {
      assert scores[..n] == scores;
    }
  }

  // ---------------------------------------------------------------------------
  // 2048

  class Game2048 {
    /** One high score per user. */
    var highScore: map<UserId, int>

    constructor ()
      ensures highScore == map[]
    {
      highScore := map[];
    }

    /** GET: the stored score, after creating a record at 0 when there is none. */
    method Get(u: UserId) returns (s: int)
      modifies this
      ensures highScore == if u in old(highScore) then old(highScore) else old(highScore)[u := 0]
      ensures s == highScore[u]
    {
      if u !in highScore {
        highScore := highScore[u := 0];
      }
      s := highScore[u];
    }

    /** POST: store the kept score and answer with it. */
    method Submit(u: UserId, score: int) returns (s: int)
      modifies this
      ensures s == Kept(if u in old(highScore) then Some(old(highScore)[u]) else None, score)
      ensures highScore == old(highScore)[u := s]
    {
      if u !in highScore {
        highScore := highScore[u := score];
      } else if score > highScore[u] {
        highScore := highScore[u := score];
      }
      s := highScore[u];
    }
  }

  // ---------------------------------------------------------------------------
  // Snake

  /** Per-difficulty scores, keyed by the difficulty's tick interval. */
  type Board = map<int, int>

  /** The schema's four difficulty keys: easy, medium, hard, extreme. */
  const Difficulties: set<int> := {120, 80, 50, 30}

  /** A new record: every difficulty at 0. */
  function DefaultBoard(): (b: Board)
    ensures b.Keys == Difficulties
    ensures forall d :: d in b ==> b[d] == 0
  {
    map[120 := 0, 80 := 0, 50 := 0, 30 := 0]
  }

  /** The current score at a difficulty; a missing key counts as 0. */
  function Current(b: Board, d: int): int {
    if d in b then b[d] else 0
  }

  /** The board after a submission: a new record starts from the defaults and takes the score at
      `d` unconditionally; an existing one takes it only when strictly greater than the current
      score. */
  function Submitted(stored: Option<Board>, d: int, score: int): (r: Board)
    ensures stored.None? ==> r == DefaultBoard()[d := score]
    ensures stored.Some? ==> Current(r, d) == Kept(Some(Current(stored.value, d)), score)
    ensures stored.Some? ==> r.Keys <= stored.value.Keys + {d}
  {
    if stored.None? then DefaultBoard()[d := score]
    else if score > Current(stored.value, d) then stored.value[d := score]
    else stored.value
  }

  /** Only the submitted difficulty can change: on an existing record no other key appears, no
      other score moves, no score decreases and no key disappears. */
  lemma SubmittedFrame(b: Board, d: int, score: int)
    ensures var r := Submitted(Some(b), d, score);
      && b.Keys <= r.Keys
      && r.Keys <= b.Keys + {d}
      && (forall k :: k in b && k != d ==> r[k] == b[k])
      && (forall k :: k in b ==> r[k] >= b[k])
  {
  }

  /** A new record holds the defaults at every other difficulty. */
  lemma FirstSubmission(d: int, score: int, k: int)
    requires k in Difficulties && k != d
    ensures Submitted(None, d, score)[k] == 0
    ensures Submitted(None, d, score)[d] == score
  {
  }

  class SnakeGame {
    /** One board per user. */
    var highScores: map<UserId, Board>

    constructor ()
      ensures highScores == map[]
    {
      highScores := map[];
    }

    /** GET: the stored board, after creating one at the defaults when there is none. */
    method Get(u: UserId) returns (b: Board)
      modifies this
      ensures highScores == if u in old(highScores) then old(highScores) else old(highScores)[u := DefaultBoard()]
      ensures b == highScores[u]
    {
      if u !in highScores {
        highScores := highScores[u := DefaultBoard()];
      }
      b := highScores[u];
    }

    /** POST: store the submitted board and answer with it. */
    method Submit(u: UserId, d: int, score: int) returns (b: Board)
      modifies this
      ensures b == Submitted(if u in old(highScores) then Some(old(highScores)[u]) else None, d, score)
      ensures highScores == old(highScores)[u := b]
    {
      var board: Board;
      if u !in highScores {
        board := DefaultBoard();
        board := board[d := score];
      } else {
        board := highScores[u];
        var current := if d in board then board[d] else 0;
        if score > current {
          board := board[d := score];
        }
      }
      highScores := highScores[u := board];
      b := board;
    }
  }
}
