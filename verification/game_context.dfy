/**
 * The turn engine of the dart scorer: the state held by the game provider
 * (src/context/GameContext.jsx) and the six operations that change it.
 *
 * The pure functions ending in `Step` say what each operation does to the
 * whole state; the class `GameProvider` holds the six state cells as mutable
 * fields and updates them one after another, and each of its methods is
 * proved to produce exactly the state its `Step` function describes. The
 * lemmas at the end state the engine's properties about the `Step` functions.
 */
module GameContext {
  import opened Wrappers

  /** The throw type passed to `addThrow` and kept as `lastThrowType`. */
  datatype ThrowKind = Single | Double | Triple | Miss | Bull | Cherry | Bust

  /** Number of throw slots in a turn. */
  const TurnLength := 3

  /** The throw slots of a fresh turn. */
  const EmptyThrows: seq<int> := [0, 0, 0]

  /** A player record; `throws` holds the score of each dart of the turn. */
  datatype Player = Player(
    name: string,
    playerScore: int,
    turnScore: int,
    lastThrowType: Option<ThrowKind>,
    throws: seq<int>)

  /** What `nextTurn` remembers of the turn it ends, for `undoTurn`. */
  datatype TurnSnapshot = TurnSnapshot(playerIndex: int, throws: seq<int>, turnScore: int)

  /** The provider's six state cells. */
  datatype GameState = GameState(
    gameType: Option<int>,
    players: seq<Player>,
    currentPlayerIndex: int,
    currentThrowIndex: int,
    turnEnded: bool,
    previousTurn: Option<TurnSnapshot>)

  // ---------------------------------------------------------------------
  // Sequences of throw scores

  function Sum(t: seq<int>): (r: int)
  {
    if t == [] then 0 else t[0] + Sum(t[1..])
  }

  /**
   * The slot the backward scan of `undoLastThrow` stops at: the highest
   * index holding a non-zero score, or -1 when every slot is zero.
   */
  function LastNonZeroIndex(t: seq<int>): (r: int)
    ensures -1 <= r < |t|
    ensures r >= 0 ==> t[r] != 0
    ensures forall j :: r < j < |t| ==> t[j] == 0
  {
    if t == [] then -1
    else if t[|t| - 1] != 0 then |t| - 1
    else LastNonZeroIndex(t[..|t| - 1])
  }

  /**
   * `findIndex(t => t === 0)`: the lowest index holding zero, or -1 when
   * no slot is zero.
   */
  function FirstZeroIndex(t: seq<int>): (r: int)
    ensures -1 <= r < |t|
    ensures r >= 0 ==> t[r] == 0
    ensures forall j :: 0 <= j < |t| && (r == -1 || j < r) ==> t[j] != 0
  {
    if t == [] then -1
    else if t[0] == 0 then 0
    else
      var k := FirstZeroIndex(t[1..]);
      if k == -1 then -1 else k + 1
  }

  /** The loop of `undoLastThrow` that scans the slots from the last one down. */
  method FindLastNonZero(t: seq<int>) returns (lastIdx: int)
    ensures -1 <= lastIdx < |t|
    ensures lastIdx >= 0 ==> t[lastIdx] != 0
    ensures forall j :: lastIdx < j < |t| ==> t[j] == 0
    ensures lastIdx == LastNonZeroIndex(t)
  {
    lastIdx := -1;
    var i := |t| - 1;
    while i >= 0
      invariant -1 <= i < |t|
      invariant forall j :: i < j < |t| ==> t[j] == 0
      decreases i + 1
    {
      if t[i] != 0 {
        lastIdx := i;
        break;
      }
      i := i - 1;
    }
  }

  // ---------------------------------------------------------------------
  // Per-player updates (the bodies of the `players.map` callbacks)

  /** The arithmetic invariant of a turn: turn score plus the recorded throws is the player score. */
  predicate Balanced(p: Player)
  {
    p.turnScore + Sum(p.throws) == p.playerScore
  }

  /** A player as `startGame` creates them. */
  function NewPlayer(name: string, start: int): (p: Player)
    ensures p.name == name && p.playerScore == start && p.turnScore == start
    ensures p.lastThrowType == None && p.throws == EmptyThrows
  {
    Player(name, start, start, None, EmptyThrows)
  }

  /**
   * The current player after `addThrow(s, ty)` at slot `slot`. A slot of -1
   * names no array element: the assignment in the source lands on a
   * non-index property that no later read of the throws sees, so the slots
   * stay as they were while the turn score still drops.
   */
  function RecordThrow(p: Player, slot: int, s: int, ty: ThrowKind): (q: Player)
    requires slot < |p.throws|
    ensures q.name == p.name && q.playerScore == p.playerScore
    ensures q.turnScore == p.turnScore - s && q.lastThrowType == Some(ty)
    ensures |q.throws| == |p.throws|
    ensures slot >= 0 ==> q.throws[slot] == s
    ensures forall j :: 0 <= j < |p.throws| && j != slot ==> q.throws[j] == p.throws[j]
  {
    p.(throws := if slot < 0 then p.throws else p.throws[slot := s],
       turnScore := p.turnScore - s,
       lastThrowType := Some(ty))
  }

  /** The player who is about to throw after `nextTurn`. */
  function ResetForTurn(p: Player): (q: Player)
    ensures Balanced(q)
    ensures q.name == p.name && q.playerScore == p.playerScore
    ensures q.lastThrowType == None && q.throws == EmptyThrows
  {
    p.(turnScore := p.playerScore, throws := EmptyThrows, lastThrowType := None)
  }

  /** The snapshotted player after `undoTurn`. */
  function RestoreTurn(p: Player, snap: TurnSnapshot): (q: Player)
    ensures q.throws == snap.throws && q.turnScore == snap.turnScore
    ensures q.name == p.name && q.playerScore == p.playerScore
    ensures q.lastThrowType == p.lastThrowType
  {
    p.(throws := snap.throws, turnScore := snap.turnScore)
  }

  /** The current player after `undoLastThrow` has cleared slot `k`. */
  function ClearSlot(p: Player, k: int): (q: Player)
    requires 0 <= k < |p.throws|
    ensures q.throws == p.throws[k := 0]
    ensures q.turnScore == p.turnScore + p.throws[k]
    ensures q.name == p.name && q.playerScore == p.playerScore && q.lastThrowType == None
  {
    p.(throws := p.throws[k := 0], turnScore := p.turnScore + p.throws[k], lastThrowType := None)
  }

  // ---------------------------------------------------------------------
  // The state and its operations

  /**
   * What holds of every state the provider reaches: no players or the two
   * that `startGame` creates, three slots per player, the current player
   * index within range, the throw index in [-1, 2], and a snapshot only
   * of an existing player.
   */
  predicate ValidState(st: GameState)
  {
    (st.players == [] || |st.players| == 2) &&
    (forall k :: 0 <= k < |st.players| ==> |st.players[k].throws| == TurnLength) &&
    0 <= st.currentPlayerIndex &&
    (st.players != [] ==> st.currentPlayerIndex < |st.players|) &&
    -1 <= st.currentThrowIndex <= 2 &&
    (st.previousTurn.Some? ==>
      0 <= st.previousTurn.value.playerIndex < |st.players| &&
      |st.previousTurn.value.throws| == TurnLength)
  }

  /** The state before any game, and after `resetGame`. */
  function InitialState(): (st: GameState)
    ensures ValidState(st)
    ensures st.players == [] && st.gameType == None && st.previousTurn == None
    ensures st.currentPlayerIndex == 0 && st.currentThrowIndex == 0 && !st.turnEnded
  {
    GameState(None, [], 0, 0, false, None)
  }

  function StartGameStep(st: GameState, t: int): (r: GameState)
    requires ValidState(st)
    ensures ValidState(r)
    ensures r.gameType == Some(t)
    ensures r.players == [NewPlayer("Player 1", t), NewPlayer("Player 2", t)]
    ensures r.currentPlayerIndex == 0 && r.currentThrowIndex == 0 && !r.turnEnded
    ensures r.previousTurn == st.previousTurn
  {
    st.(gameType := Some(t),
        players := [NewPlayer("Player 1", t), NewPlayer("Player 2", t)],
        currentPlayerIndex := 0,
        currentThrowIndex := 0,
        turnEnded := false)
  }

  function AddThrowStep(st: GameState, s: int, ty: ThrowKind): (r: GameState)
    requires ValidState(st)
    ensures ValidState(r)
    ensures r.gameType == st.gameType && r.currentPlayerIndex == st.currentPlayerIndex
    ensures r.previousTurn == st.previousTurn
    ensures |r.players| == |st.players|
    ensures forall k :: 0 <= k < |st.players| && k != st.currentPlayerIndex ==> r.players[k] == st.players[k]
    ensures st.currentPlayerIndex < |st.players| ==>
      r.players[st.currentPlayerIndex] ==
        RecordThrow(st.players[st.currentPlayerIndex], st.currentThrowIndex, s, ty)
    ensures 0 <= st.currentThrowIndex ==> 0 <= r.currentThrowIndex <= 2
    ensures st.currentThrowIndex == 2 ==> r.currentThrowIndex == 2
    ensures r.turnEnded <==> st.turnEnded || st.currentThrowIndex == 2
    ensures st.currentThrowIndex < 2 ==> r.currentThrowIndex == st.currentThrowIndex + 1
  {
    var cur := st.currentPlayerIndex;
    var players :=
      if cur < |st.players|
      then st.players[cur := RecordThrow(st.players[cur], st.currentThrowIndex, s, ty)]
      else st.players;
    if st.currentThrowIndex == 2 then
      st.(players := players, turnEnded := true)
    else
      st.(players := players, currentThrowIndex := st.currentThrowIndex + 1)
  }

  function NextTurnStep(st: GameState): (r: GameState)
    requires ValidState(st) && st.players != []
    ensures ValidState(r)
    ensures r.currentPlayerIndex == (st.currentPlayerIndex + 1) % |st.players|
    ensures r.currentThrowIndex == 0 && !r.turnEnded && r.gameType == st.gameType
    ensures r.previousTurn == Some(TurnSnapshot(st.currentPlayerIndex,
                                                st.players[st.currentPlayerIndex].throws,
                                                st.players[st.currentPlayerIndex].turnScore))
    ensures |r.players| == |st.players|
    ensures r.players[r.currentPlayerIndex] == ResetForTurn(st.players[r.currentPlayerIndex])
    ensures forall k :: 0 <= k < |st.players| && k != r.currentPlayerIndex ==> r.players[k] == st.players[k]
  {
    var cur := st.currentPlayerIndex;
    var next := (cur + 1) % |st.players|;
    st.(previousTurn := Some(TurnSnapshot(cur, st.players[cur].throws, st.players[cur].turnScore)),
        players := st.players[next := ResetForTurn(st.players[next])],
        currentPlayerIndex := next,
        currentThrowIndex := 0,
        turnEnded := false)
  }

  function UndoTurnStep(st: GameState): (r: GameState)
    requires ValidState(st)
    ensures ValidState(r)
    ensures st.previousTurn == None ==> r == st
    ensures r.previousTurn == st.previousTurn && r.gameType == st.gameType
    ensures |r.players| == |st.players|
    ensures st.previousTurn.Some? ==>
      var snap := st.previousTurn.value;
      r.currentPlayerIndex == snap.playerIndex &&
      r.players[snap.playerIndex] == RestoreTurn(st.players[snap.playerIndex], snap) &&
      (forall k :: 0 <= k < |st.players| && k != snap.playerIndex ==> r.players[k] == st.players[k]) &&
      r.currentThrowIndex == FirstZeroIndex(snap.throws) &&
      !r.turnEnded
  {
    match st.previousTurn
    case None => st
    case Some(snap) =>
      var i := snap.playerIndex;
      st.(players := st.players[i := RestoreTurn(st.players[i], snap)],
          currentPlayerIndex := i,
          currentThrowIndex := FirstZeroIndex(snap.throws),
          turnEnded := false)
  }

  function ResetGameStep(st: GameState): (r: GameState)
    ensures r == InitialState()
  {
    InitialState()
  }

  function UndoLastThrowStep(st: GameState): (r: GameState)
    requires ValidState(st)
    ensures ValidState(r)
    ensures r.gameType == st.gameType && r.previousTurn == st.previousTurn
    ensures r.currentPlayerIndex == st.currentPlayerIndex && |r.players| == |st.players|
    ensures forall k :: 0 <= k < |st.players| && k != st.currentPlayerIndex ==> r.players[k] == st.players[k]
    ensures st.currentPlayerIndex >= |st.players| ==> r == st
    ensures st.currentPlayerIndex < |st.players| ==>
      var p := st.players[st.currentPlayerIndex];
      var k := LastNonZeroIndex(p.throws);
      (k == -1 ==> r == st) &&
      (k >= 0 ==>
        r.players[st.currentPlayerIndex] == ClearSlot(p, k) &&
        r.currentThrowIndex == k && !r.turnEnded)
  {
    var cur := st.currentPlayerIndex;
    if cur >= |st.players| then st
    else
      var p := st.players[cur];
      var k := LastNonZeroIndex(p.throws);
      if k == -1 then st
      else st.(players := st.players[cur := ClearSlot(p, k)],
               currentThrowIndex := k,
               turnEnded := false)
  }

  // ---------------------------------------------------------------------
  // The provider, with its state cells as mutable fields

  class GameProvider {
    var gameType: Option<int>
    var players: seq<Player>
    var currentPlayerIndex: int
    var currentThrowIndex: int
    var turnEnded: bool
    var previousTurn: Option<TurnSnapshot>

    function State(): (st: GameState)
      reads this
    {
      GameState(gameType, players, currentPlayerIndex, currentThrowIndex, turnEnded, previousTurn)
    }

    predicate Valid()
      reads this
    {
      ValidState(State())
    }

    constructor ()
      ensures Valid() && State() == InitialState()
    {
      gameType := None;
      players := [];
      currentPlayerIndex := 0;
      currentThrowIndex := 0;
      turnEnded := false;
      previousTurn := None;
    }

    method StartGame(t: int)
      requires Valid()
      modifies this
      ensures Valid() && State() == StartGameStep(old(State()), t)
      ensures forall k :: 0 <= k < |players| ==> Balanced(players[k])
    {
      gameType := Some(t);
      players := [NewPlayer("Player 1", t), NewPlayer("Player 2", t)];
      currentPlayerIndex := 0;
      currentThrowIndex := 0;
      turnEnded := false;
      StartGameBalanced(old(State()), t);
    }

    method AddThrow(dartScore: int, throwType: ThrowKind)
      requires Valid()
      modifies this
      ensures Valid() && State() == AddThrowStep(old(State()), dartScore, throwType)
    {
      if currentPlayerIndex < |players| {
        var player := players[currentPlayerIndex];
        var newThrows := player.throws;
        if currentThrowIndex >= 0 {
          newThrows := newThrows[currentThrowIndex := dartScore];
        }
        player := player.(turnScore := player.turnScore - dartScore,
                          lastThrowType := Some(throwType),
                          throws := newThrows);
        players := players[currentPlayerIndex := player];
      }
      if currentThrowIndex == 2 {
        turnEnded := true;
      } else {
        currentThrowIndex := currentThrowIndex + 1;
      }
    }

    method NextTurn()
      requires Valid() && players != []
      modifies this
      ensures Valid() && State() == NextTurnStep(old(State()))
      ensures Balanced(players[currentPlayerIndex])
    {
      previousTurn := Some(TurnSnapshot(currentPlayerIndex,
                                        players[currentPlayerIndex].throws,
                                        players[currentPlayerIndex].turnScore));
      var next := (currentPlayerIndex + 1) % |players|;
      var player := players[next];
      players := players[next := player.(turnScore := player.playerScore,
                                         throws := EmptyThrows,
                                         lastThrowType := None)];
      currentPlayerIndex := next;
      currentThrowIndex := 0;
      turnEnded := false;
    }

    method UndoTurn()
      requires Valid()
      modifies this
      ensures Valid() && State() == UndoTurnStep(old(State()))
    {
      if previousTurn == None {
        return;
      }
      var snap := previousTurn.value;
      var player := players[snap.playerIndex];
      players := players[snap.playerIndex := player.(throws := snap.throws,
                                                     turnScore := snap.turnScore)];
      currentPlayerIndex := snap.playerIndex;
      currentThrowIndex := FirstZeroIndex(snap.throws);
      turnEnded := false;
    }

    method ResetGame()
      modifies this
      ensures Valid() && State() == ResetGameStep(old(State()))
    {
      gameType := None;
      players := [];
      currentPlayerIndex := 0;
      currentThrowIndex := 0;
      turnEnded := false;
      previousTurn := None;
    }

    method UndoLastThrow()
      requires Valid()
      modifies this
      ensures Valid() && State() == UndoLastThrowStep(old(State()))
    {
      if currentPlayerIndex >= |players| {
        return;
      }
      var player := players[currentPlayerIndex];
      var lastIdx := FindLastNonZero(player.throws);
      if lastIdx == -1 {
        return;
      }
      var value := player.throws[lastIdx];
      player := player.(throws := player.throws[lastIdx := 0],
                        turnScore := player.turnScore + value,
                        lastThrowType := None);
      players := players[currentPlayerIndex := player];
      currentThrowIndex := lastIdx;
      turnEnded := false;
    }
  }

  // ---------------------------------------------------------------------
  // Properties

  /** Replacing one slot changes the sum by the difference of the two values. */
  lemma {:induction false} SumUpdate(t: seq<int>, i: int, v: int)
    requires 0 <= i < |t|
    ensures Sum(t[i := v]) == Sum(t) - t[i] + v
  {
    if i == 0 {
      assert t[i := v][1..] == t[1..];
    } else {
      SumUpdate(t[1..], i - 1, v);
      assert t[i := v][1..] == t[1..][i - 1 := v];
    }
  }

  /** A sequence whose slots are all zero sums to zero. */
  lemma {:induction false} SumAllZero(t: seq<int>)
    requires forall j :: 0 <= j < |t| ==> t[j] == 0
    ensures Sum(t) == 0
  {
    if t != [] {
      SumAllZero(t[1..]);
    }
  }

  /** `startGame` makes both players balanced. */
  lemma StartGameBalanced(st: GameState, t: int)
    requires ValidState(st)
    ensures forall k :: 0 <= k < |StartGameStep(st, t).players| ==> Balanced(StartGameStep(st, t).players[k])
  {
    SumAllZero(EmptyThrows);
  }

  /** `addThrow` keeps the current player balanced when the slot it fills was empty. */
  lemma AddThrowKeepsBalance(st: GameState, s: int, ty: ThrowKind)
    requires ValidState(st) && st.currentPlayerIndex < |st.players|
    requires 0 <= st.currentThrowIndex
    requires st.players[st.currentPlayerIndex].throws[st.currentThrowIndex] == 0
    requires Balanced(st.players[st.currentPlayerIndex])
    ensures Balanced(AddThrowStep(st, s, ty).players[st.currentPlayerIndex])
  {
    SumUpdate(st.players[st.currentPlayerIndex].throws, st.currentThrowIndex, s);
  }

  /** `undoLastThrow` keeps the current player balanced. */
  lemma UndoLastThrowKeepsBalance(st: GameState)
    requires ValidState(st) && st.currentPlayerIndex < |st.players|
    requires Balanced(st.players[st.currentPlayerIndex])
    ensures Balanced(UndoLastThrowStep(st).players[st.currentPlayerIndex])
  {
    var p := st.players[st.currentPlayerIndex];
    var k := LastNonZeroIndex(p.throws);
    if k >= 0 {
      SumUpdate(p.throws, k, 0);
    }
  }

  /** `nextTurn` hands over to a balanced player. */
  lemma NextTurnBalancesNewPlayer(st: GameState)
    requires ValidState(st) && st.players != []
    ensures Balanced(NextTurnStep(st).players[NextTurnStep(st).currentPlayerIndex])
  {
    SumAllZero(EmptyThrows);
  }

  /** `undoLastThrow` changes nothing when no slot of the current player is non-zero. */
  lemma UndoLastThrowWithoutThrows(st: GameState)
    requires ValidState(st) && st.currentPlayerIndex < |st.players|
    requires forall j :: 0 <= j < TurnLength ==> st.players[st.currentPlayerIndex].throws[j] == 0
    ensures UndoLastThrowStep(st) == st
  {
  }

  /**
   * `undoLastThrow` right after a non-zero `addThrow`, on a turn whose
   * remaining slots were empty, gives back the slots, the turn score, the
   * throw index and the end-of-turn flag; only `lastThrowType` is lost.
   */
  lemma UndoLastThrowAfterAddThrow(st: GameState, s: int, ty: ThrowKind)
    requires ValidState(st) && st.currentPlayerIndex < |st.players|
    requires 0 <= st.currentThrowIndex && !st.turnEnded && s != 0
    requires forall j :: st.currentThrowIndex <= j < TurnLength ==> st.players[st.currentPlayerIndex].throws[j] == 0
    ensures var r := UndoLastThrowStep(AddThrowStep(st, s, ty));
      r.players[st.currentPlayerIndex] == st.players[st.currentPlayerIndex].(lastThrowType := None) &&
      (forall k :: 0 <= k < |st.players| && k != st.currentPlayerIndex ==> r.players[k] == st.players[k]) &&
      r.currentThrowIndex == st.currentThrowIndex &&
      r.turnEnded == st.turnEnded &&
      r.currentPlayerIndex == st.currentPlayerIndex
  {
    var cur, i := st.currentPlayerIndex, st.currentThrowIndex;
    var t := st.players[cur].throws;
    var mid := AddThrowStep(st, s, ty);
    assert mid.players[cur].throws == t[i := s];
    var k := LastNonZeroIndex(t[i := s]);
    assert k == i;
    assert t[i := s][i := 0] == t;
  }

  /** `undoTurn` changes nothing without a snapshot. */
  lemma UndoTurnWithoutSnapshot(st: GameState)
    requires ValidState(st) && st.previousTurn == None
    ensures UndoTurnStep(st) == st
  {
  }

  /** `undoTurn` keeps its snapshot, so a second call changes nothing more. */
  lemma UndoTurnIdempotent(st: GameState)
    requires ValidState(st)
    ensures UndoTurnStep(UndoTurnStep(st)) == UndoTurnStep(st)
  {
    if st.previousTurn.Some? {
      var r := UndoTurnStep(st);
      var i := st.previousTurn.value.playerIndex;
      assert r.players[i := RestoreTurn(r.players[i], st.previousTurn.value)] == r.players;
    }
  }

  /**
   * `undoTurn` after `nextTurn` makes the earlier player current again with
   * the slots and turn score they had, waiting at their first empty slot.
   */
  lemma UndoTurnAfterNextTurn(st: GameState)
    requires ValidState(st) && st.players != []
    ensures var r := UndoTurnStep(NextTurnStep(st));
      var cur := st.currentPlayerIndex;
      r.currentPlayerIndex == cur &&
      r.players[cur].throws == st.players[cur].throws &&
      r.players[cur].turnScore == st.players[cur].turnScore &&
      r.players[cur].playerScore == st.players[cur].playerScore &&
      r.currentThrowIndex == FirstZeroIndex(st.players[cur].throws) &&
      !r.turnEnded
  {
  }

  /**
   * When the snapshot `undoTurn` restores has no empty slot, the throw index
   * becomes -1, and the next `addThrow` lowers the turn score without
   * recording the throw in any slot, so the player is no longer balanced.
   */
  lemma AddThrowAfterUndoOfFullTurn(st: GameState, s: int, ty: ThrowKind)
    requires ValidState(st) && st.previousTurn.Some?
    requires forall j :: 0 <= j < TurnLength ==> st.previousTurn.value.throws[j] != 0
    ensures var u := UndoTurnStep(st);
      var i := st.previousTurn.value.playerIndex;
      u.currentThrowIndex == -1 &&
      AddThrowStep(u, s, ty).players[i].throws == u.players[i].throws &&
      AddThrowStep(u, s, ty).players[i].turnScore == u.players[i].turnScore - s &&
      (Balanced(u.players[i]) && s != 0 ==> !Balanced(AddThrowStep(u, s, ty).players[i]))
  {
  }
}
