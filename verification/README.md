# Dartrack turn engine in Dafny

This project models the scoring core of Dartrack, a 301/501 dart scorer. It has two parts.

- **The game provider** (`src/context/GameContext.jsx`) holds six state cells: `gameType`, `players`, `currentPlayerIndex`, `currentThrowIndex`, `turnEnded` and `previousTurn`. It changes them through six operations: `startGame`, `addThrow`, `nextTurn`, `undoTurn`, `resetGame` and `undoLastThrow`. In `game_context.dfy` the class `GameContext.GameProvider` keeps these cells as mutable fields. Each method updates the fields one after another, as the source's setters do. Each method is proved to yield exactly the state given by a pure function on `GameState` (`StartGameStep`, `AddThrowStep`, ...). The engine's properties are lemmas about those functions: the score balance, undoing a throw, and undoing a turn.
- **The keypad's value resolution** (`src/components/ButtonGrid.jsx`) is in `button_grid.dfy`. It is a set of pure functions from a pressed key, popup child or release point to the call made on the engine. It also covers the dartboard colouring of the multiplier popup.

The model follows the code as written:
- A throw is a plain integer score in a three-slot sequence.
- No operation detects busts or finishes, or declares a winner.
- Only `startGame` writes `playerScore`.
- `addThrow` does not snapshot anything. Only `nextTurn` sets a snapshot in `previousTurn`, and only `resetGame` clears it.
- `undoTurn` can leave `currentThrowIndex` at -1. A later `addThrow` then lowers the turn score without recording the throw in any slot.

Other components expect more than the provider offers. `src/components/EndTurnModal.jsx`, `src/components/WinnerModal.jsx` and `src/pages/Home.jsx` call bust, winner and resume functions that the provider never defines. The darts rules exist only as prose in `src/pages/RuleBook.jsx`. The model covers only what the provider defines.

Each operation is one atomic step. The player records and their throw slots are values. The source does share a throws array by reference: `nextTurn` puts the same array into the snapshot and the player, and `undoTurn` puts it back. Value semantics is still sound, because the only writers of the slots copy the array before writing: `addThrow` and `undoLastThrow` both do.

## Model

| member | source | states |
|---|---|---|
| GameContext.LastNonZeroIndex | src/context/GameContext.jsx:111-120 | the slot found is the highest one holding a non-zero score, and every later slot is zero; -1 means every slot is zero |
| GameContext.FindLastNonZero | src/context/GameContext.jsx:112-118 | the backward scan with early exit finds the highest non-zero slot (or -1 when all are zero), i.e. exactly `LastNonZeroIndex` |
| GameContext.FirstZeroIndex | src/context/GameContext.jsx:90 | `findIndex(t => t === 0)`: the slot found holds zero and every earlier slot is non-zero; -1 means no slot is zero |
| GameContext.NewPlayer | src/context/GameContext.jsx:25-26 | a new player has the given name, player score and turn score equal to the start value, no last throw type, and three zero slots |
| GameContext.RecordThrow | src/context/GameContext.jsx:36-45 | a throw writes its score into the current slot and leaves the other slots alone; it lowers the turn score by the score and sets the last throw type; name and player score are kept; a slot of -1 changes no slot |
| GameContext.ResetForTurn | src/context/GameContext.jsx:69-70 | the player who is about to throw is balanced, with turn score equal to player score, empty slots and no last throw type |
| GameContext.RestoreTurn | src/context/GameContext.jsx:84-85 | the snapshot's slots and turn score come back; name, player score and last throw type are kept |
| GameContext.ClearSlot | src/context/GameContext.jsx:122-125 | the cleared slot becomes zero, its value goes back into the turn score, and the last throw type is cleared |
| GameContext.InitialState | src/context/GameContext.jsx:15-20 | the initial cells: no game type, no players, no snapshot, both indices 0, turn not ended |
| GameContext.StartGameStep | src/context/GameContext.jsx:22-31 | exactly two players named "Player 1" and "Player 2" start at the given score; both indices become 0 and `turnEnded` false; `previousTurn` is untouched |
| GameContext.AddThrowStep | src/context/GameContext.jsx:33-58 | the current player records the throw as `RecordThrow` says (slot gets the score, turn score drops by it, type set); every other player is unchanged; the throw index advances below 2 and stays at 2, where the turn ends; an index in [0,2] stays in [0,2]; the current player index, game type and snapshot are kept |
| GameContext.NextTurnStep | src/context/GameContext.jsx:60-78 | the snapshot records the current player's index, slots and turn score; the next player modulo the player count is reset for a turn and becomes current; every other player, including the previous one, is unchanged; the throw index is 0 and the turn is open |
| GameContext.UndoTurnStep | src/context/GameContext.jsx:80-92 | without a snapshot nothing changes; otherwise the snapshotted player gets their slots and turn score back and becomes current, the throw index goes to the first zero slot or -1, the turn is open, the snapshot stays, and other players are unchanged |
| GameContext.ResetGameStep | src/context/GameContext.jsx:94-101 | every cell, the snapshot included, returns to its initial value |
| GameContext.UndoLastThrowStep | src/context/GameContext.jsx:104-133 | with no current player, or all slots zero, nothing changes; otherwise the highest non-zero slot is cleared and its value goes back into the turn score; the last throw type is cleared, the throw index moves to that slot and the turn reopens; other players are unchanged |
| GameContext.GameProvider.constructor | src/context/GameContext.jsx:14-20 | a new provider holds the initial cells |
| GameContext.GameProvider.StartGame | src/context/GameContext.jsx:22-31 | assigns the cells as `StartGameStep` says, keeps the invariant, and leaves both players balanced |
| GameContext.GameProvider.AddThrow | src/context/GameContext.jsx:33-58 | updates the current player and the throw index in place, as `AddThrowStep` says |
| GameContext.GameProvider.NextTurn | src/context/GameContext.jsx:60-78 | snapshots the turn, resets the next player and advances, as `NextTurnStep` says; the new current player is balanced |
| GameContext.GameProvider.UndoTurn | src/context/GameContext.jsx:80-92 | restores the snapshotted turn in place, as `UndoTurnStep` says |
| GameContext.GameProvider.ResetGame | src/context/GameContext.jsx:94-101 | clears every cell, as `ResetGameStep` says |
| GameContext.GameProvider.UndoLastThrow | src/context/GameContext.jsx:104-133 | scans the current player's slots and clears the last non-zero one in place, as `UndoLastThrowStep` says |
| GameContext.StartGameBalanced | src/context/GameContext.jsx:25-26 | after `startGame` both players have turn score plus recorded throws equal to player score |
| GameContext.AddThrowKeepsBalance | src/context/GameContext.jsx:37-42 | `addThrow` keeps the current player balanced when the slot it fills held zero |
| GameContext.UndoLastThrowKeepsBalance | src/context/GameContext.jsx:122-124 | `undoLastThrow` keeps the current player balanced |
| GameContext.NextTurnBalancesNewPlayer | src/context/GameContext.jsx:69-70 | `nextTurn` hands over to a balanced player |
| GameContext.UndoLastThrowWithoutThrows | src/context/GameContext.jsx:112-120 | with every slot zero, `undoLastThrow` changes nothing; the throw index and `turnEnded` are kept too |
| GameContext.UndoLastThrowAfterAddThrow | src/context/GameContext.jsx:104-133 | a non-zero `addThrow` into an open turn whose remaining slots are empty, followed by `undoLastThrow`, restores slots, turn score, throw index, `turnEnded` and all other players; only `lastThrowType` is lost |
| GameContext.UndoTurnWithoutSnapshot | src/context/GameContext.jsx:81 | `undoTurn` without a snapshot changes nothing |
| GameContext.UndoTurnIdempotent | src/context/GameContext.jsx:80-92 | the snapshot is not cleared, so `undoTurn` twice equals `undoTurn` once |
| GameContext.UndoTurnAfterNextTurn | src/context/GameContext.jsx:60-92 | `undoTurn` right after `nextTurn` makes the earlier player current again, with their slots, turn score and player score, at their first empty slot, with the turn open |
| GameContext.AddThrowAfterUndoOfFullTurn | src/context/GameContext.jsx:37-42 | after `undoTurn` restores three non-zero slots the throw index is -1; the next `addThrow` lowers the turn score but records nothing, so a balanced player becomes unbalanced |
| ButtonGrid.IndexOf | src/components/ButtonGrid.jsx:31 | `indexOf` returns the first position holding the number, or -1 when it is absent |
| ButtonGrid.PopupMultiplier | src/components/ButtonGrid.jsx:175-178 | popup child 0 is multiplier 3 and child 1 is multiplier 2; any other index gives none |
| ButtonGrid.QuickTapRelease | src/components/ButtonGrid.jsx:132-136 | a quick tap records a single of the face's own value exactly when the button is a number, and never undoes |
| ButtonGrid.KeyDown | src/components/ButtonGrid.jsx:233-240 | Enter or Space, and no other key, records a single of the face's value |
| ButtonGrid.PopupRelease | src/components/ButtonGrid.jsx:182-195 | over multiplier 2 it records face times 2 as a double; over 3, face times 3 as a triple; with nothing hovered it records a single exactly when the release is inside the anchor rectangle, edges included, and nothing otherwise |
| ButtonGrid.SpecialClick | src/components/ButtonGrid.jsx:262-277 | MISS gives (0, MISS), BULL (25, BULL), CHERRY (50, CHERRY), BUST ("BUST", BUST), and UNDO, alone, calls `undoLastThrow` |
| ButtonGrid.SpecialKindsOnlyFromSpecialKeys | src/components/ButtonGrid.jsx:132-194 | no tap, key press or popup release on a numbered face produces MISS, BULL, CHERRY or BUST |
| ButtonGrid.FacesAreOneToTwenty | src/components/ButtonGrid.jsx:243 | the numbered faces are exactly 1 to 20 |
| ButtonGrid.DartboardOrderIsPermutationOfFaces | src/components/ButtonGrid.jsx:29 | the dartboard order has 20 distinct entries, and they are exactly the faces |
| ButtonGrid.MultiplierColour | src/components/ButtonGrid.jsx:30-33 | the popup colour follows the parity of the face's position in the dartboard order; a number absent from the order (position -1) is green |
| ButtonGrid.InsideIsInclusive | src/components/ButtonGrid.jsx:192 | the anchor test of a release counts every edge of the rectangle as inside, and any point beyond an edge as outside |
| ButtonGrid.ColourAlternates | src/components/ButtonGrid.jsx:29-33 | a face at an even position of the dartboard order is red and one at an odd position is green |
| ButtonGrid.ReleaseOverPopupChild | src/components/ButtonGrid.jsx:175-188 | releasing over popup child 0 records the triple of the face, and over child 1 the double |

## Left out

- Bust and finish detection, `winner`, `isBust`, `showEndTurnModal`, `confirmEndTurn`, `undoBust`, `updateThrowForCurrentPlayer`, `updatePlayerName`, `resumeGame`, `clearWinner`: other components call them, but the provider never defines them, so there is no behaviour to model. The darts rules exist only as prose on the rule-book page.
- The `"BUST"` string as a score: the BUST key's call is modelled (`BustToken`), but the engine takes integer scores only. In the source, `turnScore - "BUST"` makes the turn score NaN. Floating-point NaN is not modelled.
- React semantics: setter batching, stale closures, setters called inside updater functions, and StrictMode's double invocation of updaters. Each operation is one atomic step over the six cells.
- Keypad gestures: hold timers, pointer identity, the 300 ms click suppression, document listeners, and the `turnEnded` guard on a press. These are timing and event plumbing. Their decisions become the choice of which resolution function applies.
- Popup placement: it uses DOM measurements and window size in floating-point pixels.
- Saving and resuming through local storage, pages, modals, routing and fullscreen calls: these are I/O and presentation.
- GameContext.ValidState: the provider's invariant restricts the players to none or two, because only `startGame` and `resetGame` change the player count. It also keeps the throw index in [-1, 2]. The step functions require it, so states the provider cannot reach (a throw index of 3 or more, which would make JavaScript grow the throws array) are not modelled.
- GameContext.NextTurnStep: requires at least one player and a current index in range. With no players the source reads a property of `undefined` and throws; the model does not cover that exception.
