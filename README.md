# Backgammon board bookkeeping

A Dafny model of the board bookkeeping in `Backgammon/game.py`. The game
object keeps three things:

- 24 slots (the triangles of the board). Each slot holds a stack of pieces;
  the last one is the top.
- Two rosters of 15 pieces each, one white and one black. A piece is known by
  its colour and its roster position.
- A drag record, which remembers where a lifted piece came from.

The operations modelled are:

- `place`: put a piece on top of a slot and make it its colour's roster entry.
- The two opening setups, and `new_game`, which runs both.
- `drag_start`: lift the top piece of a slot.
- `drag_stop`: drop the lifted piece on the slot under the pointer, or back on
  its origin slot when the pointer is over none.
- `position_is_valid`: find the slot under the pointer.

The modules:

- `Records` (records.dfy): the value records `Piece`, `Slot` and `DragData`,
  and a pointer position.
- `Board` (board.dfy): the game state as a value, and every operation as a
  function on it. Both versions of `drag_start` are here: the top test the
  program writes, and the one it evidently intends.
- `Census` (census.dfy): counting the pieces on the board. This module defines
  the invariants of a board at rest (`Settled`) and of a board while a piece is
  dragged (`Dragging`).
- `Layout` (layout.dfy): what the setup loops build. Each setup is proved to
  be one deal of the 15 roster positions onto four slots. From that come the
  opening layout and the fact that it is at rest.
- `Drag` (drag.dfy): what `drag_start` and `drag_stop` do to a board at rest,
  and the round trip of the two.
- `TopTest` (toptest.dfy): the flaw in the top test of `drag_start`, with a
  board reached from the opening that exhibits it.
- `Game` (game.dfy): the class `Game`. Its fields are the slots, the two
  roster arrays and the drag record, and its methods update them in place.
  Each method is proved to leave exactly the state the matching `Board`
  function gives, so every lemma about those functions holds of the class.

The hit test `is_inside` is a parameter `inside: (Slot, Point) -> bool` of the
search and of the drop. Each claim states its own starting point:

- `Layout.Opening`, `TopTest.OpeningTops` and `TopTest.FromOpening` are about
  the opening built from the state the constructor makes.
- The setup lemmas of `Layout` start from a colour whose roster entries stand
  on no slot yet.
- The lift lemmas of `Drag` start from a board at rest; `Drag.DropEffect` and
  `Drag.DropSettles` from a board in mid-drag.
- `Drag.InvalidDropRestores` and `Drag.DropMoves` hold for any hit test whose
  search gives the stated result: no slot or the origin slot, or another slot.
- `TopTest.MoveOnto`, `TopTest.Exposed` and `TopTest.FromOpening` take a
  hit test that finds the pointer over one given slot only.
- The remaining claims hold for any hit test.

## Model

| member | source | states |
|---|---|---|
| Board.EmptySlots | Backgammon/game.py:19 | the initial slots: 24 of them, slot i at position i, none holding a piece |
| Board.FreshRoster | Backgammon/game.py:20-21 | the initial roster of a colour: 15 entries of that colour, with no roster position and no slot yet |
| Game.Game.constructor | Backgammon/game.py:19-22 | the new game object holds the initial state (empty slots, unassigned rosters, no drag), with two separate roster arrays |
| Board.Place | Backgammon/game.py:38-82 | `place` keeps the number of slots and the lengths of both rosters; its full effect is stated by `Board.PlaceEffect` |
| Board.PlaceEffect | Backgammon/game.py:38-82 | `place` puts the piece on top of slot t with its roster position, its colour and slot t recorded. That piece becomes the roster entry of its colour and position. No other slot, no other roster entry and the drag record do not change |
| Census.PlaceAddsOnePiece | Backgammon/game.py:65-82 | `place` adds exactly the placed piece to the multiset of board pieces and takes none off |
| Census.PlaceKeepsTracked | Backgammon/game.py:65-82 | when no board piece has the colour and position of the placed piece, every board piece still records its own slot and is its colour's current roster entry |
| Game.Game.Place | Backgammon/game.py:38-82 | the method changes the slots and the roster arrays exactly as `Board.Place` does |
| Board.PlaceStep | Backgammon/game.py:86-87 | one turn of a setup loop keeps the state's sizes; what it builds is stated through `Layout.GroupDeal` and `Layout.SetupEffect` |
| Board.PlaceGroup | Backgammon/game.py:85-87 | one setup loop keeps the state's sizes; `Layout.GroupDeal` states which roster positions it places and where |
| Board.Setup | Backgammon/game.py:84-99 | the four loops of a setup keep the state's sizes; `Layout.SetupEffect` states the layout they build |
| Board.SetNewWhite | Backgammon/game.py:84-99 | `set_new_white_pieces` keeps the state's sizes; its layout (slots 12, 23, 4 and 6) is stated by `Layout.Opening` |
| Board.SetNewBlack | Backgammon/game.py:101-116 | `set_new_black_pieces` keeps the state's sizes; its layout (slots 11, 0, 19 and 17) is stated by `Layout.Opening` |
| Board.NewGame | Backgammon/game.py:35-36 | `new_game` keeps the state's sizes; the opening it builds is stated by `Layout.Opening` |
| Layout.GroupDeal | Backgammon/game.py:85-87 | a loop `for i in range(lo, hi)` of a setup is the stretch lo..hi of one deal: roster position i goes onto its home slot |
| Layout.SetupIsDeal | Backgammon/game.py:84-99 | the four loops of a setup together deal roster positions 0-14, in order |
| Layout.SetupEffect | Backgammon/game.py:84-116 | a setup onto four distinct slots makes each roster entry the piece of its own position on its home slot. Each of the four slots gains its stack (2, 5, 3 and 5 pieces) on top of what it held. No other slot, not the other roster and not the drag record change |
| Layout.SetupBag | Backgammon/game.py:84-116 | a setup adds to the board exactly the 15 pieces of its colour's new roster |
| Layout.SetupTracked | Backgammon/game.py:84-116 | a setup keeps every board piece on its own slot and equal to its roster entry |
| Game.Game.PlaceRange | Backgammon/game.py:85-87 | one setup loop changes the state exactly as the matching stretch of placements does |
| Game.Game.SetNewWhitePieces | Backgammon/game.py:84-99 | the method leaves the state `Board.SetNewWhite` gives: white 0-1 onto slot 12, 2-6 onto 23, 7-9 onto 4 and 10-14 onto 6 |
| Game.Game.SetNewBlackPieces | Backgammon/game.py:101-116 | the method leaves the state `Board.SetNewBlack` gives: black 0-1 onto slot 11, 2-6 onto 0, 7-9 onto 19 and 10-14 onto 17 |
| Game.Game.NewGame | Backgammon/game.py:30-36 | the method runs the white setup, then the black one |
| Layout.Opening | Backgammon/game.py:30-36 | the opening built from a new game object lists the contents of every slot: 15 pieces per colour, 30 in all. Every roster entry records its own position and its slot. The board is at rest |
| TopTest.OpeningTops | Backgammon/game.py:101-116 | at the opening, black piece 6 is on top of slot 0 and white piece 6 on top of slot 23 |
| Board.FirstInsideFrom | Backgammon/game.py:150-152 | the search from slot i returns the least index at or after i whose slot holds the point, or -1 when none does |
| Board.FirstInside | Backgammon/game.py:149-159 | `position_is_valid` returns the least index whose slot holds the point. It returns -1 exactly when no slot does. The result lies in [-1, 24) |
| Game.Game.PositionIsValid | Backgammon/game.py:149-159 | the loop with early return gives the least index whose slot holds the point. It gives -1 exactly when no slot does |
| Board.RemoveFirst | Backgammon/game.py:121 | `list.remove` takes one occurrence of the item out of the multiset of the slot's pieces. A list without the item is left unchanged |
| Board.RemoveFirstAt | Backgammon/game.py:121 | `list.remove` takes out the first occurrence of the item and keeps the other pieces in their order |
| Board.RemoveFirstSplit | Backgammon/game.py:121 | for any item on the list there is an index i where it occurs first, and `list.remove` returns the pieces before i followed by the pieces after i |
| Board.RemoveFirstTop | Backgammon/game.py:121 | removing the top piece, when it occurs nowhere below, drops the last element of the stack |
| Census.TopOnlyOnce | Backgammon/game.py:119-121 | on a board where each piece is tracked, the top piece of a slot occurs nowhere below it |
| Board.DragStart | Backgammon/game.py:118-121 | `drag_start` (with the intended top test) never touches the rosters or the number of slots |
| Drag.DragStartEffect | Backgammon/game.py:118-121 | on a board at rest, lifting the top piece has these effects: its slot loses the last element, the board loses exactly that piece, and a drag naming the piece, its slot and the pointer begins. Lifting any other piece leaves the state unchanged |
| Drag.LiftDragging | Backgammon/game.py:118-121 | a lift from a board at rest gives a board in the dragging invariant, and the drag names the lifted piece |
| Game.Game.DragStart | Backgammon/game.py:118-121 | the method changes the slots and the drag record exactly as `Board.DragStart` does |
| Board.DragColor | Backgammon/game.py:128 | the roster `drag_stop` reads is the one of the colour the drag record holds, and black when it holds none (the `else` branch) |
| Board.DropTarget | Backgammon/game.py:124-137 | the drop goes to the slot under the pointer; to the origin slot when the search gives -1 |
| Board.DragStop | Backgammon/game.py:123-139 | `drag_stop` always resets the drag record. With no drag in progress, it leaves the slots and the rosters unchanged |
| Drag.DropEffect | Backgammon/game.py:123-139 | a drop during a drag puts the dragged roster entry, now recording the target, on top of the target slot. It becomes that roster entry. The drag record is reset |
| Drag.DropSettles | Backgammon/game.py:123-139 | a drop brings a dragging board back to rest, with exactly the dropped piece added |
| Drag.RoundTrip | Backgammon/game.py:118-139 | a lift followed by a drop, from a board at rest, gives a board at rest with 30 pieces. A lifted piece is swapped for its copy on the target slot. A click on a covered piece leaves the state unchanged |
| Census.EachPieceOnOneSlot | Backgammon/game.py:118-139 | on a board at rest there are 30 pieces. Each roster entry occurs exactly once on the slot it records and on no other slot |
| Drag.InvalidDropRestores | Backgammon/game.py:129-135 | lifting the top piece and dropping it where no slot is, or on its own slot, restores the state before the lift |
| Drag.DropMoves | Backgammon/game.py:131-137 | a drop on another slot moves the piece: the origin slot loses its last element, the target gains the piece recording the target, and no other slot changes |
| Game.Game.DragStop | Backgammon/game.py:123-139 | the method changes the slots, the rosters and the drag record exactly as `Board.DragStop` does |
| Board.DragStartAsWritten | Backgammon/game.py:118-121 | the program's `drag_start`: its top test compares roster positions only; it never touches the rosters |
| TopTest.CoveredLift | Backgammon/game.py:119 | on a board at rest, take a covered piece whose roster position equals that of its slot's top piece. The intended test leaves the state unchanged. The written test takes the covered piece out of its slot, leaves the top piece on top, and starts a drag naming the covered piece's slot, position and colour |
| TopTest.TestsAgree | Backgammon/game.py:119 | in every other case the written test does exactly what the intended one does |
| TopTest.Exposed | Backgammon/game.py:118-139 | when the tops of two slots differ in colour and share a roster position, moving one onto the other gives a board at rest on which the two tests differ: the intended test refuses the covered top, the written one lifts it from under the moved piece and starts a drag for it |
| TopTest.FromOpening | Backgammon/game.py:118-139 | from the opening, drag black piece 6 onto slot 23. White piece 6 is then covered. The intended test refuses to lift it; the written test lifts it from under black piece 6, which stays on top, and starts a drag for white piece 6 |

## Left out

- Drawing is not modelled. This covers:
  - the canvas ovals, their coordinates and colours, and the canvas handles (`index` of pieces, slots and drag records);
  - the event bindings `place` makes (`Backgammon/game.py:41-63`, `70-73`, `79-82`);
  - deleting the dragged oval in `drag_stop`.
- The sizes `new_game` computes from the window (`Backgammon/game.py:31-33`): they feed only the drawing.
- The pointer motion handler `drag` (`Backgammon/game.py:141-147`): it moves the oval and updates the drag record's coordinates, which nothing in the model reads.
- `is_inside` (`Backgammon/game.py:161-183`): it is pixel geometry of the canvas, so the model takes it as a parameter.
- `update_game`, `move`, `turn` and the other files (the window, the menu, the themes, the players): they are outside the bookkeeping modelled here. The model does not cover `new_game` re-running on each resize while the turn stays `'none'`.
- Board.EmptySlots: the program builds `24 * [Slot()]`, 24 references to one slot object with no position. The model has 24 independent slots, slot i at position i, which is what the placing code (`slot.position < 12`) needs.
- Board.FreshRoster: the program builds `15 * [Piece(...)]`, one object repeated. The model has 15 separate entries, so setting `position` on one entry changes only that entry.
- Board.RemoveFirst: `list.remove` compares pieces by identity, because `Piece` defines no equality. The model compares by value. On a board at rest the two agree: each roster entry occurs exactly once on the board (Census.EachPieceOnOneSlot).
- Board.Place, Board.PlaceStep, Board.PlaceGroup, Board.Setup, Board.SetNewWhite, Board.SetNewBlack, Board.NewGame: their own contracts state only that sizes are kept; what each builds is proved about them in the lemmas their rows name.
- Board.Place: the program raises where `position` is `None`, or where the roster index or the slot is out of range. The model makes these a precondition (`CanPlace`): the program offers no error path.
- Board.DragStart: `drag_start` raises on an empty slot or on a piece with no slot. The model makes this a precondition (`CanDragStart`): the handler is bound only to a placed piece.
- Board.DragStop: a drag record naming a slot or a roster position out of range would raise. The model makes this a precondition (`CanDragStop`), which every lift from a board at rest meets (Drag.StopReady).
- Game.Game.DragStart: the class uses the intended top test. The written test is the function Board.DragStartAsWritten, and it is compared with the intended one in module TopTest.
- The drag record's colour is the colour of the lifted piece. The string comparison `== 'white'` becomes `DragColor`: white for White, black for anything else.

## Findings

| source | as written | input that shows it | evidently intended | confidence | as-written member | corrected member |
|---|---|---|---|---|---|---|
| Backgammon/game.py:119 | the top test compares only the roster position of the slot's top piece with that of the clicked piece, and both colours use positions 0-14 | from the opening, drag black piece 6 (top of slot 0) onto slot 23, on top of white piece 6; then press white piece 6: the test passes, and white piece 6 is pulled from under black piece 6 | only the top piece of a slot can be lifted; the whole top piece is compared with the clicked piece | not executed | Board.DragStartAsWritten; TopTest.FromOpening | Board.DragStart; Drag.DragStartEffect |
