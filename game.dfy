/** The game object: the 24 slots, the white and the black roster and the
    drag record, updated in place. Each method is proved to leave exactly
    the state the function of the same name in module Board gives; the
    properties of those functions are proved in modules Census, Layout,
    Drag and TopTest. */
module Game {
  import opened Records
  import opened Board

  class Game {
    var slots: seq<Slot>
    const whitePieces: array<Piece>
    const blackPieces: array<Piece>
    var dragData: DragData

    /** The two rosters are separate arrays of 15 entries; there are 24
        slots. */
    ghost predicate Valid()
      reads this, whitePieces, blackPieces
    {
      whitePieces != blackPieces && Sized(Abs())
    }

    /** The state as a value. */
    function Abs(): State
      reads this, whitePieces, blackPieces
    {
      State(slots, whitePieces[..], blackPieces[..], dragData)
    }

    /** The roster array of colour c. */
    function PiecesOf(c: Color): (a: array<Piece>)
      ensures a == (if c == White then whitePieces else blackPieces)
    {
      if c == White then whitePieces else blackPieces
    }

    /** `__init__`: empty slots, unassigned roster entries, no drag. */
    constructor ()
      ensures Valid() && Abs() == Initial
      ensures fresh(whitePieces) && fresh(blackPieces)
    {
      slots := EmptySlots(SlotCount);
      whitePieces := new Piece[RosterSize](_ => Piece(None, None, White));
      blackPieces := new Piece[RosterSize](_ => Piece(None, None, Black));
      dragData := NoDrag;
      new;
      assert whitePieces[..] == FreshRoster(White, RosterSize);
      assert blackPieces[..] == FreshRoster(Black, RosterSize);
    }

    /** `place(piece, slots[t])`. */
    method Place(piece: Piece, t: nat)
      requires Valid() && CanPlace(Abs(), piece, t)
      modifies this, whitePieces, blackPieces
      ensures Valid() && Abs() == Board.Place(old(Abs()), piece, t)
    {
      var placed := Placed(piece, slots[t]);
      var a := PiecesOf(piece.color);
      a[piece.position.value] := placed;
      slots := slots[t := slots[t].(pieces := slots[t].pieces + [placed])];
    }

    /** One loop of a setup, `for i in range(lo, hi)`: roster entry i of
        colour c gets position i and is placed on slot k. */
    method PlaceRange(c: Color, lo: nat, hi: nat, k: nat)
      requires Valid() && lo <= hi <= RosterSize && k < SlotCount
      modifies this, whitePieces, blackPieces
      ensures Valid() && Abs() == PlaceGroup(old(Abs()), c, lo, hi, k)
    {
      var a := PiecesOf(c);
      for i := lo to hi
        invariant Valid() && Abs() == PlaceGroup(old(Abs()), c, lo, i, k)
      {
        a[i] := a[i].(position := Some(i));
        Place(a[i], k);
      }
    }

    /** `set_new_white_pieces`. */
    method SetNewWhitePieces()
      requires Valid()
      modifies this, whitePieces, blackPieces
      ensures Valid() && Abs() == SetNewWhite(old(Abs()))
    {
      PlaceRange(White, 0, 2, 12);
      PlaceRange(White, 2, 7, 23);
      PlaceRange(White, 7, 10, 4);
      PlaceRange(White, 10, 15, 6);
    }

    /** `set_new_black_pieces`. */
    method SetNewBlackPieces()
      requires Valid()
      modifies this, whitePieces, blackPieces
      ensures Valid() && Abs() == SetNewBlack(old(Abs()))
    {
      PlaceRange(Black, 0, 2, 11);
      PlaceRange(Black, 2, 7, 0);
      PlaceRange(Black, 7, 10, 19);
      PlaceRange(Black, 10, 15, 17);
    }

    /** The board part of `new_game`. */
    method NewGame()
      requires Valid()
      modifies this, whitePieces, blackPieces
      ensures Valid() && Abs() == Board.NewGame(old(Abs()))
    {
      SetNewWhitePieces();
      SetNewBlackPieces();
    }

    /** `drag_start(event, item)`, with the intended top test. */
    method DragStart(ev: Point, item: Piece)
      requires Valid() && CanDragStart(Abs(), item)
      modifies this
      ensures Valid() && Abs() == Board.DragStart(old(Abs()), item, ev)
    {
      ghost var s := Abs();
      var k := item.slot.value;
      var ps := slots[k].pieces;
      if Last(ps) == item {
        dragData := DragData(item.slot, item.position, Some(item.color), ev.x, ev.y);
        slots := slots[k := slots[k].(pieces := RemoveFirst(ps, item))];
        assert Abs() == s.(drag := dragData, slots := slots);
      }
    }

    /** `position_is_valid(event)`: the index of the first slot whose region
        holds the point, or -1. */
    method PositionIsValid(inside: (Slot, Point) -> bool, ev: Point) returns (r: int)
      ensures -1 <= r < |slots|
      ensures r >= 0 ==> inside(slots[r], ev) && forall j :: 0 <= j < r ==> !inside(slots[j], ev)
      ensures r == -1 <==> forall j :: 0 <= j < |slots| ==> !inside(slots[j], ev)
      ensures r == FirstInside(slots, inside, ev)
    {
      for i := 0 to |slots|
        invariant forall j :: 0 <= j < i ==> !inside(slots[j], ev)
      {
        if inside(slots[i], ev) {
          return i;
        }
      }
      return -1;
    }

    /** `drag_stop(event)`: a dragged piece goes onto the slot under the
        pointer, or back to its origin slot when there is none; the drag
        record is reset. */
    method DragStop(inside: (Slot, Point) -> bool, ev: Point)
      requires Valid() && CanDragStop(Abs())
      modifies this, whitePieces, blackPieces
      ensures Valid() && Abs() == Board.DragStop(old(Abs()), inside, ev)
    {
      if dragData.fromPosition.Some? {
        var to := PositionIsValid(inside, ev);
        var a := PiecesOf(DragColor(dragData));
        var piece := a[dragData.fromPosition.value];
        if to == -1 {
          Place(piece, dragData.fromSlot.value);
        } else {
          Place(piece, to);
        }
      }
      dragData := NoDrag;
    }
  }
}
