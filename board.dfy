/** The board state of a game and its operations, as functions on values.
    The class Game.Game performs the same operations in place; each of its
    methods is proved to produce exactly the state these functions give. */
module Board {
  import opened Records

  const SlotCount: nat := 24
  const RosterSize: nat := 15

  /** The 24 slots, the white and the black roster, and the drag record. */
  datatype State = State(slots: seq<Slot>, white: seq<Piece>, black: seq<Piece>, drag: DragData)

  predicate Sized(s: State)
  {
    |s.slots| == SlotCount && |s.white| == RosterSize && |s.black| == RosterSize
  }

  function Roster(s: State, c: Color): seq<Piece>
  {
    if c == White then s.white else s.black
  }

  function WithRoster(s: State, c: Color, r: seq<Piece>): (t: State)
    ensures Roster(t, c) == r && Roster(t, Other(c)) == Roster(s, Other(c))
    ensures t.slots == s.slots && t.drag == s.drag
  {
    if c == White then s.(white := r) else s.(black := r)
  }

  /** n empty slots, slot i at position i. */
  function EmptySlots(n: nat): (r: seq<Slot>)
    ensures |r| == n && forall i :: 0 <= i < n ==> r[i] == NewSlot(i)
  {
    if n == 0 then [] else EmptySlots(n - 1) + [NewSlot(n - 1)]
  }

  /** n roster entries of colour c that nothing has assigned yet. */
  function FreshRoster(c: Color, n: nat): (r: seq<Piece>)
    ensures |r| == n && forall j :: 0 <= j < n ==> r[j] == Piece(None, None, c)
  {
    if n == 0 then [] else FreshRoster(c, n - 1) + [Piece(None, None, c)]
  }

  /** The state a new game starts from. The program builds its slots as
      `24 * [Slot()]` and its rosters as `15 * [Piece(...)]`, which repeat
      one object; the model gives the evidently intended 24 independent
      empty slots, slot i at position i, and 15 separate roster entries. */
  const Initial: State :=
    State(EmptySlots(SlotCount), FreshRoster(White, RosterSize), FreshRoster(Black, RosterSize), NoDrag)

  /** The piece `place` writes: the roster position and colour of the piece
      it was given, and the slot it now stands on. */
  function Placed(piece: Piece, slot: Slot): Piece
  {
    Piece(piece.position, Some(slot.position), piece.color)
  }

  predicate CanPlace(s: State, piece: Piece, t: int)
  {
    piece.position.Some? && piece.position.value < |Roster(s, piece.color)| && 0 <= t < |s.slots|
  }

  /** `place`: the roster entry of the piece's colour and position becomes
      the placed piece, which goes on top of slot t. */
  function Place(s: State, piece: Piece, t: nat): (r: State)
    requires CanPlace(s, piece, t)
    ensures |r.slots| == |s.slots| && |r.white| == |s.white| && |r.black| == |s.black|
  {
    var placed := Placed(piece, s.slots[t]);
    var s' := WithRoster(s, piece.color, Roster(s, piece.color)[piece.position.value := placed]);
    s'.(slots := s.slots[t := s.slots[t].(pieces := s.slots[t].pieces + [placed])])
  }

  /** What `place` does: the placed piece goes on top of slot t and becomes
      the roster entry of its colour and position; no other slot, no other
      roster entry and not the drag record change. */
  lemma PlaceEffect(s: State, piece: Piece, t: nat)
    requires CanPlace(s, piece, t)
    ensures var r := Place(s, piece, t);
      r.slots[t].position == s.slots[t].position &&
      r.slots[t].pieces == s.slots[t].pieces + [Placed(piece, s.slots[t])] &&
      (forall j :: 0 <= j < |s.slots| && j != t ==> r.slots[j] == s.slots[j]) &&
      Roster(r, piece.color) == Roster(s, piece.color)[piece.position.value := Placed(piece, s.slots[t])] &&
      Roster(r, Other(piece.color)) == Roster(s, Other(piece.color)) &&
      r.drag == s.drag
  {
  }

  /** One turn of a setup loop: `roster[i].position = i` followed by
      `place(roster[i], slots[k])`. */
  function PlaceStep(s: State, c: Color, i: nat, k: nat): (r: State)
    requires Sized(s) && i < RosterSize && k < SlotCount
    ensures Sized(r)
  {
    var piece := Roster(s, c)[i].(position := Some(i));
    Place(WithRoster(s, c, Roster(s, c)[i := piece]), piece, k)
  }

  /** The loop `for i in range(lo, hi)` of a setup: pieces lo .. hi-1 of
      colour c go onto slot k, in that order. */
  function PlaceGroup(s: State, c: Color, lo: nat, hi: nat, k: nat): (r: State)
    requires Sized(s) && lo <= hi <= RosterSize && k < SlotCount
    ensures Sized(r)
    decreases hi - lo
  {
    if hi == lo then s else PlaceStep(PlaceGroup(s, c, lo, hi - 1, k), c, hi - 1, k)
  }

  /** The four loops of a setup: roster positions 0-1, 2-6, 7-9 and 10-14
      of colour c go, in that order, onto slots a, b, d and e. */
  function Setup(s: State, c: Color, a: nat, b: nat, d: nat, e: nat): (r: State)
    requires Sized(s) && a < SlotCount && b < SlotCount && d < SlotCount && e < SlotCount
    ensures Sized(r)
  {
    var s1 := PlaceGroup(s, c, 0, 2, a);
    var s2 := PlaceGroup(s1, c, 2, 7, b);
    var s3 := PlaceGroup(s2, c, 7, 10, d);
    PlaceGroup(s3, c, 10, 15, e)
  }

  /** `set_new_white_pieces`. */
  function SetNewWhite(s: State): (r: State)
    requires Sized(s)
    ensures Sized(r)
  {
    Setup(s, White, 12, 23, 4, 6)
  }

  /** `set_new_black_pieces`. */
  function SetNewBlack(s: State): (r: State)
    requires Sized(s)
    ensures Sized(r)
  {
    Setup(s, Black, 11, 0, 19, 17)
  }

  /** The board part of `new_game`: the white setup, then the black one. */
  function NewGame(s: State): (r: State)
    requires Sized(s)
    ensures Sized(r)
  {
    SetNewBlack(SetNewWhite(s))
  }

  /** The search `position_is_valid` performs, from slot i on: the first
      slot whose region holds the point, or -1. */
  function FirstInsideFrom(slots: seq<Slot>, inside: (Slot, Point) -> bool, ev: Point, i: nat): (r: int)
    requires i <= |slots|
    ensures r == -1 || i <= r < |slots|
    ensures r >= 0 ==> inside(slots[r], ev) && forall j :: i <= j < r ==> !inside(slots[j], ev)
    ensures r == -1 ==> forall j :: i <= j < |slots| ==> !inside(slots[j], ev)
    decreases |slots| - i
  {
    if i == |slots| then -1
    else if inside(slots[i], ev) then i
    else FirstInsideFrom(slots, inside, ev, i + 1)
  }

  /** `position_is_valid`: the least index whose slot holds the point, or -1
      when no slot does. The hit test `is_inside` is the parameter `inside`. */
  function FirstInside(slots: seq<Slot>, inside: (Slot, Point) -> bool, ev: Point): (r: int)
    ensures -1 <= r < |slots|
    ensures r >= 0 ==> inside(slots[r], ev) && forall j :: 0 <= j < r ==> !inside(slots[j], ev)
    ensures r == -1 <==> forall j :: 0 <= j < |slots| ==> !inside(slots[j], ev)
  {
    FirstInsideFrom(slots, inside, ev, 0)
  }

  function Last(ps: seq<Piece>): Piece
    requires ps != []
  {
    ps[|ps| - 1]
  }

  /** Python's `list.remove`: the first element equal to x is taken out; a
      list without x is left as it is (the program never asks for that). */
  function RemoveFirst(ps: seq<Piece>, x: Piece): (r: seq<Piece>)
    ensures multiset(r) == multiset(ps) - multiset{x}
    ensures x !in ps ==> r == ps
  {
    if ps == [] then []
    else if ps[0] == x then
      assert ps == [ps[0]] + ps[1..];
      ps[1..]
    else
      assert ps == [ps[0]] + ps[1..];
      [ps[0]] + RemoveFirst(ps[1..], x)
  }

  /** The first occurrence of x in ps. */
  lemma {:induction false} FirstIndex(ps: seq<Piece>, x: Piece) returns (i: nat)
    requires x in ps
    ensures i < |ps| && ps[i] == x && x !in ps[..i]
  {
    if ps[0] == x {
      i := 0;
    } else {
      assert x in ps[1..];
      var j := FirstIndex(ps[1..], x);
      i := j + 1;
      assert ps[..i] == [ps[0]] + ps[1..][..j];
    }
  }

  /** `list.remove` takes out the first occurrence of x and keeps the other
      pieces in their order. */
  lemma RemoveFirstAt(ps: seq<Piece>, x: Piece, i: nat)
    requires i < |ps| && ps[i] == x && x !in ps[..i]
    ensures RemoveFirst(ps, x) == ps[..i] + ps[i + 1..]
  {
    assert ps == ps[..i] + ([x] + ps[i + 1..]);
    RemoveAfter(ps[..i], x, ps[i + 1..]);
  }

  /** For any x on the list, `list.remove` cuts out the first occurrence. */
  lemma RemoveFirstSplit(ps: seq<Piece>, x: Piece) returns (i: nat)
    requires x in ps
    ensures i < |ps| && ps[i] == x && x !in ps[..i]
    ensures RemoveFirst(ps, x) == ps[..i] + ps[i + 1..]
  {
    i := FirstIndex(ps, x);
    RemoveFirstAt(ps, x, i);
  }

  /** Removing x from a + [x] + b, with x nowhere in a, gives a + b. */
  lemma {:induction false} RemoveAfter(a: seq<Piece>, x: Piece, b: seq<Piece>)
    requires x !in a
    ensures RemoveFirst(a + ([x] + b), x) == a + b
    decreases |a|
  {
    var ps := a + ([x] + b);
    if a == [] {
      assert ps == [x] + b;
      assert ps[1..] == b;
    } else {
      assert ps[0] == a[0] && ps[0] != x;
      assert ps[1..] == a[1..] + ([x] + b);
      RemoveAfter(a[1..], x, b);
      assert a + b == [a[0]] + (a[1..] + b);
    }
  }

  /** Removing the top piece, when it occurs nowhere below, drops the last
      element. */
  lemma {:induction false} RemoveFirstTop(ps: seq<Piece>)
    requires ps != [] && Last(ps) !in ps[..|ps| - 1]
    ensures RemoveFirst(ps, Last(ps)) == ps[..|ps| - 1]
  {
    if |ps| > 1 {
      assert ps[0] in ps[..|ps| - 1];
      assert ps[1..][..|ps| - 2] == ps[1..|ps| - 1];
      assert Last(ps[1..]) == Last(ps);
      RemoveFirstTop(ps[1..]);
      assert ps[..|ps| - 1] == [ps[0]] + ps[1..|ps| - 1];
    }
  }

  predicate CanDragStart(s: State, item: Piece)
  {
    item.slot.Some? && item.slot.value < |s.slots| && s.slots[item.slot.value].pieces != []
  }

  /** `drag_start` with the top test it evidently intends: only the piece on
      top of its slot may be lifted. The lifted piece leaves the slot and the
      drag record remembers where it came from; any other piece leaves the
      state as it was. */
  function DragStart(s: State, item: Piece, ev: Point): (r: State)
    requires CanDragStart(s, item)
    ensures |r.slots| == |s.slots| && r.white == s.white && r.black == s.black
  {
    var k := item.slot.value;
    var ps := s.slots[k].pieces;
    if Last(ps) == item then
      s.(drag := DragData(item.slot, item.position, Some(item.color), ev.x, ev.y),
         slots := s.slots[k := s.slots[k].(pieces := RemoveFirst(ps, item))])
    else s
  }

  /** `drag_start` as the program writes it: the top piece is compared with
      the item by roster position alone, so a covered piece whose roster
      position equals the top piece's passes the test. */
  function DragStartAsWritten(s: State, item: Piece, ev: Point): (r: State)
    requires CanDragStart(s, item)
    ensures |r.slots| == |s.slots| && r.white == s.white && r.black == s.black
  {
    var k := item.slot.value;
    var ps := s.slots[k].pieces;
    if Last(ps).position == item.position then
      s.(drag := DragData(item.slot, item.position, Some(item.color), ev.x, ev.y),
         slots := s.slots[k := s.slots[k].(pieces := RemoveFirst(ps, item))])
    else s
  }

  /** The roster `drag_stop` takes the piece from: white for 'white', black
      for anything else. */
  function DragColor(d: DragData): (c: Color)
    ensures d.color.Some? ==> c == d.color.value
    ensures d.color.None? ==> c == Black
  {
    if d.color == Some(White) then White
    else
      assert d.color.Some? ==> d.color.value != White;
      Black
  }

  predicate CanDragStop(s: State)
  {
    Sized(s) &&
    (s.drag.fromPosition.Some? ==>
       s.drag.fromPosition.value < RosterSize && s.drag.fromSlot.Some? && s.drag.fromSlot.value < SlotCount &&
       var x := Roster(s, DragColor(s.drag))[s.drag.fromPosition.value];
       x.position.Some? && x.position.value < RosterSize)
  }

  /** The slot a drop lands on: the slot under the pointer, or the origin
      slot when the pointer is over none. */
  function DropTarget(s: State, inside: (Slot, Point) -> bool, ev: Point): (t: nat)
    requires CanDragStop(s) && s.drag.fromPosition.Some?
    ensures t < SlotCount
    ensures FirstInside(s.slots, inside, ev) == -1 ==> t == s.drag.fromSlot.value
    ensures FirstInside(s.slots, inside, ev) != -1 ==> t == FirstInside(s.slots, inside, ev)
  {
    var to := FirstInside(s.slots, inside, ev);
    if to == -1 then s.drag.fromSlot.value else to
  }

  /** `drag_stop`: while a drag is in progress the dragged piece's roster
      entry is placed on the drop target; either way the drag record is
      reset. */
  function DragStop(s: State, inside: (Slot, Point) -> bool, ev: Point): (r: State)
    requires CanDragStop(s)
    ensures Sized(r) && r.drag == NoDrag
    ensures s.drag.fromPosition.None? ==> r.slots == s.slots && r.white == s.white && r.black == s.black
  {
    if s.drag.fromPosition.None? then s.(drag := NoDrag)
    else
      var piece := Roster(s, DragColor(s.drag))[s.drag.fromPosition.value];
      Place(s, piece, DropTarget(s, inside, ev)).(drag := NoDrag)
  }
}
