/** Picking a piece up and dropping it: what `drag_start` and `drag_stop`
    do to a board at rest, and the round trip of the two. */
module Drag {
  import opened Records
  import opened Board
  import opened Census

  /** The piece a drag in progress names: the roster entry of the drag's
      colour and roster position. */
  function Dragged(s: State): Piece
    requires Dragging(s)
  {
    Roster(s, s.drag.color.value)[s.drag.fromPosition.value]
  }

  /** A piece standing on the board of a board at rest records its slot and
      is its colour's roster entry. */
  lemma OnBoard(s: State, item: Piece) returns (k: nat)
    requires Settled(s) && item in Bag(s)
    ensures item.slot == Some(k) && k < SlotCount && item in s.slots[k].pieces
    ensures item.position.Some? && item.position.value < RosterSize && Roster(s, item.color)[item.position.value] == item
  {
    k := PiecesMember(s.slots, item);
    var j :| 0 <= j < |s.slots[k].pieces| && s.slots[k].pieces[j] == item;
    assert Tracked(s, k, s.slots[k].pieces[j]);
  }

  /** Lifting the top piece of its slot leaves the slot without its last
      element and changes no other slot. */
  lemma LiftSlots(s: State, item: Piece, ev: Point)
    requires Tracking(s) && CanDragStart(s, item)
    requires Last(s.slots[item.slot.value].pieces) == item
    ensures var k, ps := item.slot.value, s.slots[item.slot.value].pieces;
      var r := DragStart(s, item, ev);
      r.slots == s.slots[k := Slot(s.slots[k].position, ps[..|ps| - 1])] &&
      r.white == s.white && r.black == s.black &&
      r.drag == DragData(item.slot, item.position, Some(item.color), ev.x, ev.y)
  {
    TopOnlyOnce(s, item.slot.value);
    RemoveFirstTop(s.slots[item.slot.value].pieces);
  }

  /** Taking x out of the pieces m + {x} of one slot takes x off the board. */
  lemma TakeOut(a: multiset<Piece>, b: multiset<Piece>, m: multiset<Piece>, x: Piece)
    requires a + m == b + (m + multiset{x})
    ensures b == a - multiset{x}
  {
    assert (b + multiset{x}) + m == a + m;
    Cancel(b + multiset{x}, a, m);
  }

  /** Removing the last piece x of slot k takes x off the board. */
  lemma TrimBag(slots: seq<Slot>, k: nat, rest: seq<Piece>, x: Piece)
    requires k < |slots| && slots[k].pieces == rest + [x]
    ensures Pieces(slots[k := Slot(slots[k].position, rest)]) == Pieces(slots) - multiset{x}
  {
    PiecesUpdate(slots, k, Slot(slots[k].position, rest));
    assert multiset(slots[k].pieces) == multiset(rest) + multiset{x};
    TakeOut(Pieces(slots), Pieces(slots[k := Slot(slots[k].position, rest)]), multiset(rest), x);
  }

  /** Taking pieces off the top of slot k, with the rosters unchanged,
      keeps every board piece tracked. */
  lemma TrimTracked(s: State, r: State, k: nat, n: nat)
    requires OnOwnSlot(s) && k < |s.slots| && n <= |s.slots[k].pieces|
    requires r.white == s.white && r.black == s.black
    requires r.slots == s.slots[k := Slot(s.slots[k].position, s.slots[k].pieces[..n])]
    ensures OnOwnSlot(r)
  {
    forall i, j | 0 <= i < |r.slots| && 0 <= j < |r.slots[i].pieces|
      ensures Tracked(r, i, r.slots[i].pieces[j])
    {
      assert r.slots[i].pieces[j] == s.slots[i].pieces[j];
      assert Tracked(s, i, s.slots[i].pieces[j]);
    }
  }

  /** Rosters that do not change keep every entry at its own position on a
      slot. */
  lemma SameRosters(s: State, r: State)
    requires Sized(s) && RosterPlaced(s) && |r.slots| == |s.slots| && r.white == s.white && r.black == s.black
    ensures RosterPlaced(r)
  {
    forall c: Color, p: nat | p < RosterSize
      ensures RosterEntry(r, c, p) && Roster(r, c)[p].slot.Some? && Roster(r, c)[p].slot.value < SlotCount
    {
      assert Roster(r, c) == Roster(s, c);
      assert RosterEntry(s, c, p);
    }
  }

  /** The board a lift leaves, from a board at rest: the board without the
      lifted piece, every piece still tracked. */
  lemma LiftedBoard(s: State, r: State, item: Piece)
    requires Settled(s) && CanDragStart(s, item)
    requires Last(s.slots[item.slot.value].pieces) == item
    requires var k, ps := item.slot.value, s.slots[item.slot.value].pieces;
      r.slots == s.slots[k := Slot(s.slots[k].position, ps[..|ps| - 1])] &&
      r.white == s.white && r.black == s.black
    ensures Shape(r) && RosterPlaced(r) && OnOwnSlot(r)
    ensures item in Bag(s) && Bag(r) == Bag(s) - multiset{item}
  {
    var k, ps := item.slot.value, s.slots[item.slot.value].pieces;
    var rest := ps[..|ps| - 1];
    assert ps == rest + [item];
    TrimBag(s.slots, k, rest, item);
    TrimTracked(s, r, k, |ps| - 1);
    SameRosters(s, r);
    assert Shape(r);
    PiecesContain(s.slots, k);
    assert item in multiset(ps);
  }

  /** The state a lift leaves, from a board at rest: a drag that names the
      lifted piece and its slot, and the board without that piece. */
  lemma Lifted(s: State, r: State, item: Piece, ev: Point)
    requires Settled(s) && CanDragStart(s, item)
    requires Last(s.slots[item.slot.value].pieces) == item
    requires var k, ps := item.slot.value, s.slots[item.slot.value].pieces;
      r.slots == s.slots[k := Slot(s.slots[k].position, ps[..|ps| - 1])] &&
      r.white == s.white && r.black == s.black &&
      r.drag == DragData(item.slot, item.position, Some(item.color), ev.x, ev.y)
    ensures Dragging(r) && Dragged(r) == item && Bag(r) == Bag(s) - multiset{item}
  {
    var k, ps := item.slot.value, s.slots[item.slot.value].pieces;
    assert Tracked(s, k, ps[|ps| - 1]);
    LiftedBoard(s, r, item);
    assert Bag(r) + multiset{item} == Bag(s);
  }

  /** Lifting from a board at rest the top piece of its slot starts a drag
      that names the piece, and takes exactly that piece off the board. */
  lemma LiftDragging(s: State, item: Piece, ev: Point)
    requires Settled(s) && CanDragStart(s, item)
    requires Last(s.slots[item.slot.value].pieces) == item
    ensures var r := DragStart(s, item, ev);
      Dragging(r) && Dragged(r) == item && Bag(r) == Bag(s) - multiset{item}
  {
    LiftSlots(s, item, ev);
    Lifted(s, DragStart(s, item, ev), item, ev);
  }

  /** `drag_start` on a board at rest: the top piece of its slot is lifted
      (the slot loses its last element, the board loses that piece, and a
      drag naming the piece and its slot begins); any other piece of the
      board leaves the state as it was. */
  lemma DragStartEffect(s: State, item: Piece, ev: Point)
    requires Settled(s) && item in Bag(s)
    ensures CanDragStart(s, item)
    ensures var k, ps := item.slot.value, s.slots[item.slot.value].pieces;
      var r := DragStart(s, item, ev);
      (Last(ps) == item ==>
         r.slots == s.slots[k := Slot(k, ps[..|ps| - 1])] && Bag(r) == Bag(s) - multiset{item} &&
         r.drag == DragData(item.slot, item.position, Some(item.color), ev.x, ev.y) &&
         Dragging(r) && Dragged(r) == item) &&
      (Last(ps) != item ==> r == s)
  {
    var k := OnBoard(s, item);
    if Last(s.slots[k].pieces) == item {
      LiftSlots(s, item, ev);
      LiftDragging(s, item, ev);
    }
  }

  /** The piece a drag names is off the board. */
  lemma DraggedOff(s: State)
    requires Dragging(s)
    ensures Dragged(s) !in Bag(s)
  {
    var x := Dragged(s);
    RosterOnce(s, s.drag.color.value, s.drag.fromPosition.value);
    assert Bag(s)[x] + multiset{x}[x] == RosterBag(s)[x];
  }

  /** While dragging, `drag_stop` may run, and the roster entry it places is
      the dragged piece. */
  lemma DropReady(s: State)
    requires Dragging(s)
    ensures CanDragStop(s) && s.drag.fromPosition.Some?
    ensures Roster(s, DragColor(s.drag))[s.drag.fromPosition.value] == Dragged(s)
  {
    var c, p := s.drag.color.value, s.drag.fromPosition.value;
    assert RosterEntry(s, c, p) && Roster(s, c)[p].slot.Some?;
  }

  /** Dropping puts the dragged piece, now recording the drop target, on
      top of the target slot and back into its roster; nothing else
      changes and the drag record is reset. */
  lemma DropEffect(s: State, inside: (Slot, Point) -> bool, ev: Point)
    requires Dragging(s)
    ensures CanDragStop(s) && s.drag.fromPosition.Some?
    ensures var t := DropTarget(s, inside, ev);
      var x := Dragged(s);
      var y := Piece(x.position, Some(t), x.color);
      var r := DragStop(s, inside, ev);
      r.slots == s.slots[t := Slot(t, s.slots[t].pieces + [y])] &&
      Roster(r, x.color) == Roster(s, x.color)[x.position.value := y] &&
      Roster(r, Other(x.color)) == Roster(s, Other(x.color)) &&
      r.drag == NoDrag
  {
    DropReady(s);
    var t := DropTarget(s, inside, ev);
    var x := Dragged(s);
    assert RosterEntry(s, s.drag.color.value, s.drag.fromPosition.value);
    PlaceEffect(s, x, t);
    var r := Place(s, x, t);
    assert r.slots == s.slots[t := r.slots[t]];
  }

  /** Dropping a dragged piece brings the board back to rest; the board
      gains exactly the dropped piece. */
  lemma DropSettles(s: State, inside: (Slot, Point) -> bool, ev: Point)
    requires Dragging(s)
    ensures CanDragStop(s) && s.drag.fromPosition.Some?
    ensures var x := Dragged(s);
      var r := DragStop(s, inside, ev);
      Settled(r) && Bag(r) == Bag(s) + multiset{Piece(x.position, Some(DropTarget(s, inside, ev)), x.color)}
  {
    DropReady(s);
    DropEffect(s, inside, ev);
    var t := DropTarget(s, inside, ev);
    var x := Dragged(s);
    var c, p := x.color, x.position.value;
    var y := Piece(x.position, Some(t), c);
    var r := DragStop(s, inside, ev);
    assert RosterEntry(s, s.drag.color.value, s.drag.fromPosition.value);
    DraggedOff(s);
    AbsentEntry(s, c, p);
    PlaceKeepsTracked(s, x, t);
    PlaceAddsOnePiece(s, x, t);
    DropRoster(s, r, c, p, y);
  }

  /** Writing the dropped piece over the dragged roster entry keeps every
      entry at its own position on a slot, and the roster entries become
      the board's pieces. */
  lemma DropRoster(s: State, r: State, c: Color, p: nat, y: Piece)
    requires Dragging(s) && Sized(r) && p < RosterSize
    requires c == s.drag.color.value && p == s.drag.fromPosition.value
    requires y.position == Some(p) && y.color == c && y.slot.Some? && y.slot.value < SlotCount
    requires Roster(r, c) == Roster(s, c)[p := y] && Roster(r, Other(c)) == Roster(s, Other(c))
    requires Bag(r) == Bag(s) + multiset{y}
    ensures RosterPlaced(r) && Bag(r) == RosterBag(r)
  {
    SwapPlaced(s, r, c, p, y);
    SwapBag(s, r, c, p, y);
    var x := Roster(s, c)[p];
    assert RosterBag(s) == Bag(s) + multiset{x};
  }

  /** Writing over roster entry p of colour c an entry of that colour and
      position that records a slot keeps every entry placed. */
  lemma SwapPlaced(s: State, r: State, c: Color, p: nat, y: Piece)
    requires Sized(s) && RosterPlaced(s) && Sized(r) && p < RosterSize
    requires y.position == Some(p) && y.color == c && y.slot.Some? && y.slot.value < SlotCount
    requires Roster(r, c) == Roster(s, c)[p := y] && Roster(r, Other(c)) == Roster(s, Other(c))
    ensures RosterPlaced(r)
  {
    forall c': Color, p': nat | p' < RosterSize
      ensures RosterEntry(r, c', p') && Roster(r, c')[p'].slot.Some? && Roster(r, c')[p'].slot.value < SlotCount
    {
      assert RosterEntry(s, c', p') && Roster(s, c')[p'].slot.Some?;
      if c' != c {
        assert c' == Other(c);
      }
    }
  }

  /** Writing y over roster entry p of colour c trades that entry for y in
      the rosters. */
  lemma SwapBag(s: State, r: State, c: Color, p: nat, y: Piece)
    requires p < |Roster(s, c)|
    requires Roster(r, c) == Roster(s, c)[p := y] && Roster(r, Other(c)) == Roster(s, Other(c))
    ensures RosterBag(r) == RosterBag(s) - multiset{Roster(s, c)[p]} + multiset{y}
  {
    var x := Roster(s, c)[p];
    assert multiset(Roster(r, c)) == multiset(Roster(s, c)) - multiset{x} + multiset{y};
    assert x in multiset(Roster(s, c));
    if c == White {
      assert RosterBag(r) == multiset(Roster(r, c)) + multiset(Roster(s, Other(c)));
    } else {
      assert RosterBag(r) == multiset(Roster(s, Other(c))) + multiset(Roster(r, c));
    }
  }

  /** The drop following a lift may run. */
  lemma StopReady(s: State, item: Piece, ev: Point)
    requires Settled(s) && item in Bag(s)
    ensures CanDragStart(s, item) && CanDragStop(DragStart(s, item, ev))
  {
    DragStartEffect(s, item, ev);
    var m := DragStart(s, item, ev);
    if m != s {
      DropReady(m);
    }
  }

  /** `drag_start` followed by `drag_stop`, from a board at rest: the board
      is at rest again with its 30 pieces; a lifted piece has moved to the
      drop target and the board otherwise holds the same pieces; a piece
      that was not on top leaves the state as it was. */
  lemma RoundTrip(s: State, item: Piece, ev: Point, inside: (Slot, Point) -> bool, ev': Point)
    requires Settled(s) && item in Bag(s)
    ensures CanDragStart(s, item) && CanDragStop(DragStart(s, item, ev))
    ensures var m := DragStart(s, item, ev);
      var r := DragStop(m, inside, ev');
      Settled(r) && |Bag(r)| == 2 * RosterSize &&
      (Last(s.slots[item.slot.value].pieces) == item ==>
         m.drag.fromPosition.Some? &&
         Bag(r) == Bag(s) - multiset{item} + multiset{Piece(item.position, Some(DropTarget(m, inside, ev')), item.color)}) &&
      (Last(s.slots[item.slot.value].pieces) != item ==> r == s)
  {
    StopReady(s, item, ev);
    DragStartEffect(s, item, ev);
    var m := DragStart(s, item, ev);
    if Last(s.slots[item.slot.value].pieces) == item {
      DropSettles(m, inside, ev');
    }
    var r := DragStop(m, inside, ev');
    EachPieceOnOneSlot(r, White, 0);
  }

  /** Taking the top piece off slot k and putting it back, with its roster
      entry written back unchanged, restores the state. */
  lemma PutBack(s: State, m: State, r: State, item: Piece, k: nat, p: nat)
    requires Sized(s) && k < SlotCount && s.slots[k].pieces != [] && Last(s.slots[k].pieces) == item
    requires p < RosterSize && Roster(s, item.color)[p] == item
    requires var ps := s.slots[k].pieces;
      m.slots == s.slots[k := Slot(s.slots[k].position, ps[..|ps| - 1])] && m.white == s.white && m.black == s.black
    requires r.slots == m.slots[k := Slot(s.slots[k].position, m.slots[k].pieces + [item])]
    requires Roster(r, item.color) == Roster(m, item.color)[p := item]
    requires Roster(r, Other(item.color)) == Roster(m, Other(item.color))
    requires r.drag == s.drag
    ensures r == s
  {
    var ps := s.slots[k].pieces;
    assert ps[..|ps| - 1] + [item] == ps;
    assert r.slots == s.slots;
    if item.color == White {
      assert r.white == s.white && r.black == s.black;
    } else {
      assert r.black == s.black && r.white == s.white;
    }
  }

  /** Lifting the top piece and dropping it where no slot is, or on its own
      slot, gives back the state before the lift. */
  lemma InvalidDropRestores(s: State, item: Piece, ev: Point, inside: (Slot, Point) -> bool, ev': Point)
    requires Settled(s) && item in Bag(s) && CanDragStart(s, item) && Last(s.slots[item.slot.value].pieces) == item
    requires var to := FirstInside(DragStart(s, item, ev).slots, inside, ev');
      to == -1 || to == item.slot.value
    ensures CanDragStop(DragStart(s, item, ev))
    ensures DragStop(DragStart(s, item, ev), inside, ev') == s
  {
    var k := OnBoard(s, item);
    var m := DragStart(s, item, ev);
    LiftSlots(s, item, ev);
    LiftDragging(s, item, ev);
    DropEffect(m, inside, ev');
    assert DropTarget(m, inside, ev') == k;
    assert Piece(item.position, Some(k), item.color) == item;
    PutBack(s, m, DragStop(m, inside, ev'), item, k, item.position.value);
  }

  /** Lifting the top piece of slot k and dropping it on another slot t
      moves it there: slot k loses its last element, slot t gains the piece
      recording t, and no other slot changes. */
  lemma DropMoves(s: State, item: Piece, ev: Point, inside: (Slot, Point) -> bool, ev': Point)
    requires Settled(s) && item in Bag(s) && CanDragStart(s, item) && Last(s.slots[item.slot.value].pieces) == item
    requires var to := FirstInside(DragStart(s, item, ev).slots, inside, ev');
      to != -1 && to != item.slot.value
    ensures CanDragStop(DragStart(s, item, ev))
    ensures var k, ps := item.slot.value, s.slots[item.slot.value].pieces;
      var t := FirstInside(DragStart(s, item, ev).slots, inside, ev');
      DragStop(DragStart(s, item, ev), inside, ev').slots ==
        s.slots[k := Slot(k, ps[..|ps| - 1])][t := Slot(t, s.slots[t].pieces + [Piece(item.position, Some(t), item.color)])]
  {
    var m := DragStart(s, item, ev);
    var k := OnBoard(s, item);
    LiftSlots(s, item, ev);
    LiftDragging(s, item, ev);
    DropEffect(m, inside, ev');
  }
}
