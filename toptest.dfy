/** The top test of `drag_start` as the program writes it compares only the
    roster position of the slot's top piece with that of the clicked piece.
    Pieces of the two colours share roster positions 0-14, so a covered
    piece is lifted from under a top piece of the other colour with the
    same roster position. Such a board is reached from the opening by one
    drag and drop. */
module TopTest {
  import opened Records
  import opened Board
  import opened Census
  import opened Layout
  import opened Drag

  /** On a board at rest, a covered piece whose roster position equals
      that of the top piece of its slot is refused by the intended test
      and lifted from under the top by the written one. */
  lemma CoveredLift(s: State, item: Piece, ev: Point)
    requires Settled(s) && item in Bag(s) && CanDragStart(s, item)
    requires var ps := s.slots[item.slot.value].pieces;
      Last(ps) != item && Last(ps).position == item.position
    ensures DragStart(s, item, ev) == s
    ensures var k, ps := item.slot.value, s.slots[item.slot.value].pieces;
      var r := DragStartAsWritten(s, item, ev);
      r.drag == DragData(item.slot, item.position, Some(item.color), ev.x, ev.y) &&
      item !in r.slots[k].pieces && r.slots[k].pieces != [] && Last(r.slots[k].pieces) == Last(ps)
  {
    var k, ps := item.slot.value, s.slots[item.slot.value].pieces;
    var k' := OnBoard(s, item);
    SettledTracking(s);
    OnBoardOnce(s, item);
    PiecesContain(s.slots, k);
    assert item in multiset(ps);
    var i := OnceAt(ps, item);
    CoveredRemove(ps, item, i);
  }

  /** Removing a covered piece that occurs once leaves the top on top and
      the piece gone. */
  lemma CoveredRemove(ps: seq<Piece>, x: Piece, i: nat)
    requires i < |ps| && ps[i] == x && x !in ps[..i] && x !in ps[i + 1..]
    requires Last(ps) != x
    ensures var r := RemoveFirst(ps, x);
      x !in r && r != [] && Last(r) == Last(ps)
  {
    RemoveFirstAt(ps, x, i);
    assert i != |ps| - 1;
    NotInJoin(ps[..i], ps[i + 1..], x);
  }

  /** Where an element that occurs once sits: nowhere before and nowhere
      after. */
  lemma OnceAt<T>(ps: seq<T>, x: T) returns (i: nat)
    requires multiset(ps)[x] == 1
    ensures i < |ps| && ps[i] == x && x !in ps[..i] && x !in ps[i + 1..]
  {
    assert x in ps by {
      assert x in multiset(ps);
    }
    i :| 0 <= i < |ps| && ps[i] == x;
    var a, b := ps[..i], ps[i + 1..];
    assert ps == a + [x] + b;
    assert multiset(ps) == multiset(a) + multiset{x} + multiset(b);
    assert multiset(a)[x] == 0 && multiset(b)[x] == 0;
  }

  /** x is in neither part of a + b; b's last element is the join's. */
  lemma NotInJoin<T>(a: seq<T>, b: seq<T>, x: T)
    requires x !in a && x !in b
    ensures x !in a + b
    ensures b != [] ==> (a + b)[|a + b| - 1] == b[|b| - 1]
  {
  }

  /** The two top tests differ only on a covered piece whose roster
      position equals that of the top piece: everywhere else the written
      test does what the intended one does. */
  lemma TestsAgree(s: State, item: Piece, ev: Point)
    requires CanDragStart(s, item)
    requires var ps := s.slots[item.slot.value].pieces;
      !(Last(ps) != item && Last(ps).position == item.position)
    ensures DragStartAsWritten(s, item, ev) == DragStart(s, item, ev)
  {
  }

  /** A piece standing on some slot is on the board. */
  lemma OnSlot(s: State, k: nat, x: Piece)
    requires k < |s.slots| && x in s.slots[k].pieces
    ensures x in Bag(s)
  {
    PiecesContain(s.slots, k);
    assert x in multiset(s.slots[k].pieces);
  }

  /** The pointer is over slot t and no other. */
  ghost predicate OnlyOver(inside: (Slot, Point) -> bool, ev: Point, t: nat)
  {
    forall sl: Slot :: inside(sl, ev) <==> sl.position == t
  }

  /** Over slots at their own positions, the search finds slot t when the
      pointer is over slot t alone. */
  lemma FindsOnly(slots: seq<Slot>, inside: (Slot, Point) -> bool, ev: Point, t: nat)
    requires t < |slots| && OnlyOver(inside, ev, t)
    requires forall i :: 0 <= i < |slots| ==> slots[i].position == i
    ensures FirstInside(slots, inside, ev) == t
  {
    assert inside(slots[t], ev);
  }

  /** Moving the top piece x of slot k onto slot t puts x, now recording
      t, on top of slot t's former pieces. */
  lemma MoveSlots(s: State, k: nat, t: nat, inside: (Slot, Point) -> bool, ev: Point, ev': Point)
    requires Settled(s) && k < SlotCount && t < SlotCount && k != t && s.slots[k].pieces != []
    requires OnlyOver(inside, ev', t)
    ensures var x := Last(s.slots[k].pieces);
      CanDragStart(s, x) && CanDragStop(DragStart(s, x, ev))
    ensures var x := Last(s.slots[k].pieces);
      DragStop(DragStart(s, x, ev), inside, ev').slots[t].pieces == s.slots[t].pieces + [Piece(x.position, Some(t), x.color)]
  {
    var x := Last(s.slots[k].pieces);
    OnSlot(s, k, x);
    var k' := OnBoard(s, x);
    StopReady(s, x, ev);
    var m := DragStart(s, x, ev);
    LiftSlots(s, x, ev);
    LiftDragging(s, x, ev);
    FindsOnly(m.slots, inside, ev', t);
    DropAt(m, inside, ev', t);
  }

  /** A drop over slot t puts the dragged piece, now recording t, on top of
      slot t. */
  lemma DropAt(m: State, inside: (Slot, Point) -> bool, ev: Point, t: nat)
    requires Dragging(m) && FirstInside(m.slots, inside, ev) == t
    ensures CanDragStop(m)
    ensures var x := Dragged(m);
      DragStop(m, inside, ev).slots[t].pieces == m.slots[t].pieces + [Piece(x.position, Some(t), x.color)]
  {
    DropEffect(m, inside, ev);
  }

  /** Moving the top piece of slot k onto slot t, from a board at rest,
      leaves the board at rest. */
  lemma MoveOnto(s: State, k: nat, t: nat, inside: (Slot, Point) -> bool, ev: Point, ev': Point)
    requires Settled(s) && k < SlotCount && t < SlotCount && k != t && s.slots[k].pieces != []
    requires OnlyOver(inside, ev', t)
    ensures var x := Last(s.slots[k].pieces);
      x in Bag(s) && CanDragStart(s, x) && CanDragStop(DragStart(s, x, ev))
    ensures var x := Last(s.slots[k].pieces);
      var r := DragStop(DragStart(s, x, ev), inside, ev');
      Settled(r) && r.slots[t].pieces == s.slots[t].pieces + [Piece(x.position, Some(t), x.color)]
  {
    OnSlot(s, k, Last(s.slots[k].pieces));
    MoveSlots(s, k, t, inside, ev, ev');
    RoundTrip(s, Last(s.slots[k].pieces), ev, inside, ev');
  }

  /** When the tops of slots k and t have different colours and the same
      roster position, moving the top of k onto t covers the top y of t
      with a piece of the same roster position, and then the written test
      lifts y from under it while the intended test refuses. */
  lemma Exposed(s: State, k: nat, t: nat, inside: (Slot, Point) -> bool, ev: Point, ev': Point, ev'': Point)
    requires Settled(s) && k < SlotCount && t < SlotCount && k != t
    requires s.slots[k].pieces != [] && s.slots[t].pieces != []
    requires Last(s.slots[k].pieces).position == Last(s.slots[t].pieces).position
    requires Last(s.slots[k].pieces).color != Last(s.slots[t].pieces).color
    requires OnlyOver(inside, ev', t)
    ensures var x := Last(s.slots[k].pieces);
      x in Bag(s) && CanDragStart(s, x) && CanDragStop(DragStart(s, x, ev))
    ensures var x, y := Last(s.slots[k].pieces), Last(s.slots[t].pieces);
      var r := DragStop(DragStart(s, x, ev), inside, ev');
      Settled(r) && y in Bag(r) && CanDragStart(r, y) && Last(r.slots[t].pieces) != y &&
      DragStart(r, y, ev'') == r &&
      var w := DragStartAsWritten(r, y, ev'');
      y !in w.slots[t].pieces && w.slots[t].pieces != [] && Last(w.slots[t].pieces) == Last(r.slots[t].pieces) &&
      w.drag == DragData(y.slot, y.position, Some(y.color), ev''.x, ev''.y)
  {
    var x, y := Last(s.slots[k].pieces), Last(s.slots[t].pieces);
    MoveOnto(s, k, t, inside, ev, ev');
    var r := DragStop(DragStart(s, x, ev), inside, ev');
    var ps := s.slots[t].pieces;
    var x' := Piece(x.position, Some(t), x.color);
    assert r.slots[t].pieces == ps + [x'];
    assert y in ps;
    assert y in r.slots[t].pieces;
    OnSlot(r, t, y);
    var t' := OnBoard(r, y);
    assert Last(r.slots[t].pieces) == x';
    CoveredLift(r, y, ev'');
  }

  /** The tops of slots 0 and 23 at the opening: black piece 6 and white
      piece 6. */
  lemma OpeningTops()
    ensures var o := NewGame(Initial);
      Settled(o) && o.slots[0].pieces != [] && o.slots[23].pieces != [] &&
      Last(o.slots[0].pieces) == Piece(Some(6), Some(0), Black) &&
      Last(o.slots[23].pieces) == Piece(Some(6), Some(23), White)
  {
    Opening();
    assert Stack(Black, 2, 7, 0) == Stack(Black, 2, 6, 0) + [Piece(Some(6), Some(0), Black)];
    assert Stack(White, 2, 7, 23) == Stack(White, 2, 6, 23) + [Piece(Some(6), Some(23), White)];
    assert SetupStack(White, 0, 12, 23, 4, 6) == [];
    assert SetupStack(Black, 23, 11, 0, 19, 17) == [];
    EmptyPrefix(Stack(Black, 2, 7, 0));
    assert Stack(White, 2, 7, 23) + [] == Stack(White, 2, 7, 23);
  }

  /** From the opening, dragging black piece 6 from slot 0 onto slot 23
      covers white piece 6 there; a click on white piece 6 then lifts it
      from under the top with the written test, while the intended test
      leaves the state alone. */
  lemma FromOpening(inside: (Slot, Point) -> bool, ev: Point, ev': Point, ev'': Point)
    requires OnlyOver(inside, ev', 23)
    ensures var o := NewGame(Initial);
      var b6 := Piece(Some(6), Some(0), Black);
      CanDragStart(o, b6) && CanDragStop(DragStart(o, b6, ev))
    ensures var o := NewGame(Initial);
      var b6, w6 := Piece(Some(6), Some(0), Black), Piece(Some(6), Some(23), White);
      var r := DragStop(DragStart(o, b6, ev), inside, ev');
      Settled(r) && CanDragStart(r, w6) && w6 in r.slots[23].pieces && Last(r.slots[23].pieces) != w6 &&
      DragStart(r, w6, ev'') == r &&
      var w := DragStartAsWritten(r, w6, ev'');
      w6 !in w.slots[23].pieces && w.slots[23].pieces != [] && Last(w.slots[23].pieces) == Piece(Some(6), Some(23), Black) &&
      w.drag == DragData(Some(23), Some(6), Some(White), ev''.x, ev''.y)
  {
    OpeningTops();
    var o := NewGame(Initial);
    Exposed(o, 0, 23, inside, ev, ev', ev'');
    var r := DragStop(DragStart(o, Piece(Some(6), Some(0), Black), ev), inside, ev');
    var w6 := Piece(Some(6), Some(23), White);
    var k := OnBoard(r, w6);
  }
}
