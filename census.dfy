/** Where the pieces are: the multiset of all pieces standing on the board,
    and the invariants that tie it to the two rosters. */
module Census {
  import opened Records
  import opened Board

  /** Every piece standing on the given slots, with multiplicity. */
  function Pieces(slots: seq<Slot>): multiset<Piece>
    decreases |slots|
  {
    if slots == [] then multiset{}
    else Pieces(slots[..|slots| - 1]) + multiset(slots[|slots| - 1].pieces)
  }

  function Bag(s: State): multiset<Piece>
  {
    Pieces(s.slots)
  }

  /** The current entries of both rosters. */
  function RosterBag(s: State): multiset<Piece>
  {
    multiset(s.white) + multiset(s.black)
  }

  /** Replacing one slot changes the pieces on the board by exactly that
      slot's old and new contents. */
  lemma {:induction false} PiecesUpdate(slots: seq<Slot>, t: nat, sl: Slot)
    requires t < |slots|
    ensures Pieces(slots[t := sl]) + multiset(slots[t].pieces) == Pieces(slots) + multiset(sl.pieces)
  {
    var n := |slots|;
    if t == n - 1 {
      assert slots[t := sl][..n - 1] == slots[..n - 1];
    } else {
      var u := slots[t := sl];
      assert u[..n - 1] == slots[..n - 1][t := sl];
      assert slots[..n - 1][t] == slots[t];
      PiecesUpdate(slots[..n - 1], t, sl);
      var a, b := Pieces(u[..n - 1]), Pieces(slots[..n - 1]);
      var l, m, w := multiset(slots[n - 1].pieces), multiset(slots[t].pieces), multiset(sl.pieces);
      assert a + m == b + w;
      assert Pieces(u) == a + l;
      assert Pieces(slots) == b + l;
      assert (a + l) + m == (a + m) + l;
    }
  }

  /** Each slot's pieces are among the pieces on the board. */
  lemma {:induction false} PiecesContain(slots: seq<Slot>, i: nat)
    requires i < |slots|
    ensures multiset(slots[i].pieces) <= Pieces(slots)
  {
    var n := |slots|;
    if i < n - 1 {
      assert slots[..n - 1][i] == slots[i];
      PiecesContain(slots[..n - 1], i);
    }
  }

  /** A piece on the board stands on some slot. */
  lemma {:induction false} PiecesMember(slots: seq<Slot>, x: Piece) returns (i: nat)
    requires x in Pieces(slots)
    ensures i < |slots| && x in slots[i].pieces
  {
    var n := |slots|;
    if x in multiset(slots[n - 1].pieces) {
      i := n - 1;
    } else {
      i := PiecesMember(slots[..n - 1], x);
      assert slots[..n - 1][i] == slots[i];
    }
  }

  /** No pieces on empty slots. */
  lemma {:induction false} PiecesEmpty(slots: seq<Slot>)
    requires forall i :: 0 <= i < |slots| ==> slots[i].pieces == []
    ensures Pieces(slots) == multiset{}
  {
    if slots != [] {
      PiecesEmpty(slots[..|slots| - 1]);
    }
  }

  /** `place` puts exactly one piece more on the board, and takes none off. */
  lemma PlaceAddsOnePiece(s: State, piece: Piece, t: nat)
    requires CanPlace(s, piece, t)
    ensures Bag(Place(s, piece, t)) == Bag(s) + multiset{Placed(piece, s.slots[t])}
  {
    var r := Place(s, piece, t);
    PlaceEffect(s, piece, t);
    assert r.slots == s.slots[t := r.slots[t]];
    PiecesUpdate(s.slots, t, r.slots[t]);
    var m, x := multiset(s.slots[t].pieces), multiset{Placed(piece, s.slots[t])};
    assert multiset(r.slots[t].pieces) == m + x;
    assert Pieces(r.slots) + m == Pieces(s.slots) + (m + x);
    assert Pieces(s.slots) + (m + x) == (Pieces(s.slots) + x) + m;
    Cancel(Pieces(r.slots), Pieces(s.slots) + x, m);
  }

  lemma Cancel(a: multiset<Piece>, b: multiset<Piece>, m: multiset<Piece>)
    requires a + m == b + m
    ensures a == b
  {
    forall z ensures a[z] == b[z] {
      assert (a + m)[z] == (b + m)[z];
    }
  }

  /** Slot i is at position i. */
  ghost predicate Shape(s: State)
  {
    Sized(s) && forall i :: 0 <= i < |s.slots| ==> s.slots[i].position == i
  }

  /** Roster entry p of colour c has roster position p and colour c. */
  predicate RosterEntry(s: State, c: Color, p: nat)
    requires Sized(s) && p < RosterSize
  {
    Roster(s, c)[p].position == Some(p) && Roster(s, c)[p].color == c
  }

  /** Every roster entry is that colour's piece of that position and records
      a slot of the board. */
  ghost predicate RosterPlaced(s: State)
    requires Sized(s)
  {
    forall c: Color, p: nat :: p < RosterSize ==>
      RosterEntry(s, c, p) && Roster(s, c)[p].slot.Some? && Roster(s, c)[p].slot.value < SlotCount
  }

  /** x, standing on slot i, records slot i and is the current roster entry
      of its colour and position. */
  predicate Tracked(s: State, i: nat, x: Piece)
  {
    x.slot == Some(i) && x.position.Some? && x.position.value < |Roster(s, x.color)| &&
    Roster(s, x.color)[x.position.value] == x
  }

  /** Every piece on the board is tracked. */
  ghost predicate OnOwnSlot(s: State)
  {
    forall i, j :: 0 <= i < |s.slots| && 0 <= j < |s.slots[i].pieces| ==> Tracked(s, i, s.slots[i].pieces[j])
  }

  /** No piece on the board has colour c and roster position p. */
  ghost predicate NoneWith(s: State, c: Color, p: nat)
  {
    forall i, j :: 0 <= i < |s.slots| && 0 <= j < |s.slots[i].pieces| ==>
      !(s.slots[i].pieces[j].color == c && s.slots[i].pieces[j].position == Some(p))
  }

  /** What rest and dragging have in common: the pieces on the board are
      tracked roster entries, each at most as often as the rosters hold it. */
  ghost predicate Tracking(s: State)
  {
    Shape(s) && RosterPlaced(s) && OnOwnSlot(s) && Bag(s) <= RosterBag(s)
  }

  /** At rest: every roster entry stands on the board exactly as often as it
      occurs in the rosters, and nothing else does; no drag is in progress. */
  ghost predicate Settled(s: State)
  {
    Shape(s) && RosterPlaced(s) && OnOwnSlot(s) && Bag(s) == RosterBag(s) && s.drag == NoDrag
  }

  /** While dragging: as at rest, except that the roster entry the drag
      record names is off the board, and it records the origin slot. */
  ghost predicate Dragging(s: State)
  {
    Shape(s) && RosterPlaced(s) && OnOwnSlot(s) &&
    s.drag.fromPosition.Some? && s.drag.fromPosition.value < RosterSize && s.drag.color.Some? &&
    var x := Roster(s, s.drag.color.value)[s.drag.fromPosition.value];
    s.drag.fromSlot == x.slot &&
    Bag(s) + multiset{x} == RosterBag(s)
  }

  /** An entry of a roster whose entries carry their own positions occurs
      in it once. */
  lemma {:induction false} OccursOnce(w: seq<Piece>, p: nat)
    requires p < |w|
    requires forall q :: 0 <= q < |w| ==> w[q].position == Some(q)
    ensures multiset(w)[w[p]] == 1
  {
    var n := |w|;
    var init := w[..n - 1];
    assert w == init + [w[n - 1]];
    if p == n - 1 {
      assert forall q :: 0 <= q < |init| ==> init[q] != w[p];
      assert w[p] !in init;
    } else {
      assert init[p] == w[p];
      OccursOnce(init, p);
    }
  }

  /** Each roster entry occurs once among the entries of both rosters. */
  lemma RosterOnce(s: State, c: Color, p: nat)
    requires Sized(s) && RosterPlaced(s) && p < RosterSize
    ensures RosterBag(s)[Roster(s, c)[p]] == 1
  {
    var x := Roster(s, c)[p];
    assert forall q :: 0 <= q < RosterSize ==> RosterEntry(s, c, q);
    OccursOnce(Roster(s, c), p);
    assert forall q :: 0 <= q < RosterSize ==> RosterEntry(s, Other(c), q);
    assert x !in Roster(s, Other(c));
    if c == White {
      assert RosterBag(s)[x] == multiset(s.white)[x] + multiset(s.black)[x];
    } else {
      assert RosterBag(s)[x] == multiset(s.black)[x] + multiset(s.white)[x];
    }
  }

  /** A roster entry occurs at most once on the board. */
  lemma OnBoardOnce(s: State, x: Piece)
    requires Tracking(s)
    requires x.position.Some? && x.position.value < RosterSize && Roster(s, x.color)[x.position.value] == x
    ensures Bag(s)[x] <= 1
  {
    RosterOnce(s, x.color, x.position.value);
  }

  lemma SettledTracking(s: State)
    requires Settled(s)
    ensures Tracking(s)
  {
  }

  /** The top piece of a slot occurs nowhere below it. */
  lemma TopOnlyOnce(s: State, k: nat)
    requires Tracking(s)
    requires k < |s.slots| && s.slots[k].pieces != []
    ensures Last(s.slots[k].pieces) !in s.slots[k].pieces[..|s.slots[k].pieces| - 1]
  {
    var ps := s.slots[k].pieces;
    var n := |ps|;
    var y := ps[n - 1];
    assert Tracked(s, k, y);
    OnBoardOnce(s, y);
    PiecesContain(s.slots, k);
    assert multiset(ps)[y] <= 1;
    assert ps == ps[..n - 1] + [y];
    assert multiset(ps) == multiset(ps[..n - 1]) + multiset{y};
  }

  /** Each of the 30 pieces stands on exactly one slot, the one it records,
      and occurs there once; there are 30 pieces on the board. */
  lemma EachPieceOnOneSlot(s: State, c: Color, p: nat)
    requires Settled(s) && p < RosterSize
    ensures |Bag(s)| == 2 * RosterSize
    ensures var x := Roster(s, c)[p];
      x.slot.Some? && x.slot.value < SlotCount &&
      multiset(s.slots[x.slot.value].pieces)[x] == 1 &&
      forall i :: 0 <= i < SlotCount && i != x.slot.value ==> x !in s.slots[i].pieces
  {
    var x := Roster(s, c)[p];
    assert RosterEntry(s, c, p) && x.slot.Some? && x.slot.value < SlotCount;
    RosterOnce(s, c, p);
    var i := PiecesMember(s.slots, x);
    var j :| 0 <= j < |s.slots[i].pieces| && s.slots[i].pieces[j] == x;
    assert Tracked(s, i, s.slots[i].pieces[j]);
    PiecesContain(s.slots, i);
    forall i' | 0 <= i' < SlotCount && i' != x.slot.value
      ensures x !in s.slots[i'].pieces
    {
      forall j' | 0 <= j' < |s.slots[i'].pieces|
        ensures s.slots[i'].pieces[j'] != x
      {
        assert Tracked(s, i', s.slots[i'].pieces[j']);
      }
    }
  }

  /** A roster entry that records no slot, or is off the board, has no
      piece of its colour and position on the board. */
  lemma AbsentEntry(s: State, c: Color, p: nat)
    requires OnOwnSlot(s) && p < |Roster(s, c)|
    requires Roster(s, c)[p].slot.None? || Roster(s, c)[p] !in Bag(s)
    ensures NoneWith(s, c, p)
  {
    forall i, j | 0 <= i < |s.slots| && 0 <= j < |s.slots[i].pieces|
      ensures !(s.slots[i].pieces[j].color == c && s.slots[i].pieces[j].position == Some(p))
    {
      var y := s.slots[i].pieces[j];
      assert Tracked(s, i, y);
      PiecesContain(s.slots, i);
      assert y in multiset(s.slots[i].pieces);
    }
  }

  /** Placing a piece whose colour and position no board piece has keeps
      every board piece tracked. */
  lemma PlaceKeepsTracked(s: State, piece: Piece, t: nat)
    requires CanPlace(s, piece, t) && s.slots[t].position == t
    requires OnOwnSlot(s) && NoneWith(s, piece.color, piece.position.value)
    ensures OnOwnSlot(Place(s, piece, t))
  {
    var r := Place(s, piece, t);
    PlaceEffect(s, piece, t);
    forall i, j | 0 <= i < |r.slots| && 0 <= j < |r.slots[i].pieces|
      ensures Tracked(r, i, r.slots[i].pieces[j])
    {
      if i == t && j == |s.slots[t].pieces| {
      } else {
        assert r.slots[i].pieces[j] == s.slots[i].pieces[j];
        assert Tracked(s, i, s.slots[i].pieces[j]);
      }
    }
  }
}
