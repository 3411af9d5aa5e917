/** The opening layout of `set_new_white_pieces` and `set_new_black_pieces`.

    A setup runs four loops, one per target slot. The proofs go through an
    equivalent single deal over the 15 roster positions, `Deal`, in which
    roster position p goes onto slot `Home(p, ...)`; each loop of a setup is
    one stretch of that deal. */
module Layout {
  import opened Records
  import opened Board
  import opened Census

  /** Pieces lo .. hi-1 of colour c as they stand on the slot at position k,
      bottom first. */
  function Stack(c: Color, lo: nat, hi: nat, k: nat): (r: seq<Piece>)
    requires lo <= hi
    ensures |r| == hi - lo
    decreases hi - lo
  {
    if hi == lo then [] else Stack(c, lo, hi - 1, k) + [Piece(Some(hi - 1), Some(k), c)]
  }

  /** The slot that roster position p goes onto in a setup onto slots a, b,
      d and e. */
  function Home(p: nat, a: nat, b: nat, d: nat, e: nat): nat
  {
    if p < 2 then a else if p < 7 then b else if p < 10 then d else e
  }

  /** Four slots of the board. */
  predicate Targets(a: nat, b: nat, d: nat, e: nat)
  {
    a < SlotCount && b < SlotCount && d < SlotCount && e < SlotCount
  }

  /** Four distinct slots of the board. */
  predicate SetupSlots(a: nat, b: nat, d: nat, e: nat)
  {
    Targets(a, b, d, e) && a != b && a != d && a != e && b != d && b != e && d != e
  }

  /** The pieces a setup onto slots a, b, d and e stacks on slot i. */
  function SetupStack(c: Color, i: nat, a: nat, b: nat, d: nat, e: nat): seq<Piece>
  {
    if i == a then Stack(c, 0, 2, a)
    else if i == b then Stack(c, 2, 7, b)
    else if i == d then Stack(c, 7, 10, d)
    else if i == e then Stack(c, 10, 15, e)
    else []
  }

  /** Roster positions 0 .. n-1 of colour c as a setup leaves them: each at
      its own position, recording its home slot. */
  function Homes(c: Color, n: nat, a: nat, b: nat, d: nat, e: nat): (r: seq<Piece>)
    ensures |r| == n
    ensures forall j :: 0 <= j < n ==> r[j] == Piece(Some(j), Some(Home(j, a, b, d, e)), c)
  {
    if n == 0 then [] else Homes(c, n - 1, a, b, d, e) + [Piece(Some(n - 1), Some(Home(n - 1, a, b, d, e)), c)]
  }

  /** Those of roster positions 0 .. n-1 whose home is slot i, in order. */
  function Dealt(c: Color, n: nat, i: nat, a: nat, b: nat, d: nat, e: nat): seq<Piece>
  {
    if n == 0 then []
    else Dealt(c, n - 1, i, a, b, d, e) + (if Home(n - 1, a, b, d, e) == i then [Piece(Some(n - 1), Some(i), c)] else [])
  }

  /** Roster positions 0 .. n-1 of colour c placed, in order, each on its
      home slot. */
  function Deal(s: State, c: Color, n: nat, a: nat, b: nat, d: nat, e: nat): (r: State)
    requires Sized(s) && n <= RosterSize && Targets(a, b, d, e)
    ensures Sized(r)
  {
    if n == 0 then s else PlaceStep(Deal(s, c, n - 1, a, b, d, e), c, n - 1, Home(n - 1, a, b, d, e))
  }

  /** The roster of colour c holds pieces of that colour that stand on no
      slot. */
  predicate Unplaced(s: State, c: Color)
  {
    Sized(s) && forall j :: 0 <= j < RosterSize ==> Roster(s, c)[j].color == c && Roster(s, c)[j].slot.None?
  }

  /** One turn of a setup loop: roster entry i of colour c, at its own roster
      position, goes on top of slot k and becomes the roster entry; nothing
      else changes. */
  lemma PlaceStepEffect(s: State, c: Color, i: nat, k: nat)
    requires Sized(s) && i < RosterSize && k < SlotCount && Roster(s, c)[i].color == c
    ensures var r := PlaceStep(s, c, i, k);
      var x := Piece(Some(i), Some(s.slots[k].position), c);
      Roster(r, c) == Roster(s, c)[i := x] && Roster(r, Other(c)) == Roster(s, Other(c)) && r.drag == s.drag &&
      r.slots == s.slots[k := Slot(s.slots[k].position, s.slots[k].pieces + [x])]
  {
    var piece := Roster(s, c)[i].(position := Some(i));
    var s' := WithRoster(s, c, Roster(s, c)[i := piece]);
    PlaceEffect(s', piece, k);
  }

  /** One turn of a setup loop puts exactly one piece on the board. */
  lemma PlaceStepBag(s: State, c: Color, i: nat, k: nat)
    requires Sized(s) && i < RosterSize && k < SlotCount && Roster(s, c)[i].color == c
    ensures Bag(PlaceStep(s, c, i, k)) == Bag(s) + multiset{Piece(Some(i), Some(s.slots[k].position), c)}
  {
    var piece := Roster(s, c)[i].(position := Some(i));
    var s' := WithRoster(s, c, Roster(s, c)[i := piece]);
    PlaceAddsOnePiece(s', piece, k);
  }

  /** Changing a roster entry whose colour and position no board piece has
      keeps every board piece tracked. */
  lemma RosterChangeKeepsTracked(s: State, c: Color, p: nat, x: Piece)
    requires OnOwnSlot(s) && NoneWith(s, c, p) && p < |Roster(s, c)|
    ensures OnOwnSlot(WithRoster(s, c, Roster(s, c)[p := x]))
  {
    var s' := WithRoster(s, c, Roster(s, c)[p := x]);
    forall i, j | 0 <= i < |s'.slots| && 0 <= j < |s'.slots[i].pieces|
      ensures Tracked(s', i, s'.slots[i].pieces[j])
    {
      assert Tracked(s, i, s.slots[i].pieces[j]);
    }
  }

  /** One turn of a setup loop, on a roster entry that is not yet on the
      board, keeps every board piece tracked. */
  lemma PlaceStepTracked(s: State, c: Color, i: nat, k: nat)
    requires Shape(s) && OnOwnSlot(s) && i < RosterSize && k < SlotCount
    requires Roster(s, c)[i].color == c && Roster(s, c)[i].slot.None?
    ensures OnOwnSlot(PlaceStep(s, c, i, k))
  {
    var piece := Roster(s, c)[i].(position := Some(i));
    AbsentEntry(s, c, i);
    RosterChangeKeepsTracked(s, c, i, piece);
    var s' := WithRoster(s, c, Roster(s, c)[i := piece]);
    PlaceKeepsTracked(s', piece, k);
  }

  /** A loop of a setup whose roster positions all have home k is the
      matching stretch of the deal. */
  lemma {:induction false} GroupDeal(s: State, c: Color, lo: nat, hi: nat, k: nat, a: nat, b: nat, d: nat, e: nat)
    requires Sized(s) && lo <= hi <= RosterSize && k < SlotCount && Targets(a, b, d, e)
    requires forall j :: lo <= j < hi ==> Home(j, a, b, d, e) == k
    ensures PlaceGroup(Deal(s, c, lo, a, b, d, e), c, lo, hi, k) == Deal(s, c, hi, a, b, d, e)
    decreases hi - lo
  {
    if hi > lo {
      GroupDeal(s, c, lo, hi - 1, k, a, b, d, e);
    }
  }

  /** The first two loops of a setup deal roster positions 0 .. 6. */
  lemma FirstLoops(s: State, c: Color, a: nat, b: nat, d: nat, e: nat)
    requires Sized(s) && Targets(a, b, d, e)
    ensures PlaceGroup(PlaceGroup(s, c, 0, 2, a), c, 2, 7, b) == Deal(s, c, 7, a, b, d, e)
  {
    GroupDeal(s, c, 0, 2, a, a, b, d, e);
    GroupDeal(s, c, 2, 7, b, a, b, d, e);
  }

  /** The last two loops of a setup deal roster positions 7 .. 14. */
  lemma LastLoops(s: State, c: Color, a: nat, b: nat, d: nat, e: nat)
    requires Sized(s) && Targets(a, b, d, e)
    ensures PlaceGroup(PlaceGroup(Deal(s, c, 7, a, b, d, e), c, 7, 10, d), c, 10, 15, e) == Deal(s, c, RosterSize, a, b, d, e)
  {
    GroupDeal(s, c, 7, 10, d, a, b, d, e);
    GroupDeal(s, c, 10, 15, e, a, b, d, e);
  }

  /** A setup is the deal of all 15 roster positions. */
  lemma SetupIsDeal(s: State, c: Color, a: nat, b: nat, d: nat, e: nat)
    requires Sized(s) && Targets(a, b, d, e)
    ensures Setup(s, c, a, b, d, e) == Deal(s, c, RosterSize, a, b, d, e)
  {
    FirstLoops(s, c, a, b, d, e);
    LastLoops(s, c, a, b, d, e);
  }

  /** After dealing n positions: roster entries 0 .. n-1 are the placed
      pieces and the rest are untouched; the other roster, the drag record
      and the slots' positions are untouched. */
  lemma {:induction false} DealRoster(s: State, c: Color, n: nat, a: nat, b: nat, d: nat, e: nat)
    requires Unplaced(s, c) && Shape(s) && n <= RosterSize && Targets(a, b, d, e)
    ensures var r := Deal(s, c, n, a, b, d, e);
      Roster(r, c) == Homes(c, n, a, b, d, e) + Roster(s, c)[n..] &&
      Roster(r, Other(c)) == Roster(s, Other(c)) && r.drag == s.drag && Shape(r)
  {
    if n > 0 {
      var m := Deal(s, c, n - 1, a, b, d, e);
      var k := Home(n - 1, a, b, d, e);
      DealRoster(s, c, n - 1, a, b, d, e);
      var h := Homes(c, n - 1, a, b, d, e);
      var x := Piece(Some(n - 1), Some(k), c);
      Splice(h, Roster(s, c), x);
      PlaceStepEffect(m, c, n - 1, k);
      assert m.slots[k].position == k;
    }
  }

  /** Writing x over the first untouched entry of a roster whose first |h|
      entries are h. */
  lemma Splice(h: seq<Piece>, w: seq<Piece>, x: Piece)
    requires |h| < |w|
    ensures (h + w[|h|..])[|h|] == w[|h|]
    ensures (h + w[|h|..])[|h| := x] == (h + [x]) + w[|h| + 1..]
  {
    var n := |h|;
    assert (h + w[n..])[n] == w[n..][0];
    var u, v := (h + w[n..])[n := x], (h + [x]) + w[n + 1..];
    assert |u| == |v|;
    forall j | 0 <= j < |u|
      ensures u[j] == v[j]
    {
      if j < n {
      } else if j == n {
      } else {
        assert u[j] == w[n..][j - n] == w[j];
        assert v[j] == w[n + 1..][j - n - 1] == w[j];
      }
    }
  }

  /** The roster entry a deal places next is still the untouched one. */
  lemma NextEntry(s: State, c: Color, n: nat, a: nat, b: nat, d: nat, e: nat)
    requires Unplaced(s, c) && Shape(s) && n < RosterSize && Targets(a, b, d, e)
    ensures var m := Deal(s, c, n, a, b, d, e);
      Roster(m, c)[n] == Roster(s, c)[n] && Shape(m) && m.slots[Home(n, a, b, d, e)].position == Home(n, a, b, d, e)
  {
    DealRoster(s, c, n, a, b, d, e);
    Splice(Homes(c, n, a, b, d, e), Roster(s, c), Roster(s, c)[n]);
  }

  /** After dealing n positions each slot has gained, in order, the dealt
      pieces whose home it is. */
  lemma {:induction false} DealSlots(s: State, c: Color, n: nat, a: nat, b: nat, d: nat, e: nat)
    requires Unplaced(s, c) && Shape(s) && n <= RosterSize && Targets(a, b, d, e)
    ensures var r := Deal(s, c, n, a, b, d, e);
      forall i :: 0 <= i < SlotCount ==> r.slots[i] == Slot(i, s.slots[i].pieces + Dealt(c, n, i, a, b, d, e))
  {
    if n > 0 {
      var m := Deal(s, c, n - 1, a, b, d, e);
      var r := Deal(s, c, n, a, b, d, e);
      var k := Home(n - 1, a, b, d, e);
      DealSlots(s, c, n - 1, a, b, d, e);
      NextEntry(s, c, n - 1, a, b, d, e);
      PlaceStepEffect(m, c, n - 1, k);
      var x := Piece(Some(n - 1), Some(k), c);
      forall i | 0 <= i < SlotCount
        ensures r.slots[i] == Slot(i, s.slots[i].pieces + Dealt(c, n, i, a, b, d, e))
      {
        var t := Dealt(c, n - 1, i, a, b, d, e);
        if i == k {
          assert s.slots[i].pieces + t + [x] == s.slots[i].pieces + (t + [x]);
        } else {
          assert t + [] == t;
        }
      }
    }
  }

  /** Dealing n positions puts exactly the n placed pieces on the board. */
  lemma {:induction false} DealBag(s: State, c: Color, n: nat, a: nat, b: nat, d: nat, e: nat)
    requires Unplaced(s, c) && Shape(s) && n <= RosterSize && Targets(a, b, d, e)
    ensures Bag(Deal(s, c, n, a, b, d, e)) == Bag(s) + multiset(Homes(c, n, a, b, d, e))
  {
    if n > 0 {
      var m := Deal(s, c, n - 1, a, b, d, e);
      var k := Home(n - 1, a, b, d, e);
      DealBag(s, c, n - 1, a, b, d, e);
      NextEntry(s, c, n - 1, a, b, d, e);
      PlaceStepBag(m, c, n - 1, k);
    }
  }

  /** Dealing roster entries that are not on the board keeps every board
      piece tracked. */
  lemma {:induction false} DealTracked(s: State, c: Color, n: nat, a: nat, b: nat, d: nat, e: nat)
    requires Unplaced(s, c) && Shape(s) && OnOwnSlot(s) && n <= RosterSize && Targets(a, b, d, e)
    ensures OnOwnSlot(Deal(s, c, n, a, b, d, e))
  {
    if n > 0 {
      var m := Deal(s, c, n - 1, a, b, d, e);
      DealTracked(s, c, n - 1, a, b, d, e);
      NextEntry(s, c, n - 1, a, b, d, e);
      PlaceStepTracked(m, c, n - 1, Home(n - 1, a, b, d, e));
    }
  }

  /** Over roster positions lo .. hi-1, all with home i, the deal adds their
      stack to slot i. */
  lemma {:induction false} DealtOn(c: Color, lo: nat, hi: nat, i: nat, a: nat, b: nat, d: nat, e: nat)
    requires lo <= hi
    requires forall j :: lo <= j < hi ==> Home(j, a, b, d, e) == i
    ensures Dealt(c, hi, i, a, b, d, e) == Dealt(c, lo, i, a, b, d, e) + Stack(c, lo, hi, i)
    decreases hi - lo
  {
    if hi > lo {
      DealtOn(c, lo, hi - 1, i, a, b, d, e);
      var t, st := Dealt(c, lo, i, a, b, d, e), Stack(c, lo, hi - 1, i);
      var x := Piece(Some(hi - 1), Some(i), c);
      assert t + st + [x] == t + (st + [x]);
    } else {
      assert Dealt(c, lo, i, a, b, d, e) + [] == Dealt(c, lo, i, a, b, d, e);
    }
  }

  /** Over roster positions lo .. hi-1, none with home i, the deal adds
      nothing to slot i. */
  lemma {:induction false} DealtOff(c: Color, lo: nat, hi: nat, i: nat, a: nat, b: nat, d: nat, e: nat)
    requires lo <= hi
    requires forall j :: lo <= j < hi ==> Home(j, a, b, d, e) != i
    ensures Dealt(c, hi, i, a, b, d, e) == Dealt(c, lo, i, a, b, d, e)
    decreases hi - lo
  {
    if hi > lo {
      DealtOff(c, lo, hi - 1, i, a, b, d, e);
      assert Dealt(c, hi - 1, i, a, b, d, e) + [] == Dealt(c, hi - 1, i, a, b, d, e);
    }
  }

  /** Over four distinct slots, the whole deal gives each slot its setup
      stack. */
  lemma DealtSetup(c: Color, i: nat, a: nat, b: nat, d: nat, e: nat)
    requires SetupSlots(a, b, d, e)
    ensures Dealt(c, RosterSize, i, a, b, d, e) == SetupStack(c, i, a, b, d, e)
  {
    if i == a { DealtOn(c, 0, 2, i, a, b, d, e); } else { DealtOff(c, 0, 2, i, a, b, d, e); }
    if i == b { DealtOn(c, 2, 7, i, a, b, d, e); } else { DealtOff(c, 2, 7, i, a, b, d, e); }
    if i == d { DealtOn(c, 7, 10, i, a, b, d, e); } else { DealtOff(c, 7, 10, i, a, b, d, e); }
    if i == e { DealtOn(c, 10, 15, i, a, b, d, e); } else { DealtOff(c, 10, 15, i, a, b, d, e); }
    if i == a {
      assert [] + Stack(c, 0, 2, i) == Stack(c, 0, 2, i);
    } else if i == b {
      assert [] + Stack(c, 2, 7, i) == Stack(c, 2, 7, i);
    } else if i == d {
      assert [] + Stack(c, 7, 10, i) == Stack(c, 7, 10, i);
    } else if i == e {
      assert [] + Stack(c, 10, 15, i) == Stack(c, 10, 15, i);
    }
  }

  /** What a setup of colour c onto four distinct slots does: every roster
      entry of that colour is at its own position on its home slot, each of
      the four slots gains its stack on top of what it held, and no other
      slot, not the other roster and not the drag record change. */
  lemma SetupEffect(s: State, c: Color, a: nat, b: nat, d: nat, e: nat)
    requires Unplaced(s, c) && Shape(s) && SetupSlots(a, b, d, e)
    ensures var r := Setup(s, c, a, b, d, e);
      Roster(r, c) == Homes(c, RosterSize, a, b, d, e) &&
      Roster(r, Other(c)) == Roster(s, Other(c)) && r.drag == s.drag && Shape(r) &&
      forall i :: 0 <= i < SlotCount ==> r.slots[i] == Slot(i, s.slots[i].pieces + SetupStack(c, i, a, b, d, e))
  {
    SetupIsDeal(s, c, a, b, d, e);
    DealRoster(s, c, RosterSize, a, b, d, e);
    DealSlots(s, c, RosterSize, a, b, d, e);
    assert Homes(c, RosterSize, a, b, d, e) + Roster(s, c)[RosterSize..] == Homes(c, RosterSize, a, b, d, e);
    forall i | 0 <= i < SlotCount
      ensures Dealt(c, RosterSize, i, a, b, d, e) == SetupStack(c, i, a, b, d, e)
    {
      DealtSetup(c, i, a, b, d, e);
    }
  }

  /** A setup puts exactly its 15 pieces on the board. */
  lemma SetupBag(s: State, c: Color, a: nat, b: nat, d: nat, e: nat)
    requires Unplaced(s, c) && Shape(s) && Targets(a, b, d, e)
    ensures Bag(Setup(s, c, a, b, d, e)) == Bag(s) + multiset(Homes(c, RosterSize, a, b, d, e))
  {
    SetupIsDeal(s, c, a, b, d, e);
    DealBag(s, c, RosterSize, a, b, d, e);
  }

  /** A setup keeps the board pieces tracked. */
  lemma SetupTracked(s: State, c: Color, a: nat, b: nat, d: nat, e: nat)
    requires Unplaced(s, c) && Shape(s) && OnOwnSlot(s) && Targets(a, b, d, e)
    ensures OnOwnSlot(Setup(s, c, a, b, d, e))
  {
    SetupIsDeal(s, c, a, b, d, e);
    DealTracked(s, c, RosterSize, a, b, d, e);
  }

  /** A board with no pieces on it and rosters that place none. */
  ghost predicate Blank(s: State)
  {
    Shape(s) && OnOwnSlot(s) && Bag(s) == multiset{} && Unplaced(s, White) && Unplaced(s, Black) &&
    s.drag == NoDrag && forall i :: 0 <= i < SlotCount ==> s.slots[i].pieces == []
  }

  lemma EmptyPrefix(x: seq<Piece>)
    ensures [] + x == x
  {
  }

  /** The white setup onto slots a, b, d, e followed by the black one onto
      a', b', d', e', from a blank board, gives each slot its two stacks and
      each roster entry its home, and no drag is in progress. */
  lemma PairLayout(s: State, a: nat, b: nat, d: nat, e: nat, a': nat, b': nat, d': nat, e': nat)
    requires Blank(s) && SetupSlots(a, b, d, e) && SetupSlots(a', b', d', e')
    ensures var o := Setup(Setup(s, White, a, b, d, e), Black, a', b', d', e');
      (forall i :: 0 <= i < SlotCount ==> o.slots[i] == Slot(i, SetupStack(White, i, a, b, d, e) + SetupStack(Black, i, a', b', d', e'))) &&
      (forall p :: 0 <= p < RosterSize ==> o.white[p] == Piece(Some(p), Some(Home(p, a, b, d, e)), White)) &&
      (forall p :: 0 <= p < RosterSize ==> o.black[p] == Piece(Some(p), Some(Home(p, a', b', d', e')), Black))
  {
    var w := Setup(s, White, a, b, d, e);
    SetupEffect(s, White, a, b, d, e);
    SetupEffect(w, Black, a', b', d', e');
    forall i | 0 <= i < SlotCount
      ensures w.slots[i].pieces == SetupStack(White, i, a, b, d, e)
    {
      EmptyPrefix(SetupStack(White, i, a, b, d, e));
    }
  }

  /** A setup of colour c, on a tracked board whose rosters place nothing,
      keeps the board tracked, leaves the other roster as it was and
      adds its 15 pieces to the board. */
  lemma SetupKeeps(s: State, c: Color, a: nat, b: nat, d: nat, e: nat)
    requires Unplaced(s, c) && Shape(s) && OnOwnSlot(s) && SetupSlots(a, b, d, e)
    ensures var w := Setup(s, c, a, b, d, e);
      (Unplaced(s, Other(c)) ==> Unplaced(w, Other(c))) && Shape(w) && OnOwnSlot(w) &&
      Bag(w) == Bag(s) + multiset(Homes(c, RosterSize, a, b, d, e))
  {
    SetupEffect(s, c, a, b, d, e);
    SetupBag(s, c, a, b, d, e);
    SetupTracked(s, c, a, b, d, e);
  }

  /** The two setups from a blank board put exactly their 30 pieces on the
      board, all tracked. */
  lemma PairBag(s: State, a: nat, b: nat, d: nat, e: nat, a': nat, b': nat, d': nat, e': nat)
    requires Blank(s) && SetupSlots(a, b, d, e) && SetupSlots(a', b', d', e')
    ensures var o := Setup(Setup(s, White, a, b, d, e), Black, a', b', d', e');
      Bag(o) == multiset(Homes(White, RosterSize, a, b, d, e)) + multiset(Homes(Black, RosterSize, a', b', d', e')) &&
      OnOwnSlot(o)
  {
    SetupKeeps(s, White, a, b, d, e);
    SetupKeeps(Setup(s, White, a, b, d, e), Black, a', b', d', e');
  }

  /** The home pieces of a setup, each at its own position on a slot of
      the board. */
  lemma HomesEntries(w: seq<Piece>, c: Color, a: nat, b: nat, d: nat, e: nat)
    requires Targets(a, b, d, e) && w == Homes(c, RosterSize, a, b, d, e)
    ensures |multiset(w)| == RosterSize
    ensures forall p :: 0 <= p < RosterSize ==>
      w[p].position == Some(p) && w[p].color == c && w[p].slot.Some? && w[p].slot.value < SlotCount
  {
  }

  /** Rosters holding the home pieces of two setups hold each entry at its
      own position on a slot of the board, 30 entries in all. */
  lemma HomesPlaced(s: State, a: nat, b: nat, d: nat, e: nat, a': nat, b': nat, d': nat, e': nat)
    requires Sized(s) && Targets(a, b, d, e) && Targets(a', b', d', e')
    requires s.white == Homes(White, RosterSize, a, b, d, e) && s.black == Homes(Black, RosterSize, a', b', d', e')
    ensures RosterPlaced(s) && |RosterBag(s)| == 2 * RosterSize
  {
    HomesEntries(s.white, White, a, b, d, e);
    HomesEntries(s.black, Black, a', b', d', e');
    forall c: Color, p: nat | p < RosterSize
      ensures RosterEntry(s, c, p) && Roster(s, c)[p].slot.Some? && Roster(s, c)[p].slot.value < SlotCount
    {
    }
  }

  /** The two setups from a blank board leave the home pieces as the
      roster entries, the slots at their positions and no drag. */
  lemma PairRosters(s: State, a: nat, b: nat, d: nat, e: nat, a': nat, b': nat, d': nat, e': nat)
    requires Blank(s) && SetupSlots(a, b, d, e) && SetupSlots(a', b', d', e')
    ensures var o := Setup(Setup(s, White, a, b, d, e), Black, a', b', d', e');
      o.white == Homes(White, RosterSize, a, b, d, e) && o.black == Homes(Black, RosterSize, a', b', d', e') &&
      o.drag == NoDrag && Shape(o)
  {
    SetupEffect(s, White, a, b, d, e);
    SetupEffect(Setup(s, White, a, b, d, e), Black, a', b', d', e');
  }

  /** The two setups from a blank board leave it at rest with both rosters'
      30 pieces on it. */
  lemma PairSettled(s: State, a: nat, b: nat, d: nat, e: nat, a': nat, b': nat, d': nat, e': nat)
    requires Blank(s) && SetupSlots(a, b, d, e) && SetupSlots(a', b', d', e')
    ensures var o := Setup(Setup(s, White, a, b, d, e), Black, a', b', d', e');
      Settled(o) && |Bag(o)| == 2 * RosterSize
  {
    PairRosters(s, a, b, d, e, a', b', d', e');
    PairBag(s, a, b, d, e, a', b', d', e');
    HomesPlaced(Setup(Setup(s, White, a, b, d, e), Black, a', b', d', e'), a, b, d, e, a', b', d', e');
  }

  /** Empty slots at their own positions and fresh rosters make a blank
      board. */
  lemma BlankIf(s: State)
    requires Sized(s) && s.drag == NoDrag
    requires forall i :: 0 <= i < SlotCount ==> s.slots[i] == Slot(i, [])
    requires forall j :: 0 <= j < RosterSize ==> s.white[j] == Piece(None, None, White)
    requires forall j :: 0 <= j < RosterSize ==> s.black[j] == Piece(None, None, Black)
    ensures Blank(s)
  {
    PiecesEmpty(s.slots);
  }

  /** A game starts from a blank board. */
  lemma InitialBlank()
    ensures Blank(Initial)
  {
    BlankIf(Initial);
  }

  /** The opening layout `new_game` sets up, which is at rest: slot 12
      holds white pieces 0-1, slot 23 white 2-6, slot 4 white 7-9 and slot 6
      white 10-14; slot 11 holds black 0-1, slot 0 black 2-6, slot 19 black
      7-9 and slot 17 black 10-14; each roster entry is at its own position
      and records its slot; the 30 pieces are on the board, each as often
      as the rosters hold it; no drag is in progress. */
  lemma Opening()
    ensures var o := NewGame(Initial);
      Settled(o) && |Bag(o)| == 2 * RosterSize &&
      (forall i :: 0 <= i < SlotCount ==>
         o.slots[i] == Slot(i, SetupStack(White, i, 12, 23, 4, 6) + SetupStack(Black, i, 11, 0, 19, 17))) &&
      (forall p :: 0 <= p < RosterSize ==> o.white[p] == Piece(Some(p), Some(Home(p, 12, 23, 4, 6)), White)) &&
      (forall p :: 0 <= p < RosterSize ==> o.black[p] == Piece(Some(p), Some(Home(p, 11, 0, 19, 17)), Black))
  {
    InitialBlank();
    PairLayout(Initial, 12, 23, 4, 6, 11, 0, 19, 17);
    PairSettled(Initial, 12, 23, 4, 6, 11, 0, 19, 17);
  }
}
