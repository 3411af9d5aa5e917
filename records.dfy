/** The plain records of the board: a piece, a slot (one of the 24 triangles),
    the data kept while a piece is being dragged, and a pointer position.
    The canvas handles that the records also carry (`index`) belong to the
    drawing layer and are not modelled. */
module Records {

  datatype Option<T> = None | Some(value: T)

  /** The two colours; the program spells them 'white' and 'black'. */
  datatype Color = White | Black

  function Other(c: Color): (o: Color)
    ensures o != c
  {
    if c == White then Black else White
  }

  /** A piece: `position` is its index in its colour's 15-entry roster (None
      until the opening layout assigns it), `slot` the slot it was last
      placed on, `color` its colour. */
  datatype Piece = Piece(position: Option<nat>, slot: Option<nat>, color: Color)

  /** A slot: its position on the board and its pieces in order of arrival;
      the last one is the top of the stack. */
  datatype Slot = Slot(position: nat, pieces: seq<Piece>)

  /** A slot as it is first made: no pieces. */
  function NewSlot(position: nat): (s: Slot)
    ensures s.position == position && |s.pieces| == 0
  {
    Slot(position, [])
  }

  /** A point of the board canvas (a pointer event's coordinates). */
  datatype Point = Point(x: int, y: int)

  /** What is remembered between picking a piece up and dropping it. */
  datatype DragData = DragData(fromSlot: Option<nat>, fromPosition: Option<nat>,
                               color: Option<Color>, x: int, y: int)

  /** DragData() with every argument left at its default. */
  const NoDrag: DragData := DragData(None, None, None, 0, 0)
}
