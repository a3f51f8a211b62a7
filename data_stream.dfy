/** The byte stream the layout is written to and read from, modelled as a sequence of typed
    tokens read through a cursor. The binary encoding of each value is not modelled. */
module DataStreams {
  import opened Geometry
  import opened Wrappers

  /** A window's or dock widget's own serialized content. The layout saver only passes it
      through, so it stays opaque here. */
  datatype Payload = Payload(content: seq<int>)

  /** The content of a window whose layout has been cleared. */
  const EmptyLayout := Payload([])

  /** One value written with `<<`. */
  datatype Token =
    | IntValue(i: int)
    | StringValue(s: string)
    | RectValue(r: Rect)
    | BoolValue(b: bool)
    | PayloadValue(p: Payload)

  /** What a read yields, and where the cursor stands afterwards. */
  datatype Read<T> = Read(value: T, next: nat)

  /** The value a read yields when the next token is missing or of another kind. */
  const DefaultRect := Rect(0, 0, 0, 0)

  // A read that does not find a token of the kind it expects yields the default value of that
  // kind and leaves the cursor at the end, so that every later read yields defaults too.

  function ReadIntAt(data: seq<Token>, pos: nat): Read<int> {
    if pos < |data| && data[pos].IntValue? then Read(data[pos].i, pos + 1) else Read(0, |data|)
  }

  function ReadStringAt(data: seq<Token>, pos: nat): Read<string> {
    if pos < |data| && data[pos].StringValue? then Read(data[pos].s, pos + 1) else Read("", |data|)
  }

  function ReadRectAt(data: seq<Token>, pos: nat): Read<Rect> {
    if pos < |data| && data[pos].RectValue? then Read(data[pos].r, pos + 1) else Read(DefaultRect, |data|)
  }

  function ReadBoolAt(data: seq<Token>, pos: nat): Read<bool> {
    if pos < |data| && data[pos].BoolValue? then Read(data[pos].b, pos + 1) else Read(false, |data|)
  }

  /** A payload read yields None when the stream holds none at the cursor: the window or dock
      widget that reads it then fails to fill itself. */
  function ReadPayloadAt(data: seq<Token>, pos: nat): Read<Option<Payload>> {
    if pos < |data| && data[pos].PayloadValue? then Read(Some(data[pos].p), pos + 1) else Read(None, |data|)
  }

  /** A stream over a token sequence, read through the cursor `pos`. */
  class DataStream {
    var tokens: seq<Token>
    var pos: nat

    ghost predicate Valid()
      reads this
    {
      pos <= |tokens|
    }

    /** A stream that reads `data` from its start. */
    constructor Reader(data: seq<Token>)
      ensures Valid() && tokens == data && pos == 0
    {
      tokens, pos := data, 0;
    }

    method ReadInt() returns (n: int)
      requires Valid()
      modifies this
      ensures Valid() && tokens == old(tokens) && Read(n, pos) == ReadIntAt(tokens, old(pos))
    {
      var r := ReadIntAt(tokens, pos);
      n, pos := r.value, r.next;
    }

    method ReadString() returns (s: string)
      requires Valid()
      modifies this
      ensures Valid() && tokens == old(tokens) && Read(s, pos) == ReadStringAt(tokens, old(pos))
    {
      var r := ReadStringAt(tokens, pos);
      s, pos := r.value, r.next;
    }

    method ReadRect() returns (rect: Rect)
      requires Valid()
      modifies this
      ensures Valid() && tokens == old(tokens) && Read(rect, pos) == ReadRectAt(tokens, old(pos))
    {
      var r := ReadRectAt(tokens, pos);
      rect, pos := r.value, r.next;
    }

    method ReadBool() returns (b: bool)
      requires Valid()
      modifies this
      ensures Valid() && tokens == old(tokens) && Read(b, pos) == ReadBoolAt(tokens, old(pos))
    {
      var r := ReadBoolAt(tokens, pos);
      b, pos := r.value, r.next;
    }

    method ReadPayload() returns (p: Option<Payload>)
      requires Valid()
      modifies this
      ensures Valid() && tokens == old(tokens) && Read(p, pos) == ReadPayloadAt(tokens, old(pos))
    {
      var r := ReadPayloadAt(tokens, pos);
      p, pos := r.value, r.next;
    }
  }
}
