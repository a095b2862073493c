/**
 * The flat buffer layout: per-bone rows of a fixed width stored one after
 * another, so bone `i`'s row occupies indices width*i .. width*i + width - 1.
 */
module BufferLayout {

  predicate RowsOfWidth(rows: seq<seq<real>>, width: nat) {
    forall k :: 0 <= k < |rows| ==> |rows[k]| == width
  }

  /** The rows laid out end to end. */
  function Flatten(rows: seq<seq<real>>, width: nat): (flat: seq<real>)
    requires RowsOfWidth(rows, width)
    ensures |flat| == width * |rows|
    decreases |rows|
  {
    if rows == [] then [] else Flatten(rows[..|rows| - 1], width) + rows[|rows| - 1]
  }

  /** The `width` values of bone `i`'s slot. */
  function Slot(buf: seq<real>, width: nat, i: nat): seq<real>
    requires width * i + width <= |buf|
  {
    buf[width * i .. width * i + width]
  }

  /** `n` copies of one row. */
  function Repeat(row: seq<real>, n: nat): seq<seq<real>> {
    seq(n, _ => row)
  }

  /** A buffer whose first |rows| slots are overwritten by `rows`, the rest kept from `prev`. */
  function Repack(prev: seq<real>, width: nat, rows: seq<seq<real>>): seq<real>
    requires RowsOfWidth(rows, width) && width * |rows| <= |prev|
  {
    Flatten(rows, width) + prev[width * |rows|..]
  }

  /** Slot `i` of the laid-out rows is row `i`. */
  lemma {:induction false} SlotOfFlatten(rows: seq<seq<real>>, width: nat, i: nat)
    requires RowsOfWidth(rows, width) && i < |rows|
    ensures width * i + width <= |Flatten(rows, width)|
    ensures Slot(Flatten(rows, width), width, i) == rows[i]
    decreases |rows|
  {
    var n := |rows| - 1;
    var front := Flatten(rows[..n], width);
    assert Flatten(rows, width) == front + rows[n];
    if i < n {
      SlotOfFlatten(rows[..n], width, i);
      assert Slot(front + rows[n], width, i) == Slot(front, width, i);
    } else {
      assert width * i == |front|;
      assert Slot(front + rows[n], width, i) == rows[n];
    }
  }

  /**
   * Repacking keeps the buffer's length; a slot below |rows| holds its row,
   * and every other slot keeps its previous contents.
   */
  lemma SlotOfRepack(prev: seq<real>, width: nat, rows: seq<seq<real>>, i: nat)
    requires RowsOfWidth(rows, width) && width * |rows| <= |prev|
    requires width * i + width <= |prev|
    ensures |Repack(prev, width, rows)| == |prev|
    ensures i < |rows| ==> Slot(Repack(prev, width, rows), width, i) == rows[i]
    ensures i >= |rows| ==> Slot(Repack(prev, width, rows), width, i) == Slot(prev, width, i)
  {
    var flat := Flatten(rows, width);
    if i < |rows| {
      SlotOfFlatten(rows, width, i);
      assert Slot(flat + prev[width * |rows|..], width, i) == Slot(flat, width, i);
    } else {
      assert width * i >= width * |rows|;
      assert Slot(flat + prev[width * |rows|..], width, i) == Slot(prev, width, i);
    }
  }

  /** Repacking the same rows a second time changes nothing. */
  lemma RepackIdempotent(prev: seq<real>, width: nat, rows: seq<seq<real>>)
    requires RowsOfWidth(rows, width) && width * |rows| <= |prev|
    ensures |Repack(prev, width, rows)| == |prev|
    ensures Repack(Repack(prev, width, rows), width, rows) == Repack(prev, width, rows)
  {
    var once := Repack(prev, width, rows);
    assert once[width * |rows|..] == prev[width * |rows|..];
  }

  /**
   * Storing row `i` into slot `i` of a buffer repacked with the first `i`
   * rows gives the buffer repacked with the first `i + 1` rows.
   */
  lemma RepackStep(prev: seq<real>, width: nat, rows: seq<seq<real>>, i: nat, cur: seq<real>, next: seq<real>)
    requires RowsOfWidth(rows, width) && i < |rows| && width * |rows| <= |prev|
    requires width * i + width <= |prev|
    requires cur == Repack(prev, width, rows[..i])
    requires next == cur[..width * i] + rows[i] + cur[width * i + width..]
    ensures next == Repack(prev, width, rows[..i + 1])
  {
    var off := width * i;
    var front := Flatten(rows[..i], width);
    assert |front| == off;
    assert cur == front + prev[off..];
    assert cur[..off] == front;
    assert cur[off + width..] == prev[off + width..];
    assert rows[..i + 1] == rows[..i] + [rows[i]];
    RepackExtend(prev, width, rows[..i], rows[i]);
  }

  /** Repacking as many rows as the buffer has slots leaves nothing of the previous contents. */
  lemma RepackAll(prev: seq<real>, width: nat, rows: seq<seq<real>>)
    requires RowsOfWidth(rows, width) && width * |rows| == |prev|
    ensures Repack(prev, width, rows) == Flatten(rows, width)
  {
  }

  /** Repacking one row more lays that row after the others and keeps the rest. */
  lemma RepackExtend(prev: seq<real>, width: nat, rows: seq<seq<real>>, row: seq<real>)
    requires RowsOfWidth(rows, width) && |row| == width && width * |rows| + width <= |prev|
    ensures RowsOfWidth(rows + [row], width)
    ensures Repack(prev, width, rows + [row])
         == Flatten(rows, width) + row + prev[width * |rows| + width..]
  {
    assert (rows + [row])[..|rows|] == rows;
  }

  /** Four element writes from `off` on replace the four values there by `row`. */
  lemma WriteRow4(before: seq<real>, after: seq<real>, off: nat, row: seq<real>)
    requires |row| == 4 && off + 4 <= |before|
    requires after == before[off := row[0]][off + 1 := row[1]][off + 2 := row[2]][off + 3 := row[3]]
    ensures after == before[..off] + row + before[off + 4..]
  {
  }

  /** Three element writes from `off` on replace the three values there by `row`. */
  lemma WriteRow3(before: seq<real>, after: seq<real>, off: nat, row: seq<real>)
    requires |row| == 3 && off + 3 <= |before|
    requires after == before[off := row[0]][off + 1 := row[1]][off + 2 := row[2]]
    ensures after == before[..off] + row + before[off + 3..]
  {
  }

  /**
   * Writes `vals` into `buf` starting at `off`, leaving the rest of `buf` as
   * it was: the effect of the vector-to-buffer helpers the skinner calls.
   */
  method ToBuf(vals: seq<real>, buf: array<real>, off: nat)
    requires off + |vals| <= buf.Length
    modifies buf
    ensures buf[..] == old(buf[..])[..off] + vals + old(buf[..])[off + |vals|..]
  {
    for k := 0 to |vals|
      invariant buf[..] == old(buf[..])[..off] + vals[..k] + old(buf[..])[off + k..]
    {
      buf[off + k] := vals[k];
      assert vals[..k + 1] == vals[..k] + [vals[k]];
    }
  }
}
