/** Cart lines, shared by the server cart and the browser-local cart: finding the line
    of an item, the quantity total, and the filter that drops an item. */
module CartLines {
  import opened Wrappers
  import opened ItemSchema

  /** One cart entry: the item it refers to, how many of it, and the unit price captured
      when the line was last added to or updated (integer cents). */
  datatype Line = Line(itemId: ItemId, quantity: int, price: int)

  /** The position of the first line for `id`, or -1 when there is none: the handlers'
      search by item id. */
  function IndexOf(lines: seq<Line>, id: ItemId): (i: int)
    ensures -1 <= i < |lines|
    ensures i >= 0 ==> lines[i].itemId == id && forall j :: 0 <= j < i ==> lines[j].itemId != id
    ensures i == -1 <==> forall j :: 0 <= j < |lines| ==> lines[j].itemId != id
  {
    if |lines| == 0 then -1
    else if lines[0].itemId == id then 0
    else
      var k := IndexOf(lines[1..], id);
      assert forall j :: 1 <= j < |lines| ==> lines[j] == lines[1..][j - 1];
      if k == -1 then -1 else k + 1
  }

  /** The linear search of `findIndex`, as the handlers run it. */
  method FindIndex(lines: seq<Line>, id: ItemId) returns (i: int)
    ensures i == IndexOf(lines, id)
  {
    i := 0;
    while i < |lines|
      invariant 0 <= i <= |lines|
      invariant forall j :: 0 <= j < i ==> lines[j].itemId != id
    {
      if lines[i].itemId == id {
        return;
      }
      i := i + 1;
    }
    i := -1;
  }

  predicate Contains(lines: seq<Line>, id: ItemId) {
    IndexOf(lines, id) >= 0
  }

  /** The line a lookup by item id finds: the cart seen as a partial map from items to lines. */
  function LineFor(lines: seq<Line>, id: ItemId): Option<Line> {
    var i := IndexOf(lines, id);
    if i >= 0 then Some(lines[i]) else None
  }

  /** The quantity held for `id`, 0 when the cart has no line for it. */
  function QuantityOf(lines: seq<Line>, id: ItemId): int {
    match LineFor(lines, id)
    case Some(l) => l.quantity
    case None => 0
  }

  /** At most one line per item. */
  predicate DistinctIds(lines: seq<Line>) {
    forall i, j :: 0 <= i < j < |lines| ==> lines[i].itemId != lines[j].itemId
  }

  /** The sum of the line quantities, folded from the front starting at 0. */
  function SumQuantities(lines: seq<Line>): int {
    if |lines| == 0 then 0 else lines[0].quantity + SumQuantities(lines[1..])
  }

  /** The lines of every other item, in their order. */
  function RemoveAll(lines: seq<Line>, id: ItemId): (r: seq<Line>)
    ensures |r| <= |lines|
    ensures forall l :: l in r <==> l in lines && l.itemId != id
  {
    if |lines| == 0 then []
    else if lines[0].itemId == id then RemoveAll(lines[1..], id)
    else [lines[0]] + RemoveAll(lines[1..], id)
  }

  // ---------------------------------------------------------------------------
  // Lookup

  /** Two line lists with the same item ids position by position find the same index. */
  lemma {:induction false} IndexOfSameIds(a: seq<Line>, b: seq<Line>, id: ItemId)
    requires |a| == |b|
    requires forall j :: 0 <= j < |a| ==> a[j].itemId == b[j].itemId
    ensures IndexOf(a, id) == IndexOf(b, id)
  {
    var x, y := IndexOf(a, id), IndexOf(b, id);
    if x >= 0 {
      assert b[x].itemId == id;
    }
    if y >= 0 {
      assert a[y].itemId == id;
    }
  }

  // ---------------------------------------------------------------------------
  // Quantity total

  lemma {:induction false} SumAppend(a: seq<Line>, b: seq<Line>)
    ensures SumQuantities(a + b) == SumQuantities(a) + SumQuantities(b)
  {
    if |a| == 0 {
      assert a + b == b;
    } else {
      assert (a + b)[1..] == a[1..] + b;
      SumAppend(a[1..], b);
    }
  }

  lemma {:induction false} SumReplace(lines: seq<Line>, k: int, l: Line)
    requires 0 <= k < |lines|
    ensures SumQuantities(lines[k := l]) == SumQuantities(lines) - lines[k].quantity + l.quantity
  {
    if k > 0 {
      assert lines[k := l][1..] == lines[1..][k - 1 := l];
      SumReplace(lines[1..], k - 1, l);
    }
  }

  // ---------------------------------------------------------------------------
  // Replacing the line of an item, and appending a line for a new item

  /** Overwriting the line found for `l.itemId` with `l`: the lookup of that item now gives
      `l`, every other lookup is unchanged, the total moves by the quantity difference and
      item ids stay distinct. */
  lemma {:induction false} ReplaceFound(lines: seq<Line>, l: Line)
    requires Contains(lines, l.itemId)
    ensures var r := lines[IndexOf(lines, l.itemId) := l];
      && LineFor(r, l.itemId) == Some(l)
      && (forall o :: o != l.itemId ==> LineFor(r, o) == LineFor(lines, o))
      && SumQuantities(r) == SumQuantities(lines) - QuantityOf(lines, l.itemId) + l.quantity
      && (DistinctIds(lines) ==> DistinctIds(r))
  {
    var i := IndexOf(lines, l.itemId);
    var r := lines[i := l];
    forall o ensures IndexOf(r, o) == IndexOf(lines, o) {
      IndexOfSameIds(r, lines, o);
    }
    SumReplace(lines, i, l);
  }

  /** Appending a line for an item the cart does not hold: that item's lookup gives the new
      line, every other lookup is unchanged, the total grows by its quantity and item ids
      stay distinct. */
  lemma {:induction false} AppendNew(lines: seq<Line>, l: Line)
    requires !Contains(lines, l.itemId)
    ensures var r := lines + [l];
      && LineFor(r, l.itemId) == Some(l)
      && (forall o :: o != l.itemId ==> LineFor(r, o) == LineFor(lines, o))
      && SumQuantities(r) == SumQuantities(lines) + l.quantity
      && (DistinctIds(lines) ==> DistinctIds(r))
  {
    var r := lines + [l];
    assert r[|lines|] == l;
    forall o | o != l.itemId ensures IndexOf(r, o) == IndexOf(lines, o) {
      var x := IndexOf(lines, o);
      if x >= 0 {
        assert r[x].itemId == o;
      }
    }
    SumAppend(lines, [l]);
    assert SumQuantities([l]) == l.quantity;
  }

  // ---------------------------------------------------------------------------
  // Removing an item

  /** Removing an item the cart does not hold returns the same list. */
  lemma {:induction false} RemoveAllAbsent(lines: seq<Line>, id: ItemId)
    requires !Contains(lines, id)
    ensures RemoveAll(lines, id) == lines
  {
    if |lines| > 0 {
      assert lines[0].itemId != id;
      assert !Contains(lines[1..], id) by {
        assert forall j :: 0 <= j < |lines[1..]| ==> lines[1..][j] == lines[j + 1];
      }
      RemoveAllAbsent(lines[1..], id);
      assert lines == [lines[0]] + lines[1..];
    }
  }

  /** The filter keeps the surviving lines in their order: it distributes over
      concatenation. */
  lemma {:induction false} RemoveAllConcat(a: seq<Line>, b: seq<Line>, id: ItemId)
    ensures RemoveAll(a + b, id) == RemoveAll(a, id) + RemoveAll(b, id)
  {
    if |a| == 0 {
      assert a + b == b;
    } else {
      assert (a + b)[0] == a[0];
      assert (a + b)[1..] == a[1..] + b;
      RemoveAllConcat(a[1..], b, id);
    }
  }

  /** Filtering keeps item ids distinct. */
  lemma {:induction false} RemoveAllDistinct(lines: seq<Line>, id: ItemId)
    requires DistinctIds(lines)
    ensures DistinctIds(RemoveAll(lines, id))
  {
    if |lines| > 0 {
      var t := lines[1..];
      assert DistinctIds(t) by {
        forall i, j | 0 <= i < j < |t| ensures t[i].itemId != t[j].itemId {
          assert t[i] == lines[i + 1] && t[j] == lines[j + 1];
        }
      }
      RemoveAllDistinct(t, id);
      if lines[0].itemId != id {
        var rt := RemoveAll(t, id);
        forall j | 0 <= j < |rt| ensures rt[j].itemId != lines[0].itemId {
          assert rt[j] in t;
          var k :| 0 <= k < |t| && t[k] == rt[j];
          assert t[k] == lines[k + 1];
        }
      }
    }
  }

  /** Looking up in a list with a first line `h`: `h` if it holds the item, else the rest. */
  lemma {:induction false} LineForCons(h: Line, t: seq<Line>, o: ItemId)
    ensures LineFor([h] + t, o) == if h.itemId == o then Some(h) else LineFor(t, o)
  {
    var s := [h] + t;
    assert s[1..] == t;
  }

  /** After the filter, no line for `id` is found and every other lookup is unchanged. */
  lemma {:induction false} RemoveAllLookup(lines: seq<Line>, id: ItemId)
    ensures LineFor(RemoveAll(lines, id), id) == None
    ensures forall o :: o != id ==> LineFor(RemoveAll(lines, id), o) == LineFor(lines, o)
  {
    if |lines| > 0 {
      var h, t := lines[0], lines[1..];
      assert lines == [h] + t;
      RemoveAllLookup(t, id);
      var rt := RemoveAll(t, id);
      forall o ensures LineFor(lines, o) == if h.itemId == o then Some(h) else LineFor(t, o) {
        LineForCons(h, t, o);
      }
      if h.itemId != id {
        assert RemoveAll(lines, id) == [h] + rt;
        forall o ensures LineFor([h] + rt, o) == if h.itemId == o then Some(h) else LineFor(rt, o) {
          LineForCons(h, rt, o);
        }
      }
    }
  }

  /** With distinct ids, removing an item lowers the total by exactly that item's quantity. */
  lemma {:induction false} RemoveAllSum(lines: seq<Line>, id: ItemId)
    requires DistinctIds(lines)
    ensures SumQuantities(RemoveAll(lines, id)) == SumQuantities(lines) - QuantityOf(lines, id)
  {
    if |lines| > 0 {
      var t := lines[1..];
      assert DistinctIds(t) by {
        forall i, j | 0 <= i < j < |t| ensures t[i].itemId != t[j].itemId {
          assert t[i] == lines[i + 1] && t[j] == lines[j + 1];
        }
      }
      RemoveAllSum(t, id);
      if lines[0].itemId == id {
        assert !Contains(t, id) by {
          forall j | 0 <= j < |t| ensures t[j].itemId != id {
            assert t[j] == lines[j + 1];
          }
        }
        assert QuantityOf(t, id) == 0;
        assert QuantityOf(lines, id) == lines[0].quantity;
      } else {
        assert RemoveAll(lines, id)[1..] == RemoveAll(t, id);
        assert IndexOf(lines, id) == (if IndexOf(t, id) == -1 then -1 else IndexOf(t, id) + 1);
      }
    }
  }
}
