/**
 * src/components/CityGrid.tsx: the card grid. A card dragged over another card is moved there
 * by copying the city list and splicing the copy twice; the zones the clock hook watches are
 * the cities' zones in grid order.
 */
module CityGrid {
  import opened Wrappers
  import opened Types

  /** `splice(i, 1)`: the sequence without its element at `i`. */
  function RemoveAt<T>(s: seq<T>, i: int): (r: seq<T>)
    requires 0 <= i < |s|
    ensures |r| == |s| - 1
    ensures forall k :: 0 <= k < i ==> r[k] == s[k]
    ensures forall k :: i <= k < |r| ==> r[k] == s[k + 1]
  {
    s[..i] + s[i + 1..]
  }

  /** `splice(i, 0, x)`: `x` inserted before position `i`. */
  function InsertAt<T>(s: seq<T>, i: int, x: T): (r: seq<T>)
    requires 0 <= i <= |s|
    ensures |r| == |s| + 1 && r[i] == x
    ensures forall k :: 0 <= k < i ==> r[k] == s[k]
    ensures forall k :: i < k < |r| ==> r[k] == s[k - 1]
  {
    s[..i] + [x] + s[i..]
  }

  /** The list after moving the element at `from` to position `to`. */
  function Moved<T>(s: seq<T>, from: int, to: int): seq<T>
    requires 0 <= from < |s| && 0 <= to < |s|
  {
    InsertAt(RemoveAt(s, from), to, s[from])
  }

  /** A move is a permutation that puts the moved element at `to`, shifts the elements between
    * the two positions by one, and leaves everything else in place. */
  lemma MovedIsPermutation<T>(s: seq<T>, from: int, to: int)
    requires 0 <= from < |s| && 0 <= to < |s|
    ensures |Moved(s, from, to)| == |s|
    ensures multiset(Moved(s, from, to)) == multiset(s)
    ensures Moved(s, from, to)[to] == s[from]
    ensures RemoveAt(Moved(s, from, to), to) == RemoveAt(s, from)
    ensures forall k :: 0 <= k < |s| && (k < from || k > to) && (k < to || k > from) ==> Moved(s, from, to)[k] == s[k]
    ensures forall k :: from <= k < to ==> Moved(s, from, to)[k] == s[k + 1]
    ensures forall k :: to < k <= from ==> Moved(s, from, to)[k] == s[k - 1]
  {
    var m := Moved(s, from, to);
    var rest := RemoveAt(s, from);
    assert s == s[..from] + [s[from]] + s[from + 1..];
    assert rest == s[..from] + s[from + 1..];
    assert multiset(s) == multiset(rest) + multiset{s[from]};
    assert m == rest[..to] + [s[from]] + rest[to..];
    assert rest == rest[..to] + rest[to..];
    assert multiset(m) == multiset(rest) + multiset{s[from]};
    assert RemoveAt(m, to) == rest;
  }

  /** moveCard: the dragged city is taken out of a copy of the list and put back at the hover
    * position; the list passed in is left as it was. */
  method MoveCard(cities: seq<City>, dragIndex: int, hoverIndex: int) returns (newCities: seq<City>)
    requires 0 <= dragIndex < |cities| && 0 <= hoverIndex < |cities|
    ensures newCities == Moved(cities, dragIndex, hoverIndex)
  {
    var draggedCity := cities[dragIndex];
    newCities := cities;
    newCities := newCities[..dragIndex] + newCities[dragIndex + 1..];
    newCities := newCities[..hoverIndex] + [draggedCity] + newCities[hoverIndex..];
  }

  /** The hover test: no move onto itself, and none until the pointer has crossed the middle of
    * the hovered card in the direction of the drag. `pointerY` and `middleY` are the pointer's
    * offset from the card's top and half the card's height. */
  predicate ShouldMove(dragIndex: int, hoverIndex: int, pointerY: real, middleY: real)
    ensures dragIndex == hoverIndex ==> !ShouldMove(dragIndex, hoverIndex, pointerY, middleY)
    ensures ShouldMove(dragIndex, hoverIndex, pointerY, middleY) && dragIndex < hoverIndex ==> pointerY >= middleY
    ensures ShouldMove(dragIndex, hoverIndex, pointerY, middleY) && dragIndex > hoverIndex ==> pointerY <= middleY
  {
    && dragIndex != hoverIndex
    && !(dragIndex < hoverIndex && pointerY < middleY)
    && !(dragIndex > hoverIndex && pointerY > middleY)
  }

  /** What a hover does: nothing, a moved list handed to the reorder callback, or a TypeError
    * when the grid was given no callback (`onReorderCities` undefined) and moveCard calls it. */
  datatype HoverResult = NoMove | Reordered(newCities: seq<City>) | Threw

  /** The outcome of the hover handler for a card dragged from `dragIndex` over `hoverIndex`;
    * `hasCallback` says whether the host passed a function as `onReorderCities`. */
  function HoverOutcome(cities: seq<City>, dragIndex: int, hoverIndex: int, mounted: bool, hasCallback: bool,
                        pointerY: real, middleY: real): (r: HoverResult)
    requires 0 <= dragIndex < |cities| && 0 <= hoverIndex < |cities|
    ensures r.NoMove? <==> !mounted || !ShouldMove(dragIndex, hoverIndex, pointerY, middleY)
    ensures r.Threw? <==> mounted && ShouldMove(dragIndex, hoverIndex, pointerY, middleY) && !hasCallback
    ensures r.Reordered? ==> r.newCities == Moved(cities, dragIndex, hoverIndex)
  {
    if !mounted || !ShouldMove(dragIndex, hoverIndex, pointerY, middleY) then NoMove
    else if !hasCallback then Threw
    else Reordered(Moved(cities, dragIndex, hoverIndex))
  }

  /** With a callback, a hover that passes the test hands over a permutation of the list with the
    * dragged city at the hovered position. */
  lemma WiredHoverMovesCard(cities: seq<City>, dragIndex: int, hoverIndex: int, mounted: bool,
                            pointerY: real, middleY: real)
    requires 0 <= dragIndex < |cities| && 0 <= hoverIndex < |cities|
    requires mounted && ShouldMove(dragIndex, hoverIndex, pointerY, middleY)
    ensures var r := HoverOutcome(cities, dragIndex, hoverIndex, mounted, true, pointerY, middleY);
            r.Reordered? && multiset(r.newCities) == multiset(cities)
            && |r.newCities| == |cities| && r.newCities[hoverIndex] == cities[dragIndex]
  {
    MovedIsPermutation(cities, dragIndex, hoverIndex);
  }

  /** As App.tsx wires the grid (no callback), dragging the first of two cards down past the
    * middle of the second throws instead of swapping them, which a wired grid does. */
  lemma ShippedDragThrows(a: City, b: City)
    ensures HoverOutcome([a, b], 0, 1, true, false, 30.0, 20.0) == Threw
    ensures HoverOutcome([a, b], 0, 1, true, true, 30.0, 20.0) == Reordered([b, a])
  {
    assert ShouldMove(0, 1, 30.0, 20.0);
    MovedAt([a, b], 0, 1, 0);
    MovedAt([a, b], 0, 1, 1);
    assert Moved([a, b], 0, 1) == [b, a];
  }

  /** The item react-dnd carries during a drag; `hover` rewrites its index after a move. */
  class DragItem {
    var id: string
    var index: int

    constructor (id: string, index: int)
      ensures this.id == id && this.index == index
    {
      this.id := id;
      this.index := index;
    }

    /** The card at `hoverIndex` is hovered (`mounted` is false when the card has no DOM node).
      * The item records the card's new position only after the callback has taken the moved
      * list; when the callback throws, the index stays. */
    method Hover(cities: seq<City>, hoverIndex: int, mounted: bool, hasCallback: bool, pointerY: real, middleY: real)
      returns (result: HoverResult)
      requires 0 <= index < |cities| && 0 <= hoverIndex < |cities|
      modifies this
      ensures result == HoverOutcome(cities, old(index), hoverIndex, mounted, hasCallback, pointerY, middleY)
      ensures result.Reordered? ==> index == hoverIndex && result.newCities[index] == cities[old(index)]
      ensures !result.Reordered? ==> index == old(index)
      ensures id == old(id)
    {
      if !mounted {
        return NoMove;
      }
      var dragIndex := index;
      if !ShouldMove(dragIndex, hoverIndex, pointerY, middleY) {
        return NoMove;
      }
      var newCities := MoveCard(cities, dragIndex, hoverIndex);
      if !hasCallback {
        return Threw;
      }
      MovedIsPermutation(cities, dragIndex, hoverIndex);
      result := Reordered(newCities);
      index := hoverIndex;
    }
  }

  /** The zones handed to the clock hook: each city's zone, in grid order. */
  function GridTimezones(cities: seq<City>): (zones: seq<string>)
    ensures |zones| == |cities|
    ensures forall i :: 0 <= i < |cities| ==> zones[i] == cities[i].timezone
  {
    seq(|cities|, i requires 0 <= i < |cities| => cities[i].timezone)
  }

  /** The position in the old list of the element a move puts at `k`. */
  function SourceIndex(from: int, to: int, k: int): int {
    if k == to then from
    else if from <= k < to then k + 1
    else if to < k <= from then k - 1
    else k
  }

  /** Each position of the moved list holds the element from its source position. */
  lemma MovedAt<T>(s: seq<T>, from: int, to: int, k: int)
    requires 0 <= from < |s| && 0 <= to < |s| && 0 <= k < |s|
    ensures |Moved(s, from, to)| == |s| && 0 <= SourceIndex(from, to, k) < |s|
    ensures Moved(s, from, to)[k] == s[SourceIndex(from, to, k)]
  {
    MovedIsPermutation(s, from, to);
  }

  /** Moving a card moves its zone the same way, so the watched zones are the same multiset. */
  lemma MovedTimezones(cities: seq<City>, from: int, to: int)
    requires 0 <= from < |cities| && 0 <= to < |cities|
    ensures GridTimezones(Moved(cities, from, to)) == Moved(GridTimezones(cities), from, to)
    ensures multiset(GridTimezones(Moved(cities, from, to))) == multiset(GridTimezones(cities))
  {
    var zones := GridTimezones(cities);
    MovedIsPermutation(zones, from, to);
    var moved := Moved(cities, from, to);
    var a := GridTimezones(moved);
    var b := Moved(zones, from, to);
    MovedAt(cities, from, to, 0);
    assert |a| == |b|;
    forall k | 0 <= k < |a|
      ensures a[k] == b[k]
    {
      MovedAt(cities, from, to, k);
      MovedAt(zones, from, to, k);
      assert a[k] == moved[k].timezone;
    }
  }
}
