/** The cursor of a menu with gaps. */
module Menu {

  const GAP := "\\g\\a\\p"

  predicate IsEntry(options: seq<string>, i: int) { 0 <= i < |options| && options[i] != GAP }

  /** Every option strictly between two positions, going down from the first around the end, is a gap. */
  ghost predicate GapsBetween(options: seq<string>, from: int, to: int) {
    if from < to then forall k :: from < k < to && 0 <= k < |options| ==> !IsEntry(options, k)
    else forall k :: (from < k || k < to) && 0 <= k < |options| ==> !IsEntry(options, k)
  }

  /** The cursor's next place: the first entry below it, around the end. */
  ghost predicate IsNext(options: seq<string>, from: int, to: int) {
    IsEntry(options, to) && GapsBetween(options, from, to)
  }

  ghost predicate IsPrevious(options: seq<string>, from: int, to: int) {
    IsEntry(options, to) && GapsBetween(options, to, from)
  }

  class Cursor {
    const options: seq<string>
    var hovered: nat
    var selected: bool

    constructor (options: seq<string>)
      ensures this.options == options && hovered == 0 && !selected
    {
      this.options, hovered, selected := options, 0, false;
    }

    method HoverNext()
      requires hovered < |options|
      modifies this
      ensures !selected && hovered < |options|
      ensures (exists e :: IsEntry(options, e)) ==> IsNext(options, old(hovered), hovered)
    {
      selected := false;
      var size := |options|;
      ghost var start := hovered;
      for i := 0 to size + 2
        invariant hovered < size && !selected
        invariant (exists e :: IsEntry(options, e)) ==> i <= size
        invariant i <= size && hovered == start + i ==> forall k :: start < k <= hovered ==> !IsEntry(options, k)
        invariant i <= size ==> hovered == start + i || hovered == start + i - size
        invariant 0 < i <= size && hovered == start + i - size ==>
                    forall k :: start < k < size || 0 <= k <= hovered ==> !IsEntry(options, k)
      {
        WrapsDown(hovered, size);
        hovered := (hovered + 1) % size;
        if options[hovered] != GAP {
          break;
        }
      }
    }

    method HoverPrevious()
      requires hovered < |options|
      modifies this
      ensures !selected && hovered < |options|
      ensures (exists e :: IsEntry(options, e)) ==> IsPrevious(options, old(hovered), hovered)
    {
      selected := false;
      var size := |options|;
      ghost var start := hovered;
      for i := 0 to size + 2
        invariant hovered < size && !selected
        invariant (exists e :: IsEntry(options, e)) ==> i <= size
        invariant i <= size && hovered == start - i ==> forall k :: hovered <= k < start ==> !IsEntry(options, k)
        invariant i <= size ==> hovered == start - i || hovered == start - i + size
        invariant 0 < i <= size && hovered == start - i + size ==>
                    forall k :: hovered <= k < size || 0 <= k < start ==> !IsEntry(options, k)
      {
        WrapsUp(hovered, size);
        hovered := (hovered + size - 1) % size;
        if options[hovered] != GAP {
          break;
        }
      }
    }
  }

  lemma WrapsDown(h: int, size: int)
    requires 0 <= h < size
    ensures (h + 1) % size == if h + 1 < size then h + 1 else 0
  {
  }

  lemma WrapsUp(h: int, size: int)
    requires 0 <= h < size
    ensures (h + size - 1) % size == if h > 0 then h - 1 else size - 1
  {
    if h > 0 {
      assert h + size - 1 == size * 1 + (h - 1);
    }
  }

  // ---------------------------------------------------------------- the ring of entries

  lemma NextIsUnique(options: seq<string>, from: int, a: int, b: int)
    requires 0 <= from < |options| && IsNext(options, from, a) && IsNext(options, from, b)
    ensures a == b
  {
  }

  lemma PreviousIsUnique(options: seq<string>, from: int, a: int, b: int)
    requires 0 <= from < |options| && IsPrevious(options, from, a) && IsPrevious(options, from, b)
    ensures a == b
  {
  }

  /** On an entry, each key undoes the other. */
  lemma KeysUndoEachOther(options: seq<string>, from: int, to: int, back: int)
    requires IsEntry(options, from)
    ensures IsNext(options, from, to) && IsPrevious(options, to, back) ==> back == from
    ensures IsPrevious(options, from, to) && IsNext(options, to, back) ==> back == from
  {
    if IsNext(options, from, to) && IsPrevious(options, to, back) {
      PreviousIsUnique(options, to, back, from);
    }
    if IsPrevious(options, from, to) && IsNext(options, to, back) {
      NextIsUnique(options, to, back, from);
    }
  }

  /** The positions below n that are entries, from the top. */
  function Entries(options: seq<string>, n: nat): (es: seq<int>)
    requires n <= |options|
    ensures forall i :: 0 <= i < |es| ==> IsEntry(options, es[i]) && es[i] < n
    ensures forall i, j :: 0 <= i < j < |es| ==> es[i] < es[j]
    ensures forall e :: IsEntry(options, e) && e < n ==> e in es
  {
    if n == 0 then [] else Entries(options, n - 1) + if IsEntry(options, n - 1) then [n - 1] else []
  }

  function Ring(options: seq<string>): seq<int> { Entries(options, |options|) }

  function After(i: nat, m: nat): nat { if i + 1 < m then i + 1 else 0 }

  lemma NextInRing(options: seq<string>, i: nat, to: int)
    requires i < |Ring(options)| && IsNext(options, Ring(options)[i], to)
    ensures to == Ring(options)[After(i, |Ring(options)|)]
  {
    var ring := Ring(options);
    var next := ring[After(i, |ring|)];
    forall k | IsEntry(options, k) ensures exists j :: 0 <= j < |ring| && ring[j] == k {
      assert k in ring;
    }
    assert forall j :: 0 <= j < |ring| ==> ring[j] <= ring[i] || ring[After(i, |ring|)] <= ring[j] || |ring| == i + 1;
    assert GapsBetween(options, ring[i], next);
    assert IsNext(options, ring[i], next);
    NextIsUnique(options, ring[i], to, next);
  }

  /** The place in the ring after k presses from place i. */
  function Turned(i: nat, k: nat, m: nat): int { if i + k < m then i + k else i + k - m }

  ghost predicate Presses(options: seq<string>, places: seq<int>) {
    forall k :: 0 <= k < |places| - 1 ==> IsNext(options, places[k], places[k + 1])
  }

  lemma {:induction false} PressesTurnTheRing(options: seq<string>, places: seq<int>, i: nat, k: nat)
    requires Presses(options, places) && k < |places|
    requires i < |Ring(options)| && places[0] == Ring(options)[i] && k <= |Ring(options)|
    ensures places[k] == Ring(options)[if k == |Ring(options)| then i else Turned(i, k, |Ring(options)|)]
    decreases k
  {
    if k > 0 {
      var m := |Ring(options)|;
      PressesTurnTheRing(options, places, i, k - 1);
      assert IsNext(options, places[k - 1], places[k - 1 + 1]);
      NextInRing(options, Turned(i, k - 1, m), places[k]);
    }
  }

  lemma PressesInRing(options: seq<string>, places: seq<int>) returns (i: nat)
    requires Presses(options, places) && |places| == |Ring(options)| + 1 && IsEntry(options, places[0])
    ensures i < |Ring(options)| && places[|Ring(options)|] == places[0]
    ensures forall k :: 0 <= k < |Ring(options)| ==> places[k] == Ring(options)[Turned(i, k, |Ring(options)|)]
  {
    var ring := Ring(options);
    assert places[0] in ring;
    i :| 0 <= i < |ring| && ring[i] == places[0];
    forall k | 0 <= k <= |ring| ensures places[k] == ring[if k == |ring| then i else Turned(i, k, |ring|)] {
      PressesTurnTheRing(options, places, i, k);
    }
  }

  /** As many presses of the key as there are entries visit each entry exactly once and come back. */
  lemma KeyVisitsEveryEntry(options: seq<string>, places: seq<int>)
    requires Presses(options, places) && |places| == |Ring(options)| + 1 && IsEntry(options, places[0])
    ensures places[|Ring(options)|] == places[0]
    ensures forall e :: IsEntry(options, e) ==> exists k :: 0 <= k < |Ring(options)| && places[k] == e
    ensures forall j, k :: 0 <= j < k < |Ring(options)| ==> places[j] != places[k]
  {
    var ring := Ring(options);
    var m := |ring|;
    var i := PressesInRing(options, places);
    forall e | IsEntry(options, e) ensures exists k :: 0 <= k < m && places[k] == e {
      assert e in ring;
      var j :| 0 <= j < m && ring[j] == e;
      var k := if j >= i then j - i else j - i + m;
      assert Turned(i, k, m) == j && places[k] == e;
    }
    forall j, k | 0 <= j < k < m ensures places[j] != places[k] {
      assert Turned(i, j, m) != Turned(i, k, m);
    }
  }
}
