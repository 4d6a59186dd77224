/** The binary heap behind ranking: pushes and replacements keep a largest key at the root. */
module QueryHeap {
  import opened TextOrder
  import opened QueryRows

  /** Sort key of a ranked row: number, then code, then trade date. */
  datatype Key = Key(number: real, code: string, date: string)

  datatype Entry = Entry(key: Key, order: nat, row: Row, bytes: nat)

  predicate KeyLe(a: Key, b: Key) {
    a.number < b.number
    || (a.number == b.number && (if a.code == b.code then StrLe(a.date, b.date) else StrLe(a.code, b.code)))
  }

  predicate KeyLt(a: Key, b: Key) { !KeyLe(b, a) }

  lemma KeyTotal(a: Key, b: Key)
    ensures KeyLe(a, b) || KeyLe(b, a)
  {
    StrLeTotal(a.code, b.code);
    StrLeTotal(a.date, b.date);
  }

  lemma KeyAntisymmetric(a: Key, b: Key)
    requires KeyLe(a, b) && KeyLe(b, a)
    ensures a == b
  {
    if a.code == b.code { StrLeAntisymmetric(a.date, b.date); } else { StrLeAntisymmetric(a.code, b.code); }
  }

  lemma KeyTransitive(a: Key, b: Key, c: Key)
    requires KeyLe(a, b) && KeyLe(b, c)
    ensures KeyLe(a, c)
  {
    if a.number == b.number == c.number {
      if a.code == b.code == c.code { StrLeTransitive(a.date, b.date, c.date); }
      else if a.code != b.code && b.code != c.code {
        StrLeTransitive(a.code, b.code, c.code);
        if a.code == c.code { StrLeAntisymmetric(a.code, b.code); }
      }
    }
  }

  function Parent(i: nat): nat
    requires i > 0
  {
    (i - 1) / 2
  }

  /** No entry has a larger key than its parent. */
  predicate IsHeap(h: seq<Entry>) { forall i :: 0 < i < |h| ==> KeyLe(h[i].key, h[Parent(i)].key) }

  lemma {:induction false} RootLargest(h: seq<Entry>, i: nat)
    requires IsHeap(h) && i < |h|
    ensures KeyLe(h[i].key, h[0].key)
  {
    if i == 0 { KeyTotal(h[0].key, h[0].key); }
    else {
      RootLargest(h, Parent(i));
      KeyTransitive(h[i].key, h[Parent(i)].key, h[0].key);
    }
  }

  function Swap(h: seq<Entry>, i: nat, j: nat): seq<Entry>
    requires i < |h| && j < |h|
  {
    h[i := h[j]][j := h[i]]
  }

  lemma SwapKeeps(h: seq<Entry>, i: nat, j: nat)
    requires i < |h| && j < |h|
    ensures multiset(Swap(h, i, j)) == multiset(h)
  {}

  /** `_siftdown`: move the entry at `pos` towards the root past smaller parents. */
  function SiftDown(h: seq<Entry>, pos: nat): seq<Entry>
    requires pos < |h|
    decreases pos
  {
    if pos > 0 && KeyLt(h[Parent(pos)].key, h[pos].key) then SiftDown(Swap(h, pos, Parent(pos)), Parent(pos)) else h
  }

  /** A heap but for the entry at `pos`, which may be larger than its parent. */
  predicate HeapBut(h: seq<Entry>, pos: nat) {
    && (forall i :: 0 < i < |h| && i != pos ==> KeyLe(h[i].key, h[Parent(i)].key))
    && (forall i :: 0 < i < |h| && Parent(i) == pos && 0 < pos < |h| ==> KeyLe(h[i].key, h[Parent(pos)].key))
  }

  lemma {:induction false} SiftDownHeap(h: seq<Entry>, pos: nat)
    requires pos < |h| && HeapBut(h, pos)
    ensures IsHeap(SiftDown(h, pos)) && multiset(SiftDown(h, pos)) == multiset(h)
    decreases pos
  {
    if pos > 0 {
      var p := Parent(pos);
      if KeyLt(h[p].key, h[pos].key) {
        var s := Swap(h, pos, p);
        SwapKeeps(h, pos, p);
        KeyTotal(h[p].key, h[pos].key);
        forall i | 0 < i < |s| && i != p ensures KeyLe(s[i].key, s[Parent(i)].key) {
          if i != pos && Parent(i) == p { KeyTransitive(h[i].key, h[p].key, h[pos].key); }
        }
        forall i | 0 < i < |s| && Parent(i) == p && p > 0 ensures KeyLe(s[i].key, s[Parent(p)].key) {
          if i != pos { KeyTransitive(h[i].key, h[p].key, h[Parent(p)].key); }
        }
        SiftDownHeap(s, p);
      }
    }
  }

  /** `heappush`. */
  function Push(h: seq<Entry>, e: Entry): seq<Entry> { SiftDown(h + [e], |h|) }

  lemma PushHeap(h: seq<Entry>, e: Entry)
    requires IsHeap(h)
    ensures IsHeap(Push(h, e)) && multiset(Push(h, e)) == multiset(h) + multiset{e}
  {
    var g := h + [e];
    assert forall i :: 0 < i < |h| ==> g[i] == h[i] && g[Parent(i)] == h[Parent(i)];
    SiftDownHeap(g, |h|);
  }

  /** The child that moves up: the larger one, the right one on a tie. */
  function LargerChild(h: seq<Entry>, pos: nat): (c: nat)
    requires 2 * pos + 1 < |h|
    ensures pos < c < |h| && Parent(c) == pos
    ensures forall i :: 0 < i < |h| && Parent(i) == pos ==> KeyLe(h[i].key, h[c].key)
  {
    var l, r := 2 * pos + 1, 2 * pos + 2;
    KeyTotal(h[l].key, h[l].key);
    if r < |h| then
      KeyTotal(h[l].key, h[r].key);
      KeyTotal(h[r].key, h[r].key);
      if KeyLt(h[r].key, h[l].key) then l else r
    else l
  }

  /** `_siftup`: bubble the larger child up until the entry reaches a leaf, then sift it down. */
  function SiftUp(h: seq<Entry>, pos: nat): seq<Entry>
    requires pos < |h|
    decreases |h| - pos
  {
    if 2 * pos + 1 >= |h| then SiftDown(h, pos)
    else
      var c := LargerChild(h, pos);
      SiftUp(Swap(h, pos, c), c)
  }

  /** A heap but for the entry at `pos`, which may be larger or smaller than anything. */
  predicate HeapAround(h: seq<Entry>, pos: nat) {
    && (forall i :: 0 < i < |h| && i != pos && Parent(i) != pos ==> KeyLe(h[i].key, h[Parent(i)].key))
    && (forall i :: 0 < i < |h| && Parent(i) == pos && 0 < pos < |h| ==> KeyLe(h[i].key, h[Parent(pos)].key))
  }

  lemma {:induction false} SiftUpHeap(h: seq<Entry>, pos: nat)
    requires pos < |h| && HeapAround(h, pos)
    ensures IsHeap(SiftUp(h, pos)) && multiset(SiftUp(h, pos)) == multiset(h)
    decreases |h| - pos
  {
    if 2 * pos + 1 >= |h| {
      assert forall i :: 0 < i < |h| ==> Parent(i) != pos;
      SiftDownHeap(h, pos);
    } else {
      var c := LargerChild(h, pos);
      var s := Swap(h, pos, c);
      SwapKeeps(h, pos, c);
      forall i | 0 < i < |s| && i != c && Parent(i) != c ensures KeyLe(s[i].key, s[Parent(i)].key) {
        if Parent(i) == pos { assert s[i] == h[i]; }
        else if i != pos { assert s[i] == h[i] && s[Parent(i)] == h[Parent(i)]; }
      }
      forall i | 0 < i < |s| && Parent(i) == c ensures KeyLe(s[i].key, s[Parent(c)].key) {
        assert s[i] == h[i] && s[pos] == h[c];
      }
      SiftUpHeap(s, c);
    }
  }

  /** `heapreplace`: the new entry takes the place of the root. */
  function Replace(h: seq<Entry>, e: Entry): seq<Entry>
    requires h != []
  {
    SiftUp(h[0 := e], 0)
  }

  lemma ReplaceHeap(h: seq<Entry>, e: Entry)
    requires IsHeap(h) && h != []
    ensures IsHeap(Replace(h, e)) && multiset(Replace(h, e)) == multiset([e] + h[1..])
  {
    RootReplaced(h, e);
    SiftUpHeap(h[0 := e], 0);
  }

  lemma RootReplaced(h: seq<Entry>, e: Entry)
    requires IsHeap(h) && h != []
    ensures HeapAround(h[0 := e], 0) && h[0 := e] == [e] + h[1..]
  {}
}
