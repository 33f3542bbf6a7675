/**
 * The render pipeline: `expandLabelsByStock` turns queued items into one physical
 * label per printed copy, `chunkArray` cuts a sequence into pages positionally, and
 * `generateHtml` lays each page out as one cell per label. Only the page/cell
 * structure of the generated document is modelled, not its HTML text.
 */
module Labels {

  import opened Strings

  /** A queued record: what the bot pushes onto `queue` (name, description, price, stock). */
  datatype Item = Item(name: string, description: string, price: nat, stock: nat)

  /** `generateHtml` lays out `chunkArray(labels, 9)`: a 3-by-3 grid per page. */
  const PageCapacity: nat := 9

  // ---------------------------------------------------------------------------
  // expandLabelsByStock

  /** `l.stock || 1`: how many copies of an item are printed. */
  function Copies(item: Item): (n: nat)
    ensures n >= 1
    ensures item.stock != 0 ==> n == item.stock
    ensures item.stock == 0 ==> n == 1
  {
    if item.stock == 0 then 1 else item.stock
  }

  /** The largest length `Array(n)` accepts, 2^32 - 1; a larger `n` throws a `RangeError`. */
  const MaxArrayLength: nat := 0xFFFF_FFFF

  /** Every item's copy count is a length `Array` accepts, so the expansion does not throw. */
  predicate Expandable(items: seq<Item>) {
    forall i :: 0 <= i < |items| ==> Copies(items[i]) <= MaxArrayLength
  }

  /** `Array(n).fill(x)` */
  function Repeat<T>(x: T, n: nat): seq<T>
  {
    seq(n, _ => x)
  }

  /** The number of physical labels a queue expands to: the sum of its items' copies. */
  function TotalCopies(items: seq<Item>): nat
  {
    if items == [] then 0 else Copies(items[0]) + TotalCopies(items[1..])
  }

  /** `labels.flatMap(l => Array(l.stock || 1).fill(l))` */
  function Expand(items: seq<Item>): (labels: seq<Item>)
    ensures |labels| == TotalCopies(items)
    ensures |labels| >= |items|
  {
    if items == [] then [] else Repeat(items[0], Copies(items[0])) + Expand(items[1..])
  }

  lemma {:induction false} TotalCopiesAppend(a: seq<Item>, b: seq<Item>)
    ensures TotalCopies(a + b) == TotalCopies(a) + TotalCopies(b)
    decreases |a|
  {
    if a == [] {
      assert a + b == b;
    } else {
      assert (a + b)[0] == a[0] && (a + b)[1..] == a[1..] + b;
      TotalCopiesAppend(a[1..], b);
    }
  }

  /** Expansion distributes over concatenation: it never reorders across items. */
  lemma {:induction false} ExpandAppend(a: seq<Item>, b: seq<Item>)
    ensures Expand(a + b) == Expand(a) + Expand(b)
    decreases |a|
  {
    if a == [] {
      assert a + b == b;
    } else {
      assert (a + b)[0] == a[0] && (a + b)[1..] == a[1..] + b;
      ExpandAppend(a[1..], b);
    }
  }

  /**
   * The `i`-th item occupies one contiguous block of exactly `Copies(items[i])`
   * labels, starting right after the labels of the items before it.
   */
  lemma ExpandBlock(items: seq<Item>, i: nat)
    requires i < |items|
    ensures var start := TotalCopies(items[..i]);
      && start + Copies(items[i]) <= |Expand(items)|
      && Expand(items)[start .. start + Copies(items[i])] == Repeat(items[i], Copies(items[i]))
  {
    var before, after := items[..i], items[i + 1..];
    assert items == before + [items[i]] + after;
    ExpandAppend(before + [items[i]], after);
    ExpandAppend(before, [items[i]]);
    assert Expand([items[i]]) == Repeat(items[i], Copies(items[i])) + Expand([]);
  }

  /** Every label is a queued item and every queued item yields at least one label. */
  lemma {:induction false} ExpandMembers(items: seq<Item>, x: Item)
    ensures x in Expand(items) <==> x in items
    decreases |items|
  {
    if items != [] {
      ExpandMembers(items[1..], x);
      var block := Repeat(items[0], Copies(items[0]));
      assert block[0] == items[0];
      assert x in block <==> x == items[0];
      assert x in items <==> x == items[0] || x in items[1..] by {
        assert items == [items[0]] + items[1..];
      }
    }
  }

  /** With every stock 1 (or absent) the expansion is the queue itself. */
  lemma {:induction false} ExpandSingles(items: seq<Item>)
    requires forall i :: 0 <= i < |items| ==> items[i].stock <= 1
    ensures Expand(items) == items
    decreases |items|
  {
    if items != [] {
      ExpandSingles(items[1..]);
      assert Repeat(items[0], Copies(items[0])) == [items[0]];
      assert [items[0]] + items[1..] == items;
    }
  }

  // ---------------------------------------------------------------------------
  // chunkArray

  /** `Math.ceil(n / d)` for a positive `d`. */
  function CeilDiv(n: nat, d: nat): nat
    requires d > 0
  {
    (n + d - 1) / d
  }

  function Min(x: int, y: int): int {
    if x <= y then x else y
  }

  lemma CeilDivBounds(n: nat, d: nat)
    requires d > 0
    ensures CeilDiv(n, d) * d >= n
    ensures CeilDiv(n, d) * d <= n + d - 1
    ensures n == 0 <==> CeilDiv(n, d) == 0
  {
    var q, r := (n + d - 1) / d, (n + d - 1) % d;
    assert n + d - 1 == q * d + r && 0 <= r < d;
    if q == 0 {
      assert n + d - 1 == r;
    } else {
      assert q * d >= d;
    }
  }

  /** Page `i` of `n` elements starts inside them, and a page that is not the last is full. */
  lemma PageBounds(n: nat, d: nat, i: nat)
    requires d > 0 && i < CeilDiv(n, d)
    ensures i * d < n
    ensures i + 1 < CeilDiv(n, d) ==> i * d + d < n
  {
    var q := CeilDiv(n, d);
    CeilDivBounds(n, d);
    assert (i + 1) * d <= q * d;
    if i + 1 < q {
      assert (i + 2) * d <= q * d;
    }
  }

  /** `array.slice(i * size, i * size + size)` for a page index `i` that `chunkArray` produces. */
  function Page<T>(a: seq<T>, size: nat, i: nat): (p: seq<T>)
    requires size > 0 && i < CeilDiv(|a|, size)
    ensures 0 < |p| <= size
    ensures i + 1 < CeilDiv(|a|, size) ==> |p| == size
    ensures i * size + |p| <= |a| && p == a[i * size .. i * size + |p|]
    ensures i * size + |p| == Min((i + 1) * size, |a|)
    ensures forall j :: 0 <= j < |p| ==> i * size + j < |a| && p[j] == a[i * size + j]
  {
    PageBounds(|a|, size, i);
    assert (i + 1) * size == i * size + size;
    a[i * size .. Min(i * size + size, |a|)]
  }

  /**
   * `chunkArray(a, size)`: ceil(|a| / size) pages, page `i` holding the elements
   * `i * size` up to (not including) `i * size + size`, clipped at the end of `a`.
   */
  function Chunk<T>(a: seq<T>, size: nat): (pages: seq<seq<T>>)
    requires size > 0
    ensures |pages| == CeilDiv(|a|, size)
    ensures pages == [] <==> a == []
    ensures forall i :: 0 <= i < |pages| - 1 ==> |pages[i]| == size
    ensures |pages| > 0 ==> 0 < |pages[|pages| - 1]| <= size
    ensures forall i, j :: 0 <= i < |pages| && 0 <= j < |pages[i]| ==>
      i * size + j < |a| && pages[i][j] == a[i * size + j]
  {
    CeilDivBounds(|a|, size);
    seq(CeilDiv(|a|, size), i requires 0 <= i < CeilDiv(|a|, size) => Page(a, size, i))
  }

  /** `pages.flat()`: the pages one after another. */
  function Flatten<T>(pages: seq<seq<T>>): seq<T>
  {
    if pages == [] then [] else pages[0] + Flatten(pages[1..])
  }

  lemma {:induction false} FlattenAppend<T>(a: seq<seq<T>>, b: seq<seq<T>>)
    ensures Flatten(a + b) == Flatten(a) + Flatten(b)
    decreases |a|
  {
    if a == [] {
      assert a + b == b;
    } else {
      assert (a + b)[0] == a[0] && (a + b)[1..] == a[1..] + b;
      FlattenAppend(a[1..], b);
    }
  }

  lemma {:induction false} ChunkPrefix<T>(a: seq<T>, size: nat, k: nat)
    requires size > 0 && k <= CeilDiv(|a|, size)
    ensures Flatten(Chunk(a, size)[..k]) == a[..Min(k * size, |a|)]
    decreases k
  {
    var pages := Chunk(a, size);
    if k == 0 {
      assert pages[..0] == [];
    } else {
      var i := k - 1;
      ChunkPrefix(a, size, i);
      var start := i * size;
      PageBounds(|a|, size, i);
      assert Min(start, |a|) == start;
      MulSucc(i, size);
      var p := Page(a, size, i);
      assert start + |p| == Min(k * size, |a|);
      assert pages[i] == p;
      assert pages[..k] == pages[..i] + [p];
      FlattenSnoc(pages[..i], p);
      SliceJoin(a, start, start + |p|);
    }
  }

  lemma MulSucc(i: nat, d: nat)
    ensures (i + 1) * d == i * d + d
  {
  }

  lemma FlattenSnoc<T>(pages: seq<seq<T>>, p: seq<T>)
    ensures Flatten(pages + [p]) == Flatten(pages) + p
  {
    FlattenAppend(pages, [p]);
    assert Flatten([p]) == p + Flatten([]);
  }

  lemma SliceJoin<T>(a: seq<T>, i: nat, j: nat)
    requires i <= j <= |a|
    ensures a[..i] + a[i .. j] == a[..j]
  {
  }

  /** Concatenating the pages in order gives back exactly the input. */
  lemma ChunkFlatten<T>(a: seq<T>, size: nat)
    requires size > 0
    ensures Flatten(Chunk(a, size)) == a
  {
    var pages := Chunk(a, size);
    ChunkPrefix(a, size, |pages|);
    CeilDivBounds(|a|, size);
    assert pages[..|pages|] == pages;
    assert a[..|a|] == a;
  }

  // ---------------------------------------------------------------------------
  // generateHtml: page and cell structure

  /**
   * One label cell: the name shown in the header, one entry per line of the
   * description (`description.split("\n")`) and the price shown at the bottom.
   */
  datatype Cell = Cell(name: string, specLines: seq<string>, price: nat)

  function CellOf(item: Item): (c: Cell)
    ensures c.name == item.name && c.price == item.price
    ensures Join(c.specLines, '\n') == item.description
    ensures |c.specLines| >= 1 && forall k :: 0 <= k < |c.specLines| ==> '\n' !in c.specLines[k]
  {
    JoinSplit(item.description, '\n');
    Cell(item.name, Split(item.description, '\n'), item.price)
  }

  /** `pageLabels.map(label => ...)`: one cell per label, in order. */
  function Cells(labels: seq<Item>): (cells: seq<Cell>)
    ensures |cells| == |labels|
  {
    seq(|labels|, i requires 0 <= i < |labels| => CellOf(labels[i]))
  }

  function CellPages(chunks: seq<seq<Item>>): (pages: seq<seq<Cell>>)
    ensures |pages| == |chunks|
  {
    seq(|chunks|, p requires 0 <= p < |chunks| => Cells(chunks[p]))
  }

  /**
   * The document `generateHtml(labels)` describes: one page per chunk of nine
   * labels, the cell in position `j` of page `p` showing label `9 * p + j`.
   */
  function Layout(labels: seq<Item>): (pages: seq<seq<Cell>>)
    ensures |pages| == CeilDiv(|labels|, PageCapacity)
    ensures forall p :: 0 <= p < |pages| - 1 ==> |pages[p]| == PageCapacity
    ensures |pages| > 0 ==> 0 < |pages[|pages| - 1]| <= PageCapacity
    ensures forall p, j :: 0 <= p < |pages| && 0 <= j < |pages[p]| ==>
      PageCapacity * p + j < |labels| && pages[p][j] == CellOf(labels[PageCapacity * p + j])
  {
    CellPages(Chunk(labels, PageCapacity))
  }

  lemma CellsAppend(a: seq<Item>, b: seq<Item>)
    ensures Cells(a + b) == Cells(a) + Cells(b)
  {
  }

  lemma {:induction false} FlattenCellPages(chunks: seq<seq<Item>>)
    ensures Flatten(CellPages(chunks)) == Cells(Flatten(chunks))
    decreases |chunks|
  {
    if chunks != [] {
      FlattenCellPages(chunks[1..]);
      assert CellPages(chunks)[1..] == CellPages(chunks[1..]);
      CellsAppend(chunks[0], Flatten(chunks[1..]));
    }
  }

  /** Reading the document page by page, cell by cell, visits every label once, in order. */
  lemma LayoutFlatten(labels: seq<Item>)
    ensures Flatten(Layout(labels)) == Cells(labels)
  {
    FlattenCellPages(Chunk(labels, PageCapacity));
    ChunkFlatten(labels, PageCapacity);
  }

  /** Ten labels printed once each fill one page of nine and a second page holding the tenth. */
  lemma TenSinglesTwoPages(items: seq<Item>)
    requires |items| == 10 && forall i :: 0 <= i < |items| ==> items[i].stock <= 1
    ensures var pages := Layout(Expand(items));
      |pages| == 2 && |pages[0]| == 9 && |pages[1]| == 1 && pages[1][0] == CellOf(items[9])
  {
    ExpandSingles(items);
    assert CeilDiv(10, PageCapacity) == 2;
  }

}
