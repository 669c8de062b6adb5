/** How GameWorld's constructor assembles its collision list: rectangles of the object layers
    are pooled, coin blocks are merged in by reference identity, and flagged tiles of the tile
    layers are appended. A map object is an index into an object table, so Java's reference
    identity is equality of indices. */
module Loading {
  import opened Geometry
  import opened Coins

  /** containsRectInstance: whether the list holds this very object. */
  function ContainsRef(arr: seq<nat>, target: nat): (r: bool)
    ensures r <==> target in arr
  {
    if |arr| == 0 then false
    else arr[0] == target || ContainsRef(arr[1..], target)
  }

  /** No object appears twice. */
  predicate Distinct(arr: seq<nat>)
  {
    forall i, j :: 0 <= i < j < |arr| ==> arr[i] != arr[j]
  }

  /** Where an object sits in a list that holds it: the first position. */
  function IndexOfRef(arr: seq<nat>, target: nat): (k: nat)
    requires target in arr
    ensures k < |arr| && arr[k] == target
    ensures forall i :: 0 <= i < k ==> arr[i] != target
  {
    if arr[0] == target then 0 else 1 + IndexOfRef(arr[1..], target)
  }

  /** With no duplicates the position is the only one: comparing objects by identity and
      comparing positions by index agree. */
  lemma IndexIsIdentity(arr: seq<nat>, target: nat, i: nat)
    requires Distinct(arr) && target in arr && i < |arr|
    ensures arr[i] == target <==> i == IndexOfRef(arr, target)
  {
  }

  /** The constructor's merge loop as a fold: each coin block's rectangle, in order, is appended
      unless the list already holds that object. */
  function Merged(solidRefs: seq<nat>, coinRefs: seq<nat>): seq<nat>
  {
    if |coinRefs| == 0 then solidRefs
    else
      var m := Merged(solidRefs, coinRefs[..|coinRefs| - 1]);
      var c := coinRefs[|coinRefs| - 1];
      if ContainsRef(m, c) then m else m + [c]
  }

  /** What the merge promises: the solids loaded so far stay in place, every coin block's
      rectangle ends up among the solids, what is added comes from the coin blocks and was not
      a solid before, and an object already present is never added again. */
  lemma {:induction false} MergedFacts(solidRefs: seq<nat>, coinRefs: seq<nat>)
    ensures var m := Merged(solidRefs, coinRefs);
      && solidRefs <= m
      && (forall c :: c in coinRefs ==> c in m)
      && (forall k :: |solidRefs| <= k < |m| ==> m[k] in coinRefs && m[k] !in solidRefs)
      && (Distinct(solidRefs) ==> Distinct(m))
  {
    if |coinRefs| > 0 {
      var prev := coinRefs[..|coinRefs| - 1];
      MergedFacts(solidRefs, prev);
      var m := Merged(solidRefs, prev);
      var c := coinRefs[|coinRefs| - 1];
      assert coinRefs == prev + [c];
      if !ContainsRef(m, c) {
        var m' := m + [c];
        forall k | |solidRefs| <= k < |m'|
          ensures m'[k] in coinRefs && m'[k] !in solidRefs
        {
          if k < |m| {
            assert m'[k] == m[k];
          } else {
            assert m'[k] == c;
            assert solidRefs <= m;
          }
        }
      }
    }
  }

  /** The merge loop of the constructor: for each coin block, add its rectangle to the solids
      unless containsRectInstance finds it there already. */
  method MergeCoinRefs(solidRefs: seq<nat>, coinRefs: seq<nat>) returns (refs: seq<nat>)
    ensures refs == Merged(solidRefs, coinRefs)
  {
    refs := solidRefs;
    var i := 0;
    while i < |coinRefs|
      invariant 0 <= i <= |coinRefs|
      invariant refs == Merged(solidRefs, coinRefs[..i])
    {
      assert coinRefs[..i + 1][..i] == coinRefs[..i];
      if !ContainsRef(refs, coinRefs[i]) {
        refs := refs + [coinRefs[i]];
      }
      i := i + 1;
    }
    assert coinRefs[..i] == coinRefs;
  }

  /** The object layers the constructor reads by name, each as the list of its rectangle
      objects (an absent layer is an empty list). */
  datatype ObjectLayers = ObjectLayers(solid: seq<nat>, ground: seq<nat>, pipes: seq<nat>, bricks: seq<nat>,
                                       platforms: seq<nat>, mushrooms: seq<nat>, coinBlocks: seq<nat>)

  /** loadSolidRectsFromLayer for Solid, Ground, Pipes, Bricks, Platforms and Mushrooms, in that order. */
  function SolidRefs(l: ObjectLayers): seq<nat>
  {
    l.solid + l.ground + l.pipes + l.bricks + l.platforms + l.mushrooms
  }

  /** loadCoinBlocksFromLayer("CoinBlocks"), falling back to the Bricks layer when that gave none. */
  function CoinRefs(l: ObjectLayers): seq<nat>
  {
    if |l.coinBlocks| == 0 then l.bricks else l.coinBlocks
  }

  /** The merged list of the object layers names only objects of the table, and holds every
      coin block's rectangle. */
  lemma MergedLayersInRange(l: ObjectLayers, objectCount: nat)
    requires forall r :: r in SolidRefs(l) ==> r < objectCount
    requires forall r :: r in l.coinBlocks ==> r < objectCount
    ensures var m := Merged(SolidRefs(l), CoinRefs(l));
            && (forall k :: 0 <= k < |m| ==> m[k] < objectCount)
            && (forall c :: c in CoinRefs(l) ==> c in m)
  {
    var s := SolidRefs(l);
    var m := Merged(s, CoinRefs(l));
    MergedFacts(s, CoinRefs(l));
    forall k | 0 <= k < |m|
      ensures m[k] < objectCount
    {
      if k < |s| {
        assert m[k] == s[k] && s[k] in s;
      } else {
        // with the Bricks fallback nothing is appended, so k indexes an added coin-layer object
        if |l.coinBlocks| == 0 {
          BrickCoinsAddNothing(l);
        }
        assert m[k] in l.coinBlocks;
      }
    }
  }

  /** With the Bricks fallback every coin block is a brick and already a solid: the merge adds nothing. */
  lemma BrickCoinsAddNothing(l: ObjectLayers)
    requires |l.coinBlocks| == 0
    ensures Merged(SolidRefs(l), CoinRefs(l)) == SolidRefs(l)
  {
    BrickCoinsAddNothingFrom(SolidRefs(l), l.bricks);
  }

  lemma {:induction false} BrickCoinsAddNothingFrom(solidRefs: seq<nat>, coinRefs: seq<nat>)
    requires forall c :: c in coinRefs ==> c in solidRefs
    ensures Merged(solidRefs, coinRefs) == solidRefs
  {
    if |coinRefs| > 0 {
      BrickCoinsAddNothingFrom(solidRefs, coinRefs[..|coinRefs| - 1]);
      assert coinRefs[|coinRefs| - 1] in coinRefs;
    }
  }

  // ----- The tile-layer scan -----

  /** The three boolean tile properties the scan reads (a missing property is false). */
  datatype Cell = Cell(solid: bool, coinBlock: bool, mushroomSolid: bool)

  /** A map layer: an object layer, which the scan skips, or a tile grid indexed [y][x], where a
      cell may be empty. */
  datatype Layer = ObjectLayer | TileLayer(rows: seq<seq<Option<Cell>>>)

  /** getCell(x, y): outside the stored grid there is no tile. */
  function CellAt(rows: seq<seq<Option<Cell>>>, x: int, y: int): Option<Cell>
  {
    if 0 <= y < |rows| && 0 <= x < |rows[y]| then rows[y][x] else None
  }

  /** A rectangle the scan creates, and whether it is also registered as a coin block. */
  datatype Found = Found(rect: Rect, coin: bool)

  /** The tile at grid (x, y) in map pixels. */
  function TileRect(x: int, y: int, tw: int, th: int): Rect
  {
    Rect(x as real * tw as real, y as real * th as real, tw as real, th as real)
  }

  /** A tile carrying any of the three flags the scan looks for. */
  predicate Flagged(c: Option<Cell>)
  {
    c.Some? && (c.value.solid || c.value.coinBlock || c.value.mushroomSolid)
  }

  /** One cell: a tile carrying any of the three flags yields its rectangle, marked as a coin
      block when the coinBlock flag is set; an empty or unflagged cell yields nothing. */
  function CellFinds(c: Option<Cell>, x: int, y: int, tw: int, th: int): (r: seq<Found>)
    ensures |r| <= 1
    ensures |r| == 1 <==> Flagged(c)
    ensures |r| == 1 ==> r[0] == Found(TileRect(x, y, tw, th), c.value.coinBlock)
  {
    match c
    case None => []
    case Some(cell) =>
      if !cell.solid && !cell.coinBlock && !cell.mushroomSolid then []
      else [Found(TileRect(x, y, tw, th), cell.coinBlock)]
  }

  /** Appending finds, stated on the lists the scan extends: a solid list that started with s0
      and a coin list that started with c0. */
  lemma FindsApplied(s0: seq<Rect>, c0: seq<CoinBlock>, fs: seq<Found>, more: seq<Found>)
    ensures s0 + RectsOf(fs + more) == (s0 + RectsOf(fs)) + RectsOf(more)
    ensures c0 + CoinEntries(fs + more, |s0|) == (c0 + CoinEntries(fs, |s0|)) + CoinEntries(more, |s0 + RectsOf(fs)|)
  {
    AppendFinds(fs, more, |s0|);
  }

  /** What scanning one more cell appends: its tile to the solids when flagged, and an active
      coin block pointing at that new solid when it is also a coin block. */
  lemma CellStep(fs: seq<Found>, c: Option<Cell>, x: int, y: int, tw: int, th: int, base: nat)
    ensures var more := CellFinds(c, x, y, tw, th);
            && RectsOf(fs + more) == RectsOf(fs) + (if Flagged(c) then [TileRect(x, y, tw, th)] else [])
            && CoinEntries(fs + more, base)
               == CoinEntries(fs, base) + (if Flagged(c) && c.value.coinBlock then [CoinBlock(base + |fs|, true)] else [])
  {
    var more := CellFinds(c, x, y, tw, th);
    AppendFinds(fs, more, base);
    if Flagged(c) {
      assert CoinEntries(more, base + |fs|) == CoinEntries([], base + |fs|) + (if more[0].coin then [CoinBlock(base + |fs|, true)] else []);
    }
  }

  /** Row y, cells 0 .. n-1, left to right. */
  function RowFinds(rows: seq<seq<Option<Cell>>>, y: int, n: int, tw: int, th: int): seq<Found>
    decreases n
  {
    if n <= 0 then [] else RowFinds(rows, y, n - 1, tw, th) + CellFinds(CellAt(rows, n - 1, y), n - 1, y, tw, th)
  }

  /** Rows 0 .. m-1, bottom to top, each of width w. */
  function GridFinds(rows: seq<seq<Option<Cell>>>, m: int, w: int, tw: int, th: int): seq<Found>
    decreases m
  {
    if m <= 0 then [] else GridFinds(rows, m - 1, w, tw, th) + RowFinds(rows, m - 1, w, tw, th)
  }

  /** Scanning cell x of row y extends the lists grown from s0 and c0 by what that cell finds. */
  lemma RowStep(s0: seq<Rect>, c0: seq<CoinBlock>, rows: seq<seq<Option<Cell>>>, y: int, x: int, tw: int, th: int)
    requires 0 <= x
    ensures var fs := RowFinds(rows, y, x, tw, th);
            var more := CellFinds(CellAt(rows, x, y), x, y, tw, th);
            && s0 + RectsOf(RowFinds(rows, y, x + 1, tw, th)) == (s0 + RectsOf(fs)) + RectsOf(more)
            && c0 + CoinEntries(RowFinds(rows, y, x + 1, tw, th), |s0|)
               == (c0 + CoinEntries(fs, |s0|)) + CoinEntries(more, |s0 + RectsOf(fs)|)
  {
    var fs := RowFinds(rows, y, x, tw, th);
    var more := CellFinds(CellAt(rows, x, y), x, y, tw, th);
    assert RowFinds(rows, y, x + 1, tw, th) == fs + more;
    FindsApplied(s0, c0, fs, more);
  }

  /** Scanning row y extends the lists grown from s0 and c0 by what that row finds. */
  lemma GridStep(s0: seq<Rect>, c0: seq<CoinBlock>, rows: seq<seq<Option<Cell>>>, y: int, w: int, tw: int, th: int)
    requires 0 <= y
    ensures var fs := GridFinds(rows, y, w, tw, th);
            var more := RowFinds(rows, y, w, tw, th);
            && s0 + RectsOf(GridFinds(rows, y + 1, w, tw, th)) == (s0 + RectsOf(fs)) + RectsOf(more)
            && c0 + CoinEntries(GridFinds(rows, y + 1, w, tw, th), |s0|)
               == (c0 + CoinEntries(fs, |s0|)) + CoinEntries(more, |s0 + RectsOf(fs)|)
  {
    var fs := GridFinds(rows, y, w, tw, th);
    var more := RowFinds(rows, y, w, tw, th);
    assert GridFinds(rows, y + 1, w, tw, th) == fs + more;
    FindsApplied(s0, c0, fs, more);
  }

  /** What one layer contributes over a w by h map. */
  function LayerFinds(layer: Layer, w: int, h: int, tw: int, th: int): seq<Found>
  {
    match layer
    case ObjectLayer => []
    case TileLayer(rows) => GridFinds(rows, h, w, tw, th)
  }

  /** scanTileLayersForSolidsAndCoinBlocks over layers 0 .. l-1, in order. */
  function ScanFinds(layers: seq<Layer>, l: nat, w: int, h: int, tw: int, th: int): seq<Found>
    requires l <= |layers|
  {
    if l == 0 then [] else ScanFinds(layers, l - 1, w, h, tw, th) + LayerFinds(layers[l - 1], w, h, tw, th)
  }

  /** Cell (x, y) of the grid produced f. */
  predicate CellProduces(rows: seq<seq<Option<Cell>>>, x: int, y: int, tw: int, th: int, f: Found)
  {
    f in CellFinds(CellAt(rows, x, y), x, y, tw, th)
  }

  /** A flagged cell of row y is found exactly when its column is among the first n. */
  lemma {:induction false} RowFindsExactly(rows: seq<seq<Option<Cell>>>, y: int, n: int, tw: int, th: int, f: Found)
    ensures f in RowFinds(rows, y, n, tw, th) <==> exists x :: 0 <= x < n && CellProduces(rows, x, y, tw, th, f)
    decreases n
  {
    if n > 0 {
      var prev := RowFinds(rows, y, n - 1, tw, th);
      var cell := CellFinds(CellAt(rows, n - 1, y), n - 1, y, tw, th);
      assert RowFinds(rows, y, n, tw, th) == prev + cell;
      RowFindsExactly(rows, y, n - 1, tw, th, f);
      if f in cell {
        assert 0 <= n - 1 < n && CellProduces(rows, n - 1, y, tw, th, f);
      }
      forall x | 0 <= x < n && CellProduces(rows, x, y, tw, th, f)
        ensures f in prev + cell
      {
        if x < n - 1 {
          assert exists x' :: 0 <= x' < n - 1 && CellProduces(rows, x', y, tw, th, f) by {
            assert 0 <= x < n - 1 && CellProduces(rows, x, y, tw, th, f);
          }
        }
      }
    }
  }

  /** The same for a grid: a rectangle is found iff some flagged cell inside the map produced it. */
  lemma {:induction false} GridFindsExactly(rows: seq<seq<Option<Cell>>>, m: int, w: int, tw: int, th: int, f: Found)
    ensures f in GridFinds(rows, m, w, tw, th) <==>
            exists x, y :: 0 <= y < m && 0 <= x < w && CellProduces(rows, x, y, tw, th, f)
    decreases m
  {
    if m > 0 {
      var prev := GridFinds(rows, m - 1, w, tw, th);
      var row := RowFinds(rows, m - 1, w, tw, th);
      assert GridFinds(rows, m, w, tw, th) == prev + row;
      GridFindsExactly(rows, m - 1, w, tw, th, f);
      RowFindsExactly(rows, m - 1, w, tw, th, f);
      if f in prev {
        var x, y :| 0 <= y < m - 1 && 0 <= x < w && CellProduces(rows, x, y, tw, th, f);
        assert 0 <= y < m;
      } else if f in row {
        var x :| 0 <= x < w && CellProduces(rows, x, m - 1, tw, th, f);
        assert 0 <= m - 1 < m;
      }
      forall x, y | 0 <= y < m && 0 <= x < w && CellProduces(rows, x, y, tw, th, f)
        ensures f in prev + row
      {
        if y < m - 1 {
          assert f in prev;
        } else {
          assert f in row;
        }
      }
    }
  }

  /** Cell (x, y) of a tile layer lies inside a w by h map and produced f. */
  predicate ProducedBy(layer: Layer, x: int, y: int, w: int, h: int, tw: int, th: int, f: Found)
  {
    layer.TileLayer? && 0 <= y < h && 0 <= x < w && CellProduces(layer.rows, x, y, tw, th, f)
  }

  /** One layer: an object layer adds nothing, a tile layer exactly its flagged cells inside the map. */
  lemma LayerFindsExactly(layer: Layer, w: int, h: int, tw: int, th: int, f: Found)
    ensures f in LayerFinds(layer, w, h, tw, th) <==> exists x, y :: ProducedBy(layer, x, y, w, h, tw, th, f)
  {
    if layer.TileLayer? {
      GridFindsExactly(layer.rows, h, w, tw, th, f);
      if f in LayerFinds(layer, w, h, tw, th) {
        var x, y :| 0 <= y < h && 0 <= x < w && CellProduces(layer.rows, x, y, tw, th, f);
        assert ProducedBy(layer, x, y, w, h, tw, th, f);
      }
    }
  }

  /** Over all layers: a found rectangle is the tile (x, y) of a flagged cell of some tile layer
      inside the map, coin-marked iff that cell is a coin block; object layers add nothing. */
  lemma {:induction false} ScanFindsExactly(layers: seq<Layer>, l: nat, w: int, h: int, tw: int, th: int, f: Found)
    requires l <= |layers|
    ensures f in ScanFinds(layers, l, w, h, tw, th) <==>
            exists li, x, y :: 0 <= li < l && ProducedBy(layers[li], x, y, w, h, tw, th, f)
  {
    if l > 0 {
      var prev := ScanFinds(layers, l - 1, w, h, tw, th);
      var cur := LayerFinds(layers[l - 1], w, h, tw, th);
      assert ScanFinds(layers, l, w, h, tw, th) == prev + cur;
      ScanFindsExactly(layers, l - 1, w, h, tw, th, f);
      LayerFindsExactly(layers[l - 1], w, h, tw, th, f);
      if f in prev {
        var li, x, y :| 0 <= li < l - 1 && ProducedBy(layers[li], x, y, w, h, tw, th, f);
        assert 0 <= li < l;
      } else if f in cur {
        var x, y :| ProducedBy(layers[l - 1], x, y, w, h, tw, th, f);
        assert 0 <= l - 1 < l;
      }
      forall li, x, y | 0 <= li < l && ProducedBy(layers[li], x, y, w, h, tw, th, f)
        ensures f in prev + cur
      {
        if li < l - 1 {
          assert exists li', x', y' :: 0 <= li' < l - 1 && ProducedBy(layers[li'], x', y', w, h, tw, th, f) by {
            assert 0 <= li < l - 1 && ProducedBy(layers[li], x, y, w, h, tw, th, f);
          }
        } else {
          var last := layers[l - 1];
          assert exists x', y' :: ProducedBy(last, x', y', w, h, tw, th, f) by {
            assert li == l - 1 && ProducedBy(last, x, y, w, h, tw, th, f);
          }
        }
      }
    }
  }

  /** The rectangles the scan appends to the solids, in scan order. */
  function RectsOf(fs: seq<Found>): (r: seq<Rect>)
    ensures |r| == |fs|
  {
    if |fs| == 0 then [] else RectsOf(fs[..|fs| - 1]) + [fs[|fs| - 1].rect]
  }

  /** The i-th rectangle appended is the i-th one found. */
  lemma {:induction false} RectsOfIndex(fs: seq<Found>, i: nat)
    requires i < |fs|
    ensures RectsOf(fs)[i] == fs[i].rect
  {
    if i < |fs| - 1 {
      RectsOfIndex(fs[..|fs| - 1], i);
    }
  }

  /** The coin blocks the scan appends, when the solids held base rectangles before: each found
      coin tile becomes an active block pointing at the solid created for it. */
  function CoinEntries(fs: seq<Found>, base: nat): seq<CoinBlock>
  {
    if |fs| == 0 then []
    else CoinEntries(fs[..|fs| - 1], base) + (if fs[|fs| - 1].coin then [CoinBlock(base + |fs| - 1, true)] else [])
  }

  /** A coin block that is active and points at a coin-marked find among fs, whose solids are
      numbered from base. */
  predicate SoundEntry(fs: seq<Found>, base: nat, c: CoinBlock)
  {
    c.active && base <= c.solid < base + |fs| && fs[c.solid - base].coin
  }

  /** Every coin block the scan appends is active and points at a coin-marked find's own new
      solid. */
  lemma {:induction false} CoinEntriesSound(fs: seq<Found>, base: nat)
    ensures forall k :: 0 <= k < |CoinEntries(fs, base)| ==> SoundEntry(fs, base, CoinEntries(fs, base)[k])
  {
    if |fs| > 0 {
      var prev := fs[..|fs| - 1];
      CoinEntriesSound(prev, base);
      var cs := CoinEntries(fs, base);
      var ps := CoinEntries(prev, base);
      assert cs == ps + (if fs[|fs| - 1].coin then [CoinBlock(base + |fs| - 1, true)] else []);
      forall k | 0 <= k < |ps|
        ensures SoundEntry(fs, base, cs[k])
      {
        assert cs[k] == ps[k];
        assert SoundEntry(prev, base, ps[k]);
        assert prev[ps[k].solid - base] == fs[ps[k].solid - base];
      }
    }
  }

  /** Every coin-marked find gets its active coin block. */
  lemma {:induction false} CoinEntriesComplete(fs: seq<Found>, base: nat)
    ensures forall i :: 0 <= i < |fs| && fs[i].coin ==> CoinBlock(base + i, true) in CoinEntries(fs, base)
  {
    if |fs| > 0 {
      var prev := fs[..|fs| - 1];
      CoinEntriesComplete(prev, base);
      forall i | 0 <= i < |prev| && fs[i].coin
        ensures CoinBlock(base + i, true) in CoinEntries(fs, base)
      {
        assert prev[i] == fs[i];
      }
    }
  }

  /** The appended coin blocks point at strictly increasing solids, so no solid gets two. */
  lemma {:induction false} CoinEntriesOrdered(fs: seq<Found>, base: nat)
    ensures forall k, k' :: 0 <= k < k' < |CoinEntries(fs, base)| ==> CoinEntries(fs, base)[k].solid < CoinEntries(fs, base)[k'].solid
  {
    if |fs| > 0 {
      var prev := fs[..|fs| - 1];
      CoinEntriesOrdered(prev, base);
      CoinEntriesSound(prev, base);
      var cs := CoinEntries(fs, base);
      var ps := CoinEntries(prev, base);
      assert cs == ps + (if fs[|fs| - 1].coin then [CoinBlock(base + |fs| - 1, true)] else []);
      forall k, k' | 0 <= k < k' < |cs|
        ensures cs[k].solid < cs[k'].solid
      {
        assert cs[k] == ps[k];
        assert SoundEntry(prev, base, ps[k]);
        if k' < |ps| {
          assert cs[k'] == ps[k'];
        }
      }
    }
  }

  /** Appending finds: what the scan has appended so far extends by what the next cell adds. */
  lemma {:induction false} AppendFinds(fs: seq<Found>, more: seq<Found>, base: nat)
    ensures RectsOf(fs + more) == RectsOf(fs) + RectsOf(more)
    ensures CoinEntries(fs + more, base) == CoinEntries(fs, base) + CoinEntries(more, base + |fs|)
    decreases |more|
  {
    if |more| > 0 {
      var last := more[|more| - 1];
      var init := more[..|more| - 1];
      assert (fs + more)[..|fs + more| - 1] == fs + init;
      AppendFinds(fs, init, base);
    } else {
      assert fs + more == fs;
    }
  }
}
