/**
 * Stacking label sections top to bottom and replicating a whole label down a bulk sheet.
 * A label is a column of sections, each with a gap above it and a nominal height; each
 * section's image is composited at the section's top, and the canvas is the stack's extent
 * plus a trailing margin.
 */
module Layout {
  import opened Externals

  /** A band of a stacked label: the gap left above it and its nominal height. */
  datatype Section = Section(gap: nat, height: nat)

  /** The height a stack of sections takes: every gap and every height. */
  function Extent(secs: seq<Section>): nat {
    if secs == [] then 0
    else Extent(secs[..|secs| - 1]) + secs[|secs| - 1].gap + secs[|secs| - 1].height
  }

  /** A section added below a stack adds its gap and its height. */
  lemma ExtentSnoc(secs: seq<Section>, s: Section)
    ensures Extent(secs + [s]) == Extent(secs) + s.gap + s.height
  {
    assert (secs + [s])[..|secs|] == secs;
  }

  /** Where section `i` starts: below everything above it and its own gap. */
  function Top(secs: seq<Section>, i: nat): nat
    requires i < |secs|
  {
    Extent(secs[..i]) + secs[i].gap
  }

  /** Where section `i` ends. */
  function Bottom(secs: seq<Section>, i: nat): nat
    requires i < |secs|
  {
    Top(secs, i) + secs[i].height
  }

  lemma BottomIsPrefixExtent(secs: seq<Section>, i: nat)
    requires i < |secs|
    ensures Bottom(secs, i) == Extent(secs[..i + 1])
  {
    assert secs[..i + 1][..i] == secs[..i];
  }

  /** A longer prefix of a stack is at least as tall. */
  lemma {:induction false} ExtentMonotone(secs: seq<Section>, i: nat, j: nat)
    requires i <= j <= |secs|
    ensures Extent(secs[..i]) <= Extent(secs[..j])
    decreases j - i
  {
    if i < j {
      ExtentMonotone(secs, i, j - 1);
      assert secs[..j][..j - 1] == secs[..j - 1];
    }
  }

  /** Each section starts right after the one above it and its own gap. */
  lemma NextTop(secs: seq<Section>, i: nat)
    requires i + 1 < |secs|
    ensures Top(secs, i + 1) == Bottom(secs, i) + secs[i + 1].gap
  {
    BottomIsPrefixExtent(secs, i);
  }

  /**
   * The sections are in order and do not overlap: a section ends, and the next one's gap
   * passes, before any later section starts; and every section ends within the stack.
   */
  lemma StackOrdered(secs: seq<Section>, i: nat, j: nat)
    requires i < j < |secs|
    ensures Bottom(secs, i) + secs[j].gap <= Top(secs, j)
    ensures Bottom(secs, j) <= Extent(secs)
  {
    BottomIsPrefixExtent(secs, i);
    ExtentMonotone(secs, i + 1, j);
    BottomIsPrefixExtent(secs, j);
    ExtentMonotone(secs, j + 1, |secs|);
    assert secs[..|secs|] == secs;
  }

  /** The last section ends exactly where the stack does. */
  lemma LastEndsAtExtent(secs: seq<Section>)
    requires secs != []
    ensures Bottom(secs, |secs| - 1) == Extent(secs)
  {
    BottomIsPrefixExtent(secs, |secs| - 1);
    assert secs[..|secs|] == secs;
  }

  /** An image with the horizontal offset it is composited at. */
  datatype Placed = Placed(image: Image, left: int)

  /** The composite list of a stacked label: each image at its section's top. */
  function StackLayers(secs: seq<Section>, items: seq<Placed>): (r: seq<Layer>)
    requires |items| == |secs|
    ensures |r| == |secs|
    ensures forall i :: 0 <= i < |secs| ==> r[i].top == Top(secs, i) && r[i].image == items[i].image
  {
    seq(|secs|, i requires 0 <= i < |secs| => Layer(Top(secs, i), items[i].left, items[i].image))
  }

  /**
   * `sharp({ create: { width, height: extent + trailing, background: '#ffffff' } })
   * .composite(layers)` for a stacked label.
   */
  function Compose(width: nat, secs: seq<Section>, trailing: nat, items: seq<Placed>): (r: Image)
    requires |items| == |secs|
    ensures r.width == width && r.height == Extent(secs) + trailing
    ensures r.content.Composite? && r.content.layers == StackLayers(secs, items)
  {
    Image(width, Extent(secs) + trailing, Composite("#ffffff", StackLayers(secs, items)))
  }

  /** An image no taller than its section stays inside that section, clear of every other one. */
  lemma PlacedInsideSection(secs: seq<Section>, items: seq<Placed>, i: nat, j: nat)
    requires |items| == |secs| && i < |secs| && j < |secs|
    requires items[i].image.height <= secs[i].height
    ensures var l := StackLayers(secs, items)[i];
            && l.top + l.image.height <= Bottom(secs, i)
            && (i < j ==> l.top + l.image.height <= Top(secs, j))
            && (j < i ==> Bottom(secs, j) <= l.top)
  {
    if i < j {
      StackOrdered(secs, i, j);
    }
    if j < i {
      StackOrdered(secs, j, i);
    }
  }

  // ---------------------------------------------------------------------------
  // Bulk sheets: the same label repeated down the canvas

  /** A label's layers moved down by `dy` pixels. */
  function Shift(layers: seq<Layer>, dy: int): (r: seq<Layer>)
    ensures |r| == |layers|
    ensures forall k :: 0 <= k < |layers| ==>
              r[k] == Layer(layers[k].top + dy, layers[k].left, layers[k].image)
  {
    seq(|layers|, k requires 0 <= k < |layers| =>
      Layer(layers[k].top + dy, layers[k].left, layers[k].image))
  }

  /** The composite list of `n` copies: copy `i` is the label moved down by `i * labelHeight`. */
  function Replicated(unit: seq<Layer>, labelHeight: int, n: nat): seq<Layer> {
    if n == 0 then [] else Replicated(unit, labelHeight, n - 1) + Shift(unit, (n - 1) * labelHeight)
  }

  /** There is one composite per layer per copy. */
  lemma {:induction false} ReplicatedLength(unit: seq<Layer>, labelHeight: int, n: nat)
    ensures |Replicated(unit, labelHeight, n)| == n * |unit|
  {
    if n > 0 {
      ReplicatedLength(unit, labelHeight, n - 1);
    }
  }

  /** Index arithmetic for copy `i`, position `k`, of `n` copies of `u` layers. */
  lemma CopyIndexBound(i: nat, n: nat, u: nat, k: nat)
    requires i < n && k < u
    ensures i * u + k < n * u
    ensures i + 1 < n ==> i * u + k < (n - 1) * u
    ensures i + 1 == n ==> i * u == (n - 1) * u
  {
    MulMonotone(i + 1, n, u);
    if i + 1 < n {
      MulMonotone(i + 1, n - 1, u);
    }
  }

  /** Multiplying by the same natural number keeps the order. */
  lemma MulMonotone(a: nat, b: nat, u: nat)
    requires a <= b
    ensures a * u <= b * u
    ensures a > 0 ==> a * u == (a - 1) * u + u
  {
    assert b * u == a * u + (b - a) * u;
    if a > 0 {
      assert a * u == (a - 1) * u + 1 * u;
    }
  }

  /** Band `i` of `n` bands of height `h` starts at `i * h`, ends `h` later and ends within `n * h`. */
  lemma BandBounds(h: nat, n: nat, i: nat)
    requires i < n
    ensures 0 <= i * h && (i + 1) * h == i * h + h && h <= (i + 1) * h <= n * h
  {
    assert n * h == (i + 1) * h + (n - i - 1) * h;
  }

  /** Entry `i * |unit| + k` of the list is layer `k` of the label, moved down by `i * labelHeight`. */
  lemma {:induction false} ReplicatedCopy(unit: seq<Layer>, labelHeight: int, n: nat, i: nat, k: nat)
    requires i < n && k < |unit|
    ensures i * |unit| + k < |Replicated(unit, labelHeight, n)|
    ensures Replicated(unit, labelHeight, n)[i * |unit| + k]
            == Layer(unit[k].top + i * labelHeight, unit[k].left, unit[k].image)
  {
    var u := |unit|;
    ReplicatedLength(unit, labelHeight, n);
    ReplicatedLength(unit, labelHeight, n - 1);
    CopyIndexBound(i, n, u, k);
    var prev := Replicated(unit, labelHeight, n - 1);
    var last := Shift(unit, (n - 1) * labelHeight);
    assert Replicated(unit, labelHeight, n) == prev + last;
    if i + 1 < n {
      ReplicatedCopy(unit, labelHeight, n - 1, i, k);
    } else {
      assert (prev + last)[i * u + k] == last[k];
    }
  }

  /**
   * When every layer of the label lies within `[0, labelHeight)`, every layer of copy `i` lies
   * within the band `[i * labelHeight, (i + 1) * labelHeight)`, so the copies do not overlap and
   * all fit the `n * labelHeight` canvas.
   */
  lemma ReplicatedInBand(unit: seq<Layer>, labelHeight: int, n: nat, i: nat, k: nat)
    requires i < n && k < |unit|
    requires forall m :: 0 <= m < |unit| ==>
               0 <= unit[m].top && unit[m].top + unit[m].image.height <= labelHeight
    ensures i * |unit| + k < |Replicated(unit, labelHeight, n)|
    ensures var l := Replicated(unit, labelHeight, n)[i * |unit| + k];
            && i * labelHeight <= l.top
            && l.top + l.image.height <= (i + 1) * labelHeight
            && l.top + l.image.height <= n * labelHeight
  {
    ReplicatedCopy(unit, labelHeight, n, i, k);
    assert 0 <= labelHeight;
    assert (i + 1) * labelHeight == i * labelHeight + labelHeight;
    assert n * labelHeight == (i + 1) * labelHeight + (n - i - 1) * labelHeight;
  }

  /** The `for (let i = 0; i < qty; i++)` loop that pushes one copy of the label per iteration. */
  method ReplicateLabel(unit: seq<Layer>, labelHeight: int, n: nat) returns (composites: seq<Layer>)
    ensures composites == Replicated(unit, labelHeight, n)
  {
    composites := [];
    var i := 0;
    while i < n
      invariant 0 <= i <= n
      invariant composites == Replicated(unit, labelHeight, i)
    {
      composites := composites + Shift(unit, i * labelHeight);
      i := i + 1;
    }
  }
}
