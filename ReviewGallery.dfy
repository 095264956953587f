/** The review gallery of src/components/ReviewGallery.js: the overlay that
    projects the server's text-region boxes from the image's natural size
    onto its displayed size, the filter of successful results, and the
    previous/next/thumbnail navigation over them. The 2D canvas is modelled
    as its size plus the list of drawing commands issued since it was last
    cleared; styles, fonts and colours are not modelled. Coordinates are
    exact reals. */
module ReviewGallery {
  import opened Types
  import Decimal

  // ---------------------------------------------------------------------------
  // Overlay

  /** One entry of `imageData.blocks`; `bbox` should be `[x, y, w, h]` in the
      natural image's pixels, but may be missing or have another length. */
  datatype Block = Block(bbox: Option<seq<real>>)

  /** The detail record of one result; `blocks` may be missing. */
  datatype ImageDetail = ImageDetail(stem: string, blocks: Option<seq<Block>>)

  /** The `<img>` element: whether it has finished loading, its displayed
      size (`offsetWidth`/`offsetHeight`) and its natural size. */
  datatype ImageElement = ImageElement(complete: bool, offsetWidth: nat, offsetHeight: nat,
                                       naturalWidth: nat, naturalHeight: nat)

  datatype Command =
    | StrokeRect(x: real, y: real, w: real, h: real)
    | FillRect(x: real, y: real, w: real, h: real)
    | FillText(text: string, x: real, y: real)

  /** Why a call did or did not draw. `AwaitingLoad` means the image was not
      complete: the call only registered itself as the image's `onload`. */
  datatype DrawOutcome = NothingToDraw | AwaitingLoad | Drawn

  predicate ValidBox(b: Block) {
    b.bbox.Some? && |b.bbox.value| == 4
  }

  /** The factor from natural to displayed pixels along one axis. */
  function Scale(displayed: nat, natural: nat): (s: real)
    requires natural > 0
    ensures s * (natural as real) == displayed as real
    ensures s >= 0.0
    ensures s == 0.0 <==> displayed == 0
  {
    displayed as real / natural as real
  }

  /** What one block contributes: nothing for a malformed box; otherwise the
      scaled outline, a 30x20 label tile just above its top-left corner and
      the 1-based index of the block in the full list. */
  function BoxCommands(b: Block, index: nat, sx: real, sy: real): (c: seq<Command>)
    ensures |c| == if ValidBox(b) then 3 else 0
    ensures ValidBox(b) ==> c[0].StrokeRect? && c[1].FillRect? && c[2].FillText?
    ensures ValidBox(b) ==>
      c[1].x == c[0].x && c[1].y == c[0].y - 20.0 && c[1].w == 30.0 && c[1].h == 20.0
    ensures ValidBox(b) ==>
      c[2].text == Decimal.Show(index + 1) &&
      c[1].x < c[2].x < c[1].x + c[1].w && c[1].y < c[2].y < c[1].y + c[1].h
  {
    if !ValidBox(b) then []
    else
      var box := b.bbox.value;
      var x := box[0] * sx;
      var y := box[1] * sy;
      [StrokeRect(x, y, box[2] * sx, box[3] * sy),
       FillRect(x, y - 20.0, 30.0, 20.0),
       FillText(Decimal.Show(index + 1), x + 8.0, y - 6.0)]
  }

  /** The commands the `forEach` over all blocks issues, in block order. */
  function Overlay(blocks: seq<Block>, sx: real, sy: real): (c: seq<Command>)
    ensures |c| % 3 == 0 && |c| <= 3 * |blocks|
  {
    if |blocks| == 0 then []
    else Overlay(blocks[..|blocks| - 1], sx, sy) + BoxCommands(blocks[|blocks| - 1], |blocks| - 1, sx, sy)
  }

  /** The overlay grows block by block, as the `forEach` issues it. */
  lemma OverlayStep(blocks: seq<Block>, i: nat, sx: real, sy: real)
    requires i < |blocks|
    ensures Overlay(blocks[..i + 1], sx, sy) == Overlay(blocks[..i], sx, sy) + BoxCommands(blocks[i], i, sx, sy)
  {
    assert blocks[..i + 1][..i] == blocks[..i];
  }

  /** The number of blocks with a 4-element box. */
  function ValidCount(blocks: seq<Block>): (n: nat)
    ensures n <= |blocks|
  {
    if |blocks| == 0 then 0
    else ValidCount(blocks[..|blocks| - 1]) + (if ValidBox(blocks[|blocks| - 1]) then 1 else 0)
  }

  /** Three commands per well-formed box and none for any other block. */
  lemma {:induction false} OverlayLength(blocks: seq<Block>, sx: real, sy: real)
    ensures |Overlay(blocks, sx, sy)| == 3 * ValidCount(blocks)
  {
    if |blocks| > 0 {
      OverlayLength(blocks[..|blocks| - 1], sx, sy);
    }
  }

  /** Every well-formed box is drawn, whatever malformed blocks precede or
      follow it: block `i`'s three commands sit right after those of the
      well-formed blocks before it. */
  lemma {:induction false} OverlayAt(blocks: seq<Block>, sx: real, sy: real, i: nat)
    requires i < |blocks| && ValidBox(blocks[i])
    ensures 3 * ValidCount(blocks[..i]) + 3 <= |Overlay(blocks, sx, sy)|
    ensures Overlay(blocks, sx, sy)[3 * ValidCount(blocks[..i]) .. 3 * ValidCount(blocks[..i]) + 3]
            == BoxCommands(blocks[i], i, sx, sy)
  {
    var n := |blocks|;
    var init := blocks[..n - 1];
    var head := Overlay(init, sx, sy);
    var last := BoxCommands(blocks[n - 1], n - 1, sx, sy);
    assert Overlay(blocks, sx, sy) == head + last;
    OverlayLength(init, sx, sy);
    if i == n - 1 {
      assert blocks[..i] == init;
      assert (head + last)[|head|..|head| + 3] == last;
    } else {
      assert init[..i] == blocks[..i];
      OverlayAt(init, sx, sy, i);
      var k := 3 * ValidCount(blocks[..i]);
      assert (head + last)[k..k + 3] == head[k..k + 3];
    }
  }

  /** The number of outlines drawn. */
  function RectCount(cmds: seq<Command>): nat {
    if |cmds| == 0 then 0
    else RectCount(cmds[..|cmds| - 1]) + (if cmds[|cmds| - 1].StrokeRect? then 1 else 0)
  }

  lemma {:induction false} RectCountAppend(a: seq<Command>, b: seq<Command>)
    ensures RectCount(a + b) == RectCount(a) + RectCount(b)
  {
    if |b| > 0 {
      assert (a + b)[..|a + b| - 1] == a + b[..|b| - 1];
      RectCountAppend(a, b[..|b| - 1]);
    } else {
      assert a + b == a;
    }
  }

  /** A block contributes one outline if its box is well formed, else none. */
  lemma BoxRectCount(b: Block, index: nat, sx: real, sy: real)
    ensures RectCount(BoxCommands(b, index, sx, sy)) == if ValidBox(b) then 1 else 0
  {
    var cmds := BoxCommands(b, index, sx, sy);
    if ValidBox(b) {
      assert |cmds| == 3;
      assert cmds[..|cmds| - 1] == [cmds[0], cmds[1]];
      assert [cmds[0], cmds[1]][..1] == [cmds[0]];
      assert [cmds[0]][..0] == [];
      assert RectCount([cmds[0]]) == 1;
      assert RectCount([cmds[0], cmds[1]]) == 1;
    }
  }

  /** Exactly one outline per block whose box has four components. */
  lemma {:induction false} OverlayRectCount(blocks: seq<Block>, sx: real, sy: real)
    ensures RectCount(Overlay(blocks, sx, sy)) == ValidCount(blocks)
  {
    if |blocks| > 0 {
      var n := |blocks|;
      OverlayRectCount(blocks[..n - 1], sx, sy);
      var tail := BoxCommands(blocks[n - 1], n - 1, sx, sy);
      RectCountAppend(Overlay(blocks[..n - 1], sx, sy), tail);
      BoxRectCount(blocks[n - 1], n - 1, sx, sy);
    }
  }

  lemma HalfOf(x: real)
    requires x > 0.0
    ensures x / (2.0 * x) == 0.5
  {
  }

  /** Showing an image at half its natural size scales by one half. */
  lemma HalfScale(d: nat)
    requires d > 0
    ensures Scale(d, 2 * d) == 0.5
  {
    var x := d as real;
    assert Scale(d, 2 * d) == x / (2.0 * x);
    HalfOf(x);
  }

  /** Natural size (2w, 2h) shown at (w, h): the box [10, 20, 30, 40] is
      outlined at (5, 10) with size (15, 20). */
  lemma HalfSizeExample(w: nat, h: nat)
    requires w > 0 && h > 0
    ensures
      var sx := Scale(w, 2 * w);
      var sy := Scale(h, 2 * h);
      BoxCommands(Block(Some([10.0, 20.0, 30.0, 40.0])), 0, sx, sy)[0] == StrokeRect(5.0, 10.0, 15.0, 20.0)
  {
    HalfScale(w);
    HalfScale(h);
  }

  /** A three-component box next to a good one: one outline is drawn, and its
      label is "2", the good block's position in the full list. */
  lemma MalformedBoxExample(sx: real, sy: real)
    ensures
      var blocks := [Block(Some([1.0, 2.0, 3.0])), Block(Some([10.0, 20.0, 30.0, 40.0]))];
      RectCount(Overlay(blocks, sx, sy)) == 1 &&
      Overlay(blocks, sx, sy)[2] == FillText("2", 10.0 * sx + 8.0, 20.0 * sy - 6.0)
  {
    var blocks := [Block(Some([1.0, 2.0, 3.0])), Block(Some([10.0, 20.0, 30.0, 40.0]))];
    OverlayRectCount(blocks, sx, sy);
    assert blocks[..1] == [blocks[0]];
    assert blocks[..1][..0] == [];
    assert ValidCount(blocks) == 1;
    assert Overlay(blocks[..1], sx, sy) == [];
  }

  /** Whether a call to `drawBoundingBoxes` draws: not without detail data,
      its blocks, the canvas and the image; later, on load, if the image is
      still loading. */
  function Readiness(imageData: Option<ImageDetail>, canvasMounted: bool, img: Option<ImageElement>): (o: DrawOutcome)
    ensures o != NothingToDraw <==>
      imageData.Some? && imageData.value.blocks.Some? && canvasMounted && img.Some?
    ensures o == Drawn <==> o != NothingToDraw && img.value.complete
  {
    if imageData.None? || imageData.value.blocks.None? || !canvasMounted || img.None? then NothingToDraw
    else if !img.value.complete then AwaitingLoad
    else Drawn
  }

  /** The drawing surface. */
  class Canvas {
    var width: nat
    var height: nat
    /** What the surface shows: the commands issued since it was last cleared. */
    var drawing: seq<Command>

    /** A fresh canvas element has the HTML default size 300x150. */
    constructor ()
      ensures width == 300 && height == 150 && drawing == []
    {
      width, height, drawing := 300, 150, [];
    }

    /** The `forEach` callback for one block: a malformed box is skipped;
        otherwise its outline, label tile and 1-based label are drawn. */
    method DrawBlock(block: Block, index: nat, scaleX: real, scaleY: real)
      modifies this`drawing
      ensures drawing == old(drawing) + BoxCommands(block, index, scaleX, scaleY)
    {
      var bbox := block.bbox;
      if bbox.None? || |bbox.value| != 4 {
        return;
      }
      var x := bbox.value[0] * scaleX;
      var y := bbox.value[1] * scaleY;
      var w := bbox.value[2] * scaleX;
      var h := bbox.value[3] * scaleY;
      drawing := drawing + [StrokeRect(x, y, w, h)];
      drawing := drawing + [FillRect(x, y - 20.0, 30.0, 20.0)];
      drawing := drawing + [FillText(Decimal.Show(index + 1), x + 8.0, y - 6.0)];
      ghost var box := BoxCommands(block, index, scaleX, scaleY);
      assert box[0] == StrokeRect(x, y, w, h);
      assert box[1] == FillRect(x, y - 20.0, 30.0, 20.0);
      assert box[2] == FillText(Decimal.Show(index + 1), x + 8.0, y - 6.0);
    }

    /** `drawBoundingBoxes`. When it draws, the surface takes exactly the
        displayed size, is cleared, and then shows the overlay of all blocks
        scaled by displayed/natural size; otherwise it is left untouched.
        The source divides by the natural size without checking it, so a
        loaded image must have a non-zero natural size. */
    method DrawBoundingBoxes(imageData: Option<ImageDetail>, canvasMounted: bool, img: Option<ImageElement>)
      returns (outcome: DrawOutcome)
      requires img.Some? && img.value.complete ==> img.value.naturalWidth > 0 && img.value.naturalHeight > 0
      modifies this
      ensures outcome == Readiness(imageData, canvasMounted, img)
      ensures outcome != Drawn ==>
        width == old(width) && height == old(height) && drawing == old(drawing)
      ensures outcome == Drawn ==>
        width == img.value.offsetWidth && height == img.value.offsetHeight &&
        drawing == Overlay(imageData.value.blocks.value,
                           Scale(img.value.offsetWidth, img.value.naturalWidth),
                           Scale(img.value.offsetHeight, img.value.naturalHeight))
    {
      if imageData.None? || imageData.value.blocks.None? || !canvasMounted || img.None? {
        return NothingToDraw;
      }
      var image := img.value;
      if !image.complete {
        return AwaitingLoad;
      }

      var displayedWidth := image.offsetWidth;
      var displayedHeight := image.offsetHeight;
      width := displayedWidth;
      height := displayedHeight;

      var scaleX := Scale(displayedWidth, image.naturalWidth);
      var scaleY := Scale(displayedHeight, image.naturalHeight);

      drawing := [];

      var blocks := imageData.value.blocks.value;
      var index := 0;
      while index < |blocks|
        invariant 0 <= index <= |blocks|
        invariant width == displayedWidth && height == displayedHeight
        invariant drawing == Overlay(blocks[..index], scaleX, scaleY)
      {
        OverlayStep(blocks, index, scaleX, scaleY);
        DrawBlock(blocks[index], index, scaleX, scaleY);
        index := index + 1;
      }
      assert blocks[..index] == blocks;
      outcome := Drawn;
    }
  }

  /** Redrawing with unchanged inputs (a resize that did not change the
      displayed size, a repeated load event) leaves the same picture. */
  method RedrawTwice(c: Canvas, imageData: Option<ImageDetail>, canvasMounted: bool, img: Option<ImageElement>)
    returns (first: seq<Command>, second: seq<Command>)
    requires img.Some? && img.value.complete ==> img.value.naturalWidth > 0 && img.value.naturalHeight > 0
    modifies c
    ensures first == second
  {
    var o1 := c.DrawBoundingBoxes(imageData, canvasMounted, img);
    first := c.drawing;
    var w, h := c.width, c.height;
    var o2 := c.DrawBoundingBoxes(imageData, canvasMounted, img);
    second := c.drawing;
    assert o1 == o2 && c.width == w && c.height == h;
  }

  // ---------------------------------------------------------------------------
  // Successful results and navigation

  predicate IsSuccess(r: ServerRecord) {
    r.status == Some("success")
  }

  /** `results.filter(r => r.status === 'success')` */
  function SuccessResults(results: seq<ServerRecord>): (s: seq<ServerRecord>)
    ensures |s| <= |results|
    ensures forall r :: r in s <==> r in results && IsSuccess(r)
  {
    if |results| == 0 then []
    else (if IsSuccess(results[0]) then [results[0]] else []) + SuccessResults(results[1..])
  }

  /** The filter keeps the original order: it distributes over concatenation. */
  lemma {:induction false} SuccessResultsAppend(a: seq<ServerRecord>, b: seq<ServerRecord>)
    ensures SuccessResults(a + b) == SuccessResults(a) + SuccessResults(b)
  {
    if |a| == 0 {
      assert a + b == b;
    } else {
      assert (a + b)[1..] == a[1..] + b;
      SuccessResultsAppend(a[1..], b);
    }
  }

  /** The record whose detail is fetched for the current index, if the index
      is inside the successful results. */
  function SelectedResult(results: seq<ServerRecord>, selectedIndex: nat): (r: Option<ServerRecord>)
    ensures r.Some? ==> r.value in results && IsSuccess(r.value)
    ensures r.Some? ==>
      selectedIndex < |SuccessResults(results)| && r.value == SuccessResults(results)[selectedIndex]
    ensures r.None? <==> selectedIndex >= |SuccessResults(results)|
  {
    var s := SuccessResults(results);
    if |s| > 0 && selectedIndex < |s| then Some(s[selectedIndex]) else None
  }

  /** `handlePrevious`: step back unless at the first result. */
  function PreviousIndex(i: nat): (j: nat)
    ensures j <= i && (i > 0 ==> j == i - 1)
  {
    if i > 0 then i - 1 else i
  }

  /** `handleNext`: step forward unless at (or past) the last of `n` results. */
  function NextIndex(i: nat, n: nat): (j: nat)
    ensures i <= j <= i + 1
    ensures j == i + 1 <==> i + 1 < n
  {
    if i < n - 1 then i + 1 else i
  }

  datatype Move = Previous | Next | Thumbnail(k: nat)

  /** The index after a run of clicks over `n` successful results. */
  function Navigate(i: nat, moves: seq<Move>, n: nat): nat
    decreases |moves|
  {
    if |moves| == 0 then i
    else
      var j := match moves[0]
        case Previous => PreviousIndex(i)
        case Next => NextIndex(i, n)
        case Thumbnail(k) => k;
      Navigate(j, moves[1..], n)
  }

  /** Starting on a result and clicking only buttons and shown thumbnails,
      the index always names a result. */
  lemma {:induction false} NavigateInRange(i: nat, moves: seq<Move>, n: nat)
    requires i < n
    requires forall m :: m in moves && m.Thumbnail? ==> m.k < n
    ensures Navigate(i, moves, n) < n
    decreases |moves|
  {
    if |moves| > 0 {
      var j := match moves[0]
        case Previous => PreviousIndex(i)
        case Next => NextIndex(i, n)
        case Thumbnail(k) => k;
      assert moves[0] in moves;
      assert forall m :: m in moves[1..] ==> m in moves;
      NavigateInRange(j, moves[1..], n);
    }
  }

  /** The gallery's state: the `results` prop and `selectedIndex`. */
  class Gallery {
    var results: seq<ServerRecord>
    var selectedIndex: nat

    constructor (results: seq<ServerRecord>)
      ensures this.results == results && selectedIndex == 0
    {
      this.results := results;
      selectedIndex := 0;
    }

    method HandlePrevious()
      modifies this`selectedIndex
      ensures selectedIndex == PreviousIndex(old(selectedIndex))
    {
      if selectedIndex > 0 {
        selectedIndex := selectedIndex - 1;
      }
    }

    method HandleNext()
      modifies this`selectedIndex
      ensures selectedIndex == NextIndex(old(selectedIndex), |SuccessResults(results)|)
    {
      var successResults := SuccessResults(results);
      if selectedIndex < |successResults| - 1 {
        selectedIndex := selectedIndex + 1;
      }
    }

    /** A click on thumbnail `k` of the rendered list. */
    method SelectThumbnail(k: nat)
      requires k < |SuccessResults(results)|
      modifies this`selectedIndex
      ensures selectedIndex == k
    {
      selectedIndex := k;
    }

    /** A new `results` prop; the index is not reset. */
    method ReceiveResults(results: seq<ServerRecord>)
      modifies this`results
      ensures this.results == results
    {
      this.results := results;
    }
  }
}
