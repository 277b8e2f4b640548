/**
 * Saving results: the names of the downloaded files, and the combined download that
 * stacks the processed back image directly below the processed front image.
 */
module Export {
  import opened Wrappers
  import opened Render

  const NamePrefix := "ic-"
  const NameSuffix := "-crossed.jpg"
  const CombinedName := "ic-combined-crossed.jpg"

  /** The name a single processed side is saved under. */
  function DownloadName(suffix: string): (r: string)
    ensures |r| == |NamePrefix| + |suffix| + |NameSuffix|
    ensures r[..|NamePrefix|] == NamePrefix
    ensures r[|NamePrefix|..|NamePrefix| + |suffix|] == suffix
    ensures r[|NamePrefix| + |suffix|..] == NameSuffix
  {
    NamePrefix + suffix + NameSuffix
  }

  /** A download link: what it points at and the name it saves under. */
  datatype Link = Link(href: string, download: string)

  function DownloadLink(url: string, suffix: string): (l: Link)
    ensures l.href == url && l.download == DownloadName(suffix)
  {
    Link(url, DownloadName(suffix))
  }

  /** Different sides are saved under different names, and the combined name follows the same pattern. */
  lemma DownloadNamesDistinct(a: string, b: string)
    ensures DownloadName(a) == DownloadName(b) ==> a == b
    ensures CombinedName == DownloadName("combined")
  {
    if DownloadName(a) == DownloadName(b) {
      assert |a| == |b|;
      assert a == DownloadName(a)[3..3 + |a|] == DownloadName(b)[3..3 + |b|] == b;
    }
    assert NamePrefix + "combined" == "ic-combined";
    assert "ic-combined" + NameSuffix == CombinedName;
  }

  /** An integer rectangle of the output image. */
  datatype Region = Region(x: nat, y: nat, width: nat, height: nat)

  /** The output size and where each processed image is drawn. */
  datatype Composite = Composite(width: nat, height: nat, front: Region, back: Region)

  predicate Covers(r: Region, x: nat, y: nat) {
    r.x <= x < r.x + r.width && r.y <= y < r.y + r.height
  }

  predicate Within(r: Region, c: Composite) {
    r.x + r.width <= c.width && r.y + r.height <= c.height
  }

  function Max(a: nat, b: nat): nat {
    if a >= b then a else b
  }

  /**
   * The combined layout: wide enough for the wider image, as tall as both together, the
   * front image at the origin and the back image directly under it.
   */
  function Stack(front: ImageSize, back: ImageSize): (c: Composite)
    ensures c.width >= front.width && c.width >= back.width
    ensures c.width == front.width || c.width == back.width
    ensures c.height == front.height + back.height
    ensures c.front == Region(0, 0, front.width, front.height)
    ensures c.back == Region(0, front.height, back.width, back.height)
  {
    Composite(Max(front.width, back.width), front.height + back.height,
              Region(0, 0, front.width, front.height),
              Region(0, front.height, back.width, back.height))
  }

  /**
   * Both images fit, neither overlaps the other, and they meet without a gap: each
   * pixel row of the output belongs to the front image above row front.height and to the
   * back image from there on, and each image pixel lands at one output pixel.
   */
  lemma StackPlacement(front: ImageSize, back: ImageSize)
    ensures var c := Stack(front, back);
      Within(c.front, c) && Within(c.back, c) && c.front.y + c.front.height == c.back.y
    ensures var c := Stack(front, back);
      forall x: nat, y: nat :: !(Covers(c.front, x, y) && Covers(c.back, x, y))
    ensures var c := Stack(front, back);
      forall x: nat, y: nat | x < c.width && y < c.height ::
        (Covers(c.front, x, y) <==> y < front.height && x < front.width) &&
        (Covers(c.back, x, y) <==> y >= front.height && x < back.width)
  {
  }

  /** A combined download: the layout drawn and the name it is saved under. */
  datatype Download = Download(layout: Composite, name: string)

  /**
   * The combined download. Nothing happens unless both processed images exist and a
   * drawing context is available; otherwise a fresh canvas is sized to the stacked layout.
   */
  method CombinedDownload(frontUrl: string, backUrl: string, front: ImageSize, back: ImageSize,
                          hasContext: bool)
      returns (d: Option<Download>)
    ensures d.Some? <==> frontUrl != "" && backUrl != "" && hasContext
    ensures d.Some? ==> d.value.layout == Stack(front, back) && d.value.name == CombinedName
  {
    if frontUrl == "" || backUrl == "" {
      return None;
    }
    var canvas := new Canvas(hasContext);
    if !canvas.hasContext {
      return None;
    }
    canvas.width := Max(front.width, back.width);
    canvas.height := front.height + back.height;
    var layout := Composite(canvas.width, canvas.height,
                            Region(0, 0, front.width, front.height),
                            Region(0, front.height, back.width, back.height));
    d := Some(Download(layout, CombinedName));
  }
}
