/**
 * The stateful parts of the property-details page: the mounted lightbox with
 * its `index` and `scale` cells, and the page's `showLightbox` and
 * `lightboxIndex` cells that mount and unmount it. Each handler is a method;
 * its postcondition ties the new state to `ViewerSpec.Step`, so the lemmas
 * proved there about sequences of handlers apply to these objects.
 */
module PropertyDetails {
  import opened ViewerSpec
  import opened Gallery

  /** A mounted lightbox over a non-empty, fixed list of images. */
  class Lightbox {
    const images: seq<Image>
    var index: int
    var scale: real

    function State(): ViewerState
      reads this
    {
      ViewerState(index, scale)
    }

    ghost predicate Valid()
      reads this
    {
      |images| > 0 && Inv(|images|, State())
    }

    /** Mounting: the index comes from the page, the scale starts at 1. */
    constructor (images: seq<Image>, initialIndex: int)
      requires 0 <= initialIndex < |images|
      ensures Valid() && this.images == images
      ensures State() == Initial(initialIndex)
    {
      this.images := images;
      index := initialIndex;
      scale := InitialScale;
    }

    method Prev()
      requires Valid()
      modifies this
      ensures Valid() && State() == Step(|images|, old(State()), Event.Prev)
      ensures index == (if old(index) == 0 then |images| - 1 else old(index) - 1)
      ensures scale == old(scale)
    {
      index := (index - 1 + |images|) % |images|;
    }

    method Next()
      requires Valid()
      modifies this
      ensures Valid() && State() == Step(|images|, old(State()), Event.Next)
      ensures index == (if old(index) == |images| - 1 then 0 else old(index) + 1)
      ensures scale == old(scale)
    {
      index := (index + 1) % |images|;
    }

    /** The wheel handler; `deltaY` is the event's vertical delta. */
    method OnWheel(deltaY: real)
      requires Valid()
      modifies this
      ensures Valid() && State() == Step(|images|, old(State()), Wheel(deltaY))
      ensures index == old(index)
      ensures deltaY > 0.0 ==> scale <= old(scale)
      ensures deltaY < 0.0 ==> scale >= old(scale)
      ensures deltaY == 0.0 ==> scale == old(scale)
    {
      var delta := Sign(deltaY);
      scale := Min(MaxScale, Max(MinScale, scale - delta as real * WheelStep));
    }

    method ResetZoom()
      requires Valid()
      modifies this
      ensures Valid() && State() == Step(|images|, old(State()), Event.ResetZoom)
      ensures index == old(index) && scale == InitialScale
    {
      scale := InitialScale;
    }

    /** The zoom-in button. */
    method ZoomIn()
      requires Valid()
      modifies this
      ensures Valid() && State() == Step(|images|, old(State()), Event.ZoomIn)
      ensures index == old(index) && old(scale) <= scale
      ensures scale < MaxScale ==> scale == old(scale) + ButtonStep
    {
      scale := Min(MaxScale, scale + ButtonStep);
    }

    /** The zoom-out button. */
    method ZoomOut()
      requires Valid()
      modifies this
      ensures Valid() && State() == Step(|images|, old(State()), Event.ZoomOut)
      ensures index == old(index) && scale <= old(scale)
      ensures MinScale < scale ==> scale == old(scale) - ButtonStep
    {
      scale := Max(MinScale, scale - ButtonStep);
    }

    /** The "position / total" counter in the toolbar. */
    function Counter(): (c: (int, int))
      reads this
      requires Valid()
      ensures 1 <= c.0 <= c.1 && c.1 == |images|
      ensures c.0 - 1 == index
    {
      (index + 1, |images|)
    }

    /** The image on screen. */
    function Shown(): (src: Image)
      reads this
      requires Valid()
      ensures src in images
      ensures src == images[Counter().0 - 1]
    {
      images[index]
    }
  }

  /** The page: which image the lightbox opens on, and whether it is mounted. */
  class PropertyPage {
    const images: seq<Image>
    var showLightbox: bool
    var lightboxIndex: int
    /** The mounted lightbox, present exactly while it is shown. */
    var lightbox: Lightbox?

    ghost predicate Valid()
      reads this, lightbox
    {
      (showLightbox <==> lightbox != null) &&
      (lightbox != null ==> lightbox.images == images && lightbox.Valid())
    }

    constructor (images: seq<Image>)
      ensures Valid() && this.images == images
      ensures !showLightbox && lightboxIndex == 0
    {
      this.images := images;
      showLightbox := false;
      lightboxIndex := 0;
      lightbox := null;
    }

    /**
     * Records the index and shows the lightbox. A lightbox that is already
     * mounted is not mounted again, so it keeps its own index and scale.
     */
    method OpenLightbox(idx: int)
      requires Valid() && 0 <= idx < |images|
      modifies this
      ensures Valid() && showLightbox && lightboxIndex == idx
      ensures !old(showLightbox) ==> fresh(lightbox) && lightbox.State() == Initial(idx)
      ensures old(showLightbox) ==> lightbox == old(lightbox)
    {
      lightboxIndex := idx;
      if !showLightbox {
        lightbox := new Lightbox(images, idx);
      }
      showLightbox := true;
    }

    /** The lightbox's close button: hides and unmounts it. */
    method Close()
      requires Valid()
      modifies this
      ensures Valid() && !showLightbox && lightboxIndex == old(lightboxIndex)
    {
      showLightbox := false;
      lightbox := null;
    }

    /**
     * Activating preview tile `p` (a click, or Enter or Space on a focused
     * tile, which the overlay does not block) opens the lightbox on the image
     * that tile shows; an already mounted lightbox is kept as it is.
     */
    method ClickTile(p: int)
      requires Valid() && 0 <= p < |Tiles(images)|
      modifies this
      ensures Valid() && showLightbox && lightboxIndex == p
      ensures !old(showLightbox) ==>
        fresh(lightbox) && lightbox.State() == Initial(p) &&
        lightbox.Shown() == Tiles(images)[p].src &&
        lightbox.Counter() == (p + 1, |images|)
      ensures old(showLightbox) ==> lightbox == old(lightbox)
    {
      OpenLightbox(Tiles(images)[p].opens);
    }
  }

  /**
   * Opening, zooming, browsing and closing, then opening again: the second
   * viewer starts on the requested image at scale 1, whatever the first did.
   */
  method ReopenStartsFresh(images: seq<Image>, first: int, second: int)
    returns (index: int, scale: real)
    requires 0 <= first < |images| && 0 <= second < |images|
    ensures index == second && scale == InitialScale
  {
    var page := new PropertyPage(images);
    page.OpenLightbox(first);
    page.lightbox.ZoomIn();
    page.lightbox.ZoomIn();
    page.lightbox.Next();
    page.lightbox.OnWheel(-1.0);
    page.Close();
    page.OpenLightbox(second);
    index, scale := page.lightbox.index, page.lightbox.scale;
  }

  /** Three images, opened on the second: two "next" presses wrap to the first. */
  method WrapAroundExample(a: Image, b: Image, c: Image) returns (index: int)
    ensures index == 0
  {
    var viewer := new Lightbox([a, b, c], 1);
    viewer.Next();
    viewer.Next();
    index := viewer.index;
  }

  /** Three zoom-in presses from 1 reach 1.75; one zoom-out comes back to 1.5. */
  method ZoomButtonsExample(images: seq<Image>) returns (afterIn: real, afterOut: real)
    requires |images| > 0
    ensures afterIn == 1.75 && afterOut == 1.5
  {
    var viewer := new Lightbox(images, 0);
    viewer.ZoomIn();
    viewer.ZoomIn();
    viewer.ZoomIn();
    afterIn := viewer.scale;
    viewer.ZoomOut();
    afterOut := viewer.scale;
  }
}
