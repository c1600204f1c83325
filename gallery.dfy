/**
 * The photo grid of the property page: the first few images as clickable
 * tiles, the last of which carries a "+ N photos" badge.
 */
module Gallery {

  /** An image reference (its URL). */
  type Image = string

  /** How many images the grid shows. */
  const PreviewLimit: nat := 5
  /** Position of the tile that carries the badge. */
  const BadgeTile: nat := 4

  datatype Badge = NoBadge | MorePhotos(count: int)

  /** One grid tile: the image it shows, the viewer index it opens, its badge. */
  datatype Tile = Tile(src: Image, opens: nat, badge: Badge)

  /** The images the grid shows: an in-order prefix of at most five. */
  function Preview(images: seq<Image>): (shown: seq<Image>)
    ensures |shown| == if |images| < PreviewLimit then |images| else PreviewLimit
    ensures shown <= images
  {
    images[..if |images| < PreviewLimit then |images| else PreviewLimit]
  }

  /** The tiles, one per previewed image. */
  function Tiles(images: seq<Image>): (tiles: seq<Tile>)
    ensures |tiles| == |Preview(images)|
    ensures forall p :: 0 <= p < |tiles| ==>
              tiles[p].src == images[p] && tiles[p].opens == p && p < |images|
    ensures forall p :: 0 <= p < |tiles| ==> (tiles[p].badge.MorePhotos? <==> p == BadgeTile)
  {
    var shown := Preview(images);
    seq(|shown|, p requires 0 <= p < |shown| =>
      Tile(shown[p], p, if p == BadgeTile then MorePhotos(|images| - BadgeTile) else NoBadge))
  }

  /** The badge is drawn exactly when there are at least five images, on tile 4, counting `n - 4`. */
  lemma BadgeExactlyWhenFivePlus(images: seq<Image>)
    ensures (exists p :: 0 <= p < |Tiles(images)| && Tiles(images)[p].badge.MorePhotos?)
            <==> |images| >= PreviewLimit
    ensures |images| >= PreviewLimit ==>
              Tiles(images)[BadgeTile].badge == MorePhotos(|images| - BadgeTile)
              && |images| - BadgeTile >= 1
  {
    var tiles := Tiles(images);
    if |images| >= PreviewLimit {
      assert tiles[BadgeTile].badge.MorePhotos?;
    }
  }

  /**
   * From the grid, image `i` can be opened exactly when it is among the first
   * five, and then only through tile `i`.
   */
  lemma TileReachesImage(images: seq<Image>, i: int)
    requires 0 <= i < |images|
    ensures (exists p :: 0 <= p < |Tiles(images)| && Tiles(images)[p].opens == i)
            <==> i < PreviewLimit
    ensures forall p :: 0 <= p < |Tiles(images)| && Tiles(images)[p].opens == i ==> p == i
  {
    if i < PreviewLimit {
      assert Tiles(images)[i].opens == i;
    }
  }

  /** The page's eight seed photos: five tiles, the fifth badged "+ 4 photos". */
  lemma EightPhotos(images: seq<Image>)
    requires |images| == 8
    ensures |Tiles(images)| == 5
    ensures Tiles(images)[4].badge == MorePhotos(4)
  {
  }
}
