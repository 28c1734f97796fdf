/** The supplier product's detail panel (src/components/ProductDetail.tsx):
    the carousel over the product's non-empty image URLs, whose arrows wrap
    around at both ends and are shown only when there is more than one image. */
module ProductDetail {
  import opened Prelude
  import Catalog

  /** `productImages`: the five URL slots with the empty ones dropped. */
  function Images(p: Catalog.Product): seq<string> {
    Catalog.ImageList(p)
  }

  /** The left arrow: one back, or the last image from the first. */
  function Prev(i: int, n: int): int {
    if i > 0 then i - 1 else n - 1
  }

  /** The right arrow: one on, or the first image from the last. */
  function Next(i: int, n: int): int {
    if i < n - 1 then i + 1 else 0
  }

  predicate ShowsArrows(n: int) { n > 1 }

  /** `productImages[currentImageIndex]`: `undefined` outside the list. */
  function Shown(images: seq<string>, i: int): Option<string> {
    if 0 <= i < |images| then Some(images[i]) else None
  }

  /** On a valid index both arrows give a valid index, each undoes the other,
      and they move by one except where they wrap around; so every image is
      reached from any other by pressing one arrow often enough. */
  lemma ArrowsWrapAround(i: int, n: int)
    requires 0 <= i < n
    ensures 0 <= Prev(i, n) < n && 0 <= Next(i, n) < n
    ensures Next(Prev(i, n), n) == i && Prev(Next(i, n), n) == i
    ensures Next(i, n) == (i + 1) % n && Prev(i, n) == (i + n - 1) % n
  {
  }

  /** The images are the non-empty slots in slot order: when all five are
      filled the list is all five; when only the first is filled it is just
      that one, and then no arrow is shown. */
  lemma ImagesKeepSlots(p: Catalog.Product)
    ensures (forall k :: 0 <= k < 5 ==> Catalog.ImageSlots(p)[k] != "") ==> Images(p) == Catalog.ImageSlots(p)
    ensures p.imageUrl1 != "" && (forall k :: 1 <= k < 5 ==> Catalog.ImageSlots(p)[k] == "") ==>
              Images(p) == [p.imageUrl1] && !ShowsArrows(|Images(p)|)
  {
    var slots := Catalog.ImageSlots(p);
    if forall k :: 0 <= k < 5 ==> slots[k] != "" {
      FilterAll(slots, Catalog.NonEmpty);
    }
    if p.imageUrl1 != "" && (forall k :: 1 <= k < 5 ==> slots[k] == "") {
      assert slots[1..] == ["", "", "", ""];
      assert slots == [p.imageUrl1] + slots[1..];
      FilterNone(slots[1..], Catalog.NonEmpty);
    }
  }

  /** With at least one image, moving through the arrows always shows an
      image (never `undefined`). */
  lemma ArrowsShowImages(images: seq<string>, i: int)
    requires 0 <= i < |images|
    ensures Shown(images, Prev(i, |images|)).Some? && Shown(images, Next(i, |images|)).Some?
    ensures Shown(images, i) == Some(images[i])
  {
  }
}
