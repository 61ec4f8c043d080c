/** The package page's data loading and its image gallery: the arrows step through the images
    cyclically and the indicators jump to one of them. */
module PackageDetails {
  import opened Common
  import opened Records
  import opened PackageService

  /** `images.length`: the entries of an array, or the characters of a text. */
  function ImageCount(images: ListValue): nat
  {
    match images
    case Lines(t) => |t|
    case Entries(xs) => |xs|
  }

  /** `images[index]`: the entry at the index, a one-character text for a text value, or
      None (JavaScript's undefined) past the end. */
  function ImageAt(images: ListValue, index: nat): (r: Option<string>)
    ensures r.Some? <==> index < ImageCount(images)
    ensures images.Entries? && index < |images.items| ==> r == Some(images.items[index])
  {
    match images
    case Lines(t) => if index < |t| then Some([t[index]]) else None
    case Entries(xs) => if index < |xs| then Some(xs[index]) else None
  }

  /** `pkg?.images` is truthy: any array, or a non-empty text. */
  predicate HasImages(images: ListValue)
  {
    images.Entries? || images.text != ""
  }

  /** `(prev + 1) % length`. */
  function NextIndex(i: nat, n: nat): (r: nat)
    requires n > 0
    ensures r < n
    ensures i < n ==> r == if i + 1 == n then 0 else i + 1
  {
    (i + 1) % n
  }

  /** `(prev - 1 + length) % length`; the dividend is never negative here, so JavaScript's
      remainder and Dafny's agree. */
  function PrevIndex(i: nat, n: nat): (r: nat)
    requires n > 0
    ensures r < n
    ensures i < n ==> r == if i == 0 then n - 1 else i - 1
  {
    (i - 1 + n) % n
  }

  /** The arrows undo each other on a valid index. */
  lemma PrevUndoesNext(i: nat, n: nat)
    requires i < n
    ensures PrevIndex(NextIndex(i, n), n) == i
    ensures NextIndex(PrevIndex(i, n), n) == i
  {
  }

  /** The index after `k` presses of the next arrow. */
  function NextTimes(i: nat, n: nat, k: nat): (r: nat)
    requires n > 0
    ensures r < n || (k == 0 && r == i)
  {
    if k == 0 then i else NextIndex(NextTimes(i, n, k - 1), n)
  }

  /** Up to `n` presses of the next arrow from a valid index move that many images on,
      wrapping once past the last. */
  lemma {:induction false} NextTimesWraps(i: nat, n: nat, k: nat)
    requires i < n && k <= n
    ensures NextTimes(i, n, k) == if i + k < n then i + k else i + k - n
  {
    if k > 0 {
      NextTimesWraps(i, n, k - 1);
    }
  }

  /** Pressing the next arrow once per image comes back to the image one started from. */
  lemma FullCycle(i: nat, n: nat)
    requires i < n
    ensures NextTimes(i, n, n) == i
  {
    NextTimesWraps(i, n, n);
  }

  /** The page's state: the package shown, the load error, and the gallery position. */
  class Page {
    var pkg: Option<Package>
    var error: Option<string>
    var currentImageIndex: nat

    constructor ()
      ensures pkg.None? && error.None? && currentImageIndex == 0
    {
      pkg := None;
      error := None;
      currentImageIndex := 0;
    }

    /** The image the gallery shows, or None when the index is past the package's images. */
    function ShownImage(): Option<string>
      reads this
    {
      if pkg.None? then None else ImageAt(pkg.value.fields.images, currentImageIndex)
    }

    /** `loadPackage`: the package with the Id, or the error and the previous package. The
        gallery position is kept, also when the Id changed. */
    method LoadPackage(store: PackageStore, id: int)
      modifies this
      ensures var i := IndexOf(store.packages, PackageId, id);
        if i.None? then
          error == Some("Package not found") && pkg == old(pkg)
        else
          error.None? && pkg == Some(store.packages[i.value])
      ensures currentImageIndex == old(currentImageIndex)
    {
      error := None;
      var r := store.GetById(id);
      if r.Success? {
        pkg := Some(r.value);
      } else {
        error := Some(r.error);
      }
    }

    /** `handleNextImage`: with a package whose images are truthy, one step forward, wrapping
        at the end. An array without entries would make the index NaN; it is excluded. */
    method HandleNextImage()
      requires pkg.Some? && HasImages(pkg.value.fields.images) ==> ImageCount(pkg.value.fields.images) > 0
      modifies this
      ensures pkg == old(pkg) && error == old(error)
      ensures pkg.Some? && HasImages(pkg.value.fields.images) ==>
        currentImageIndex == NextIndex(old(currentImageIndex), ImageCount(pkg.value.fields.images))
        && ShownImage().Some?
      ensures pkg.None? || !HasImages(pkg.value.fields.images) ==> currentImageIndex == old(currentImageIndex)
    {
      if pkg.Some? && HasImages(pkg.value.fields.images) {
        currentImageIndex := NextIndex(currentImageIndex, ImageCount(pkg.value.fields.images));
      }
    }

    /** `handlePrevImage`: with a package whose images are truthy, one step back, wrapping at
        the start. */
    method HandlePrevImage()
      requires pkg.Some? && HasImages(pkg.value.fields.images) ==> ImageCount(pkg.value.fields.images) > 0
      modifies this
      ensures pkg == old(pkg) && error == old(error)
      ensures pkg.Some? && HasImages(pkg.value.fields.images) ==>
        currentImageIndex == PrevIndex(old(currentImageIndex), ImageCount(pkg.value.fields.images))
        && ShownImage().Some?
      ensures pkg.None? || !HasImages(pkg.value.fields.images) ==> currentImageIndex == old(currentImageIndex)
    {
      if pkg.Some? && HasImages(pkg.value.fields.images) {
        currentImageIndex := PrevIndex(currentImageIndex, ImageCount(pkg.value.fields.images));
      }
    }

    /** An indicator click: the gallery jumps to the image at the indicator's index. */
    method SelectImage(index: nat)
      modifies this
      ensures currentImageIndex == index && pkg == old(pkg) && error == old(error)
    {
      currentImageIndex := index;
    }
  }
}
