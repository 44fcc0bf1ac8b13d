// The property detail page: the image carousel and the status badge
// (Frontend/src/pages/PropertyDetail.js).
module PropertyDetail {
  import opened Text
  import opened PropertySchema

  /** What the main image shows when the current entry is missing or empty. */
  const Placeholder := "https://via.placeholder.com/800x400?text=No+Image"

  /** `nextImage`: one step forward over `n` images, from the last back to the first. */
  function Next(i: int, n: int): (r: int)
    ensures 0 <= i < n ==> 0 <= r < n && r == (i + 1) % n
  {
    if i == n - 1 then 0 else i + 1
  }

  /** `prevImage`: one step back over `n` images, from the first round to the last. */
  function Prev(i: int, n: int): (r: int)
    ensures 0 <= i < n ==> 0 <= r < n && r == (i - 1) % n
  {
    if i == 0 then n - 1 else i - 1
  }

  /** A step back undoes a step forward, and the other way round. */
  lemma StepsUndo(i: int, n: int)
    requires 0 <= i < n
    ensures Prev(Next(i, n), n) == i
    ensures Next(Prev(i, n), n) == i
  {
  }

  /** `k` presses of the forward arrow. */
  function NextTimes(i: int, n: int, k: nat): (r: int)
    ensures 0 <= i < n ==> 0 <= r < n
  {
    if k == 0 then i else Next(NextTimes(i, n, k - 1), n)
  }

  /** `k` forward steps land `k` places on, counted round the gallery. */
  lemma {:induction false} NextTimesShifts(i: int, n: int, k: nat)
    requires 0 <= i < n
    ensures NextTimes(i, n, k) == (i + k) % n
  {
    if k > 0 {
      NextTimesShifts(i, n, k - 1);
      var j := (i + k - 1) % n;
      assert NextTimes(i, n, k) == (j + 1) % n;
      ModStep(i + k - 1, n);
    }
  }

  lemma ModStep(a: int, n: int)
    requires n > 0
    ensures (a % n + 1) % n == (a + 1) % n
  {
    var q, m := DivMod(a, n);
    if m + 1 < n {
      ModUnique(a + 1, n, q, m + 1);
      ModUnique(m + 1, n, 0, m + 1);
    } else {
      MulSucc(q, n);
      ModUnique(a + 1, n, q + 1, 0);
      ModUnique(m + 1, n, 1, 0);
    }
  }

  /** Euclidean division splits `a` into a multiple of `n` and a remainder. */
  lemma DivMod(a: int, n: int) returns (q: int, m: int)
    requires n > 0
    ensures m == a % n && 0 <= m < n && a == q * n + m
  {
    q, m := a / n, a % n;
  }

  lemma MulSucc(q: int, n: int)
    ensures q * n + n == (q + 1) * n
  {
  }

  /** Euclidean division has one quotient and one remainder. */
  lemma ModUnique(a: int, n: int, q: int, m: int)
    requires n > 0 && 0 <= m < n && a == q * n + m
    ensures a % n == m
  {
    var q', m' := a / n, a % n;
    assert (q' - q) * n == m - m';
    if q' > q {
      MulAtLeast(q' - q, n);
    } else if q' < q {
      MulAtLeast(q - q', n);
    }
  }

  lemma {:induction false} MulAtLeast(d: nat, n: nat)
    requires d >= 1
    ensures d * n >= n
  {
    if d > 1 {
      MulAtLeast(d - 1, n);
      assert d * n == (d - 1) * n + n;
    }
  }

  /** `n` forward steps bring the gallery back to where it started. */
  lemma FullCycle(i: int, n: int)
    requires 0 <= i < n
    ensures NextTimes(i, n, n) == i
  {
    NextTimesShifts(i, n, n);
    ModUnique(i + n, n, 1, i);
  }

  /** `images[index] || placeholder`: the image at the index, or the
      placeholder where there is none or it is empty. Never empty. */
  function MainImage(images: seq<string>, index: int): (r: string)
    ensures r != ""
    ensures r == Placeholder || (0 <= index < |images| && r == images[index])
    ensures 0 <= index < |images| && images[index] != "" ==> r == images[index]
  {
    if 0 <= index < |images| && images[index] != "" then images[index] else Placeholder
  }

  /** The badge colours. */
  datatype Tone = Green | Yellow | Red

  /** Green for an available listing, yellow for a pending one, red otherwise. */
  function StatusTone(s: Status): (t: Tone)
    ensures t == Green <==> s == Available
    ensures t == Yellow <==> s == Pending
    ensures t == Red <==> s == Sold
  {
    var name := StatusName(s);
    if name == "available" then Green else if name == "pending" then Yellow else Red
  }

  /** The badge text: the status with its first letter upper-cased, so
      `Available`, `Sold` or `Pending`; lower-casing it gives the status back. */
  function StatusLabel(s: Status): (r: string)
    ensures r == match s
      case Available => "Available"
      case Sold => "Sold"
      case Pending => "Pending"
    ensures |r| == |StatusName(s)| && 'A' <= r[0] <= 'Z'
    ensures Lower(r) == StatusName(s)
  {
    LabelsRead(s);
    Capitalize(StatusName(s))
  }

  /** Different statuses get different badges. */
  lemma LabelsDistinct(s: Status, o: Status)
    requires s != o
    ensures StatusLabel(s) != StatusLabel(o)
  {
    LabelsRead(s);
    LabelsRead(o);
  }

  /** Capitalizing each status name gives the word the badge shows. */
  lemma LabelsRead(s: Status)
    ensures Capitalize(StatusName(s)) == match s
      case Available => "Available"
      case Sold => "Sold"
      case Pending => "Pending"
  {
  }

  /** The image carousel of one fetched listing. */
  class Gallery {
    const images: seq<string>
    var index: int

    /** The index always names an image, or is 0 when there are none. */
    predicate Valid()
      reads this
    {
      0 <= index && (index < |images| || index == 0)
    }

    constructor(images: seq<string>)
      ensures Valid() && this.images == images && index == 0
    {
      this.images := images;
      index := 0;
    }

    /** The picture in the main frame. */
    function Shown(): (r: string)
      reads this
      requires Valid()
      ensures r == MainImage(images, index)
      ensures r != ""
      ensures images == [] ==> r == Placeholder
      ensures (forall k :: 0 <= k < |images| ==> images[k] != "") && images != [] ==> r in images
    {
      MainImage(images, index)
    }

    /** The right arrow, present only with more than one image. */
    method NextImage()
      requires Valid() && |images| > 1
      modifies this
      ensures Valid() && index == Next(old(index), |images|)
    {
      index := Next(index, |images|);
    }

    /** The left arrow, present only with more than one image. */
    method PrevImage()
      requires Valid() && |images| > 1
      modifies this
      ensures Valid() && index == Prev(old(index), |images|)
    {
      index := Prev(index, |images|);
    }

    /** A click on thumbnail `k`, shown only with more than one image. */
    method SelectThumbnail(k: int)
      requires Valid() && |images| > 1 && 0 <= k < |images|
      modifies this
      ensures Valid() && index == k && Shown() == MainImage(images, k)
    {
      index := k;
    }
  }
}
