/**
 * The gallery page: the fixed image list, the tag filter each grid shows,
 * and the lightbox that steps through the filtered images.
 */
module Gallery {
  import opened JsValues
  import opened Seqs
  import Chrome

  datatype Image = Image(id: string, src: string, caption: string, tag: string)

  /** The page's twelve images, three tags of four each. */
  const Images: seq<Image> := [
    Image("gal-01", "https://www.fcbarcelona.com/photo-resources/2023/09/23/0fc85cc3-eee4-414d-a2d0-ccde5c04d08b/mini_FCB_Celta-111.jpg?width=1200&height=750", "Flying Volley", "Skills"),
    Image("gal-02", "https://pbs.twimg.com/media/FwzjwzUWYAIf_nq.jpg", "Old Camp Nou", "Stadium"),
    Image("gal-03", "https://sport360.com/wp-content/uploads/2020/01/BeFunky-collage-2020-01-02T111651.769.jpg", "MSN Trio", "Best_Moments"),
    Image("gal-04", "https://static01.nyt.com/athletic/uploads/wp/2024/04/11100049/Pedri-assist-for-Barcelona-against-PSG-scaled-e1712844103590.jpg", "Magic Pass", "Skills"),
    Image("gal-05", "https://cdn-acn.watchity.net/acn/catn_oldmedia/images/2017/03/Messi.jpg", "Best Comeback", "Stadium"),
    Image("gal-06", "https://laliganews.net/wp-content/uploads/2020/08/28165985-1024x683.jpg", "Leo Messi Iconic Celebration", "Best_Moments"),
    Image("gal-07", "https://prod-media.beinsports.com/image/1769026559367_008d1053-fd96-4db6-880e-43998cc53e6a.3840.JPG?ver=03-06-2025", "Skillful Dribble", "Skills"),
    Image("gal-08", "https://www.fcbarcelona.com/fcbarcelona/photo/2022/09/19/1e3d37b9-85ea-4c9d-93de-a6d1a662e36f/_GP19495.jpg", "Camp Nou", "Stadium"),
    Image("gal-09", "https://assets.goal.com/images/v3/blt62e1749ea2bb1919/GOAL%20-%20Blank%20WEB%20-%20Facebook%20-%202026-01-11T210530.533.jpg?auto=webp&format=pjpg&width=3840&quality=60", "El Clasico Clash", "Best_Moments"),
    Image("gal-10", "https://assets.goal.com/images/v3/bltc77f4c242eb16082/c307adbfbfba616f99f4cde127a0edde8c1b248e.jpg?auto=webp&format=pjpg&width=3840&quality=60", "Electric Run", "Skills"),
    Image("gal-11", "https://ichef.bbci.co.uk/ace/standard/1024/cpsprodpb/9603/live/98888780-2e93-11f0-ae63-a53f4593c313.jpg", "La Masia Talent", "Best_Moments"),
    Image("gal-12", "https://wooarchitects.com/wp-content/uploads/2025/05/WOO-architects-Camp-Nou-Stadium-Barcelona.png", "Spotify Camp Nou", "Stadium")
  ]

  /** `grid.getAttribute("data-tag") || "All"` */
  function GridTag(attr: Option<string>): (tag: string)
    ensures attr.Some? && attr.value != "" ==> tag == attr.value
    ensures attr.None? || attr.value == "" ==> tag == "All"
  {
    if attr.Some? && attr.value != "" then attr.value else "All"
  }

  /** The images a grid (and its lightbox) shows for a tag. */
  function Tagged(images: seq<Image>, tag: string): seq<Image> {
    if tag == "All" then images else Keep(images, (x: Image) => x.tag == tag)
  }

  /**
   * "All" shows every image in order; any other tag shows exactly the
   * images carrying it, in their original order.
   */
  lemma TaggedLaws(images: seq<Image>, tag: string)
    ensures tag == "All" ==> Tagged(images, tag) == images
    ensures tag != "All" ==> forall x :: x in Tagged(images, tag) <==> x in images && x.tag == tag
    ensures Subsequence(Tagged(images, tag), images)
  {
    if tag == "All" {
      KeepLaws(images, (x: Image) => true);
      assert Keep(images, (x: Image) => true) == images;
    } else {
      KeepLaws(images, (x: Image) => x.tag == tag);
    }
  }

  predicate DistinctIds(s: seq<Image>) {
    forall i, j :: 0 <= i < j < |s| ==> s[i].id != s[j].id
  }

  /** `items.findIndex((x) => x.id === id)`: `-1` when absent. */
  function FindIndex(items: seq<Image>, id: string): (r: int)
    ensures -1 <= r < |items|
    ensures r >= 0 ==> items[r].id == id && forall j :: 0 <= j < r ==> items[j].id != id
    ensures r == -1 ==> forall j :: 0 <= j < |items| ==> items[j].id != id
  {
    if items == [] then -1
    else if items[0].id == id then 0
    else
      var r := FindIndex(items[1..], id);
      if r == -1 then -1 else r + 1
  }

  /** `Math.max(0, items.findIndex(...))`: where the lightbox opens. */
  function OpenIndex(items: seq<Image>, id: string): (r: nat)
    requires items != []
    ensures r < |items|
  {
    var f := FindIndex(items, id);
    if f < 0 then 0 else f
  }

  /**
   * The lightbox opens on the clicked image when ids are distinct, and on
   * the first image for an id not in the list.
   */
  lemma OpenIndexLaws(items: seq<Image>, k: nat, id: string)
    requires k < |items| && DistinctIds(items)
    ensures OpenIndex(items, items[k].id) == k
    ensures (forall x :: x in items ==> x.id != id) ==> OpenIndex(items, id) == 0
  {
    var f := FindIndex(items, items[k].id);
    assert f >= 0;
  }

  /** The twelve images have distinct ids, so opening any card shows that card. */
  const ImageIds: seq<string> := ["gal-01", "gal-02", "gal-03", "gal-04", "gal-05", "gal-06",
    "gal-07", "gal-08", "gal-09", "gal-10", "gal-11", "gal-12"]

  lemma ImageIdsListed()
    ensures |Images| == 12 && forall i :: 0 <= i < 12 ==> Images[i].id == ImageIds[i]
  {
  }

  lemma ImageIdsNumbered()
    ensures forall i :: 0 <= i < 12 ==> |ImageIds[i]| == 6 && IdNumber(ImageIds[i]) == i + 1
  {
  }

  lemma ImagesDistinct()
    ensures |Images| == 12 && DistinctIds(Images)
  {
    ImageIdsListed();
    ImageIdsNumbered();
    forall i, j | 0 <= i < j < 12
      ensures Images[i].id != Images[j].id
    {
      assert IdNumber(ImageIds[i]) != IdNumber(ImageIds[j]);
    }
  }

  /** The number an id "gal-NN" ends with. */
  function IdNumber(id: string): int
    requires |id| == 6
  {
    (id[4] as int - '0' as int) * 10 + (id[5] as int - '0' as int)
  }

  /**
   * The arrow keys and buttons: right/next moves one image on, left/prev
   * one back, wrapping around; any other key stays put.
   */
  function Arrow(key: string, i: nat, n: nat): (r: nat)
    requires i < n
    ensures r < n
  {
    Chrome.KeyTargetInRange(key, i, n);
    if key == "ArrowRight" || key == "ArrowLeft" then Chrome.KeyTarget(key, i, n).value else i
  }

  /** Next then previous, or previous then next, comes back to the same image. */
  lemma ArrowRoundTrip(i: nat, n: nat)
    requires i < n
    ensures Arrow("ArrowLeft", Arrow("ArrowRight", i, n), n) == i
    ensures Arrow("ArrowRight", Arrow("ArrowLeft", i, n), n) == i
    ensures i + 1 < n ==> Arrow("ArrowRight", i, n) == i + 1
    ensures i == n - 1 ==> Arrow("ArrowRight", i, n) == 0
    ensures i == 0 ==> Arrow("ArrowLeft", i, n) == n - 1
    ensures forall key :: key != "ArrowLeft" && key != "ArrowRight" ==> Arrow(key, i, n) == i
  {
    Chrome.KeyTargetLaws(i, n);
  }

  /**
   * One arrow key press as written: every re-render wires one more
   * `keydown` listener on the same modal element, so a press runs all
   * `listeners` of them, each stepping once and re-rendering; the
   * listeners those re-renders add do not run for the press under way.
   */
  function PressAsWritten(key: string, i: nat, n: nat, listeners: nat): (r: (nat, nat))
    requires i < n
    ensures r.0 < n
    decreases listeners
  {
    if key != "ArrowLeft" && key != "ArrowRight" then (i, listeners)
    else if listeners == 0 then (i, 0)
    else
      var rest := PressAsWritten(key, Arrow(key, i, n), n, listeners - 1);
      (rest.0, rest.1 + 2)
  }

  /**
   * As written, the second ArrowRight press in the twelve-image lightbox
   * skips an image: from the first image, one press shows the second, the
   * next press the fourth.
   */
  lemma PressSkips()
    ensures PressAsWritten("ArrowRight", 0, 12, 1) == (1, 2)
    ensures PressAsWritten("ArrowRight", 1, 12, 2) == (3, 4)
  {
    ArrowRoundTrip(0, 12);
    ArrowRoundTrip(1, 12);
    ArrowRoundTrip(2, 12);
  }

  /** The lightbox with its key handler wired once. */
  class Lightbox {
    const items: seq<Image>
    var index: nat

    predicate Valid()
      reads this
    {
      index < |items|
    }

    /** `openLightbox(id, tag)`, reached by clicking a card, so the list is not empty. */
    constructor (images: seq<Image>, id: string, tag: string)
      requires Tagged(images, tag) != []
      ensures Valid() && items == Tagged(images, tag) && index == OpenIndex(items, id)
    {
      items := Tagged(images, tag);
      index := OpenIndex(Tagged(images, tag), id);
    }

    /** The next button: one image on, wrapping. */
    method Next()
      requires Valid()
      modifies this
      ensures Valid() && index == Arrow("ArrowRight", old(index), |items|)
    {
      index := (index + 1) % |items|;
    }

    /** The previous button: one image back, wrapping. */
    method Prev()
      requires Valid()
      modifies this
      ensures Valid() && index == Arrow("ArrowLeft", old(index), |items|)
    {
      index := (index - 1 + |items|) % |items|;
    }

    /** A key press on the modal: each arrow moves exactly one image. */
    method Key(key: string)
      requires Valid()
      modifies this
      ensures Valid() && index == Arrow(key, old(index), |items|)
    {
      if key == "ArrowLeft" {
        index := (index - 1 + |items|) % |items|;
      }
      if key == "ArrowRight" {
        index := (index + 1) % |items|;
      }
    }
  }
}
