/** The gallery click handler and the lightbox's per-image captions: each
    image carries an alt text naming the gallery and its 1-based number, and
    a running "position / total" counter. The HTML markup, the overlay's
    DOM lifecycle and its key listener are not modelled. */
module Lightbox {
  import opened Decimal
  import opened Wrappers
  import Gallery

  /** What the lightbox shows for one image. */
  datatype Caption = Caption(src: string, alt: string, counter: string)

  /** The alert the click handler raises when a gallery cannot be shown. */
  const LoadFailure: string := "Unable to load gallery. Please try again."

  function CounterLabel(position: nat, total: nat): string {
    NatToString(position) + " / " + NatToString(total)
  }

  function AltText(title: string, position: nat): string {
    title + " - Image " + NatToString(position)
  }

  /** Position of the first `c` in `s`, or `|s|` when there is none. */
  function IndexOf(s: string, c: char): (i: nat)
    ensures i <= |s|
    ensures forall j :: 0 <= j < i ==> s[j] != c
    ensures i < |s| ==> s[i] == c
  {
    if |s| == 0 then 0
    else if s[0] == c then 0
    else 1 + IndexOf(s[1..], c)
  }

  /** Reads a counter text back into its position and total. */
  function ParseCounter(text: string): Option<(nat, nat)> {
    var i := IndexOf(text, ' ');
    if i + 3 <= |text| && text[i..i + 3] == " / "
       && Canonical(text[..i]) && Canonical(text[i + 3..])
    then Some((ParseDigits(text[..i]), ParseDigits(text[i + 3..])))
    else None
  }

  /** The first space of a counter label is the one right after the position. */
  lemma IndexOfAfterDigits(a: string, rest: string)
    requires AllDigits(a)
    requires |rest| >= 1 && rest[0] == ' '
    ensures IndexOf(a + rest, ' ') == |a|
  {
    var text := a + rest;
    assert text[|a|] == ' ';
    assert forall j :: 0 <= j < |a| ==> text[j] == a[j] && text[j] != ' ';
  }

  /** Cutting `a + mid + b` at the two seams gives back the three parts;
      kept apart so the counter-label proof stays cheap. */
  lemma SlicesOfConcat(a: string, mid: string, b: string)
    ensures (a + mid + b)[..|a|] == a
    ensures (a + mid + b)[|a|..|a| + |mid|] == mid
    ensures (a + mid + b)[|a| + |mid|..] == b
  {
  }

  /** A counter label parses to its position and total. */
  lemma CounterLabelParses(position: nat, total: nat)
    ensures ParseCounter(CounterLabel(position, total)) == Some((position, total))
  {
    var a := NatToString(position);
    var b := NatToString(total);
    var text := CounterLabel(position, total);
    assert text == a + " / " + b;
    assert a + " / " + b == a + (" / " + b);
    IndexOfAfterDigits(a, " / " + b);
    SlicesOfConcat(a, " / ", b);
    ParseNatToString(position);
    ParseNatToString(total);
  }

  /** Only counter labels parse, and to their own position and total. */
  lemma ParseCounterSound(text: string, position: nat, total: nat)
    requires ParseCounter(text) == Some((position, total))
    ensures text == CounterLabel(position, total)
  {
    var i := IndexOf(text, ' ');
    NatToStringOfParse(text[..i]);
    NatToStringOfParse(text[i + 3..]);
    assert text == text[..i] + text[i..i + 3] + text[i + 3..];
  }

  /** A text parses to (position, total) exactly when it is the counter
      label of that position and total: `CounterLabelParses` and
      `ParseCounterSound` combined into one if-and-only-if. */
  lemma ParseCounterIff(text: string, position: nat, total: nat)
    ensures ParseCounter(text) == Some((position, total)) <==> text == CounterLabel(position, total)
  {
    if text == CounterLabel(position, total) {
      CounterLabelParses(position, total);
    }
    if ParseCounter(text) == Some((position, total)) {
      ParseCounterSound(text, position, total);
    }
  }

  /** Distinct (position, total) pairs have distinct labels. */
  lemma CounterLabelInjective(i: nat, n: nat, j: nat, m: nat)
    ensures CounterLabel(i, n) == CounterLabel(j, m) ==> i == j && n == m
  {
    ParseCounterIff(CounterLabel(i, n), i, n);
    ParseCounterIff(CounterLabel(j, m), j, m);
  }

  /** Within one gallery, distinct image numbers have distinct alt texts. */
  lemma AltTextInjective(title: string, i: nat, j: nat)
    ensures AltText(title, i) == AltText(title, j) ==> i == j
  {
    var pre := title + " - Image ";
    if AltText(title, i) == AltText(title, j) {
      assert NatToString(i) == AltText(title, i)[|pre|..];
      assert NatToString(j) == AltText(title, j)[|pre|..];
      NatToStringInjective(i, j);
    }
  }

  /** The `images.map((img, index) => ...)` that builds one item per image. */
  method RenderCaptions(images: seq<string>, title: string) returns (captions: seq<Caption>)
    ensures |captions| == |images|
    ensures forall k :: 0 <= k < |captions| ==>
      captions[k] == Caption(images[k], AltText(title, k + 1), CounterLabel(k + 1, |images|))
  {
    captions := [];
    var index := 0;
    while index < |images|
      invariant 0 <= index <= |images|
      invariant |captions| == index
      invariant forall k :: 0 <= k < index ==>
        captions[k] == Caption(images[k], AltText(title, k + 1), CounterLabel(k + 1, |images|))
    {
      captions := captions + [Caption(images[index], AltText(title, index + 1), CounterLabel(index + 1, |images|))];
      index := index + 1;
    }
  }

  /** The click handler's check after resolving: an empty list raises the
      load-failure alert and no lightbox opens; otherwise every image gets
      its caption. */
  method ShowGallery(images: seq<string>, title: string) returns (r: Result<seq<Caption>>)
    ensures r.Failure? <==> |images| == 0
    ensures r.Failure? ==> r.error == LoadFailure
    ensures r.Success? ==> |r.value| == |images|
    ensures r.Success? ==> forall k :: 0 <= k < |images| ==>
      r.value[k] == Caption(images[k], AltText(title, k + 1), CounterLabel(k + 1, |images|))
  {
    if |images| == 0 {
      return Failure(LoadFailure);
    }
    var captions := RenderCaptions(images, title);
    return Success(captions);
  }

  /** Clicking a gallery link, with own-key lookup: the lightbox always
      opens, image k of the resolved gallery captioned "Image k" and
      numbered "k / n". */
  method OpenGallery(path: string, title: string) returns (r: Result<seq<Caption>>)
    ensures r.Success?
    ensures path in Gallery.GalleryConfig ==> |r.value| == Gallery.GalleryConfig[path].max
    ensures path !in Gallery.GalleryConfig ==> |r.value| == Gallery.FallbackCount
    ensures |r.value| == Gallery.Resolve(path).count >= 1
    ensures forall k :: 0 <= k < |r.value| ==>
      && r.value[k].src == Gallery.ImageUrl(path, Gallery.Resolve(path).stem, k + 1)
      && r.value[k].alt == AltText(title, k + 1)
      && r.value[k].counter == CounterLabel(k + 1, |r.value|)
    ensures forall k :: 0 <= k < |r.value| ==>
      && Gallery.InGalleryDir(r.value[k].src, path)
      && ParseCounter(r.value[k].counter) == Some((k + 1, |r.value|))
  {
    var images := Gallery.FetchGalleryImages(path);
    r := ShowGallery(images, title);
    forall k | 0 <= k < |r.value|
      ensures ParseCounter(r.value[k].counter) == Some((k + 1, |r.value|))
    {
      CounterLabelParses(k + 1, |r.value|);
    }
  }

  /** Clicking a gallery link as the script behaves: a gallery path that
      names an inherited object member raises the load-failure alert; any
      other path opens the same captions as the own-key lookup. */
  method OpenGalleryAsWritten(path: string, title: string) returns (r: Result<seq<Caption>>)
    ensures r.Failure? <==> path in Gallery.InheritedMembers
    ensures r.Failure? ==> r.error == LoadFailure
    ensures r.Success? ==> |r.value| == Gallery.Resolve(path).count
    ensures r.Success? ==> forall k :: 0 <= k < |r.value| ==>
      && r.value[k].src == Gallery.ImageUrl(path, Gallery.Resolve(path).stem, k + 1)
      && r.value[k].alt == AltText(title, k + 1)
      && r.value[k].counter == CounterLabel(k + 1, |r.value|)
  {
    var images := Gallery.FetchGalleryImagesAsWritten(path);
    r := ShowGallery(images, title);
  }
}
