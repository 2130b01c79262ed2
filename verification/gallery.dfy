/** The gallery resolver: turns a gallery path into the ordered list of
    image URLs the lightbox shows, using a fixed table of filename patterns
    and image counts, with a guessed naming scheme for paths not in it. */
module Gallery {
  import opened Decimal
  import opened Paths
  import opened Wrappers

  /** One row of the table: the filename stem used inside the gallery's
      directory and how many consecutively numbered images it holds. */
  datatype GalleryEntry = GalleryEntry(pattern: string, max: nat)

  /** The gallery table, keyed by the exact gallery path. */
  const GalleryConfig: map<string, GalleryEntry> := map[
    "images/catalogs/combo box/2 in 1" := GalleryEntry("2 in 1", 41),
    "images/catalogs/combo box/3 in 1" := GalleryEntry("3 in 1", 51),
    "images/catalogs/combo box/4 in 1" := GalleryEntry("4 in 1", 49),
    "images/catalogs/combo box/5 in 1" := GalleryEntry("5 in 1", 29),
    "images/catalogs/awards and trophies/amaze" := GalleryEntry("amaze trophies", 72),
    "images/catalogs/awards and trophies/awards tro" := GalleryEntry("AWARDS TRO", 69),
    "images/catalogs/awards and trophies/AZ series" := GalleryEntry("AZ SERIES", 51),
    "images/catalogs/awards and trophies/crystal" := GalleryEntry("crystal trophies", 28),
    "images/catalogs/awards and trophies/crystal tro" := GalleryEntry("CRYSTAL TROPHIES", 71),
    "images/catalogs/awards and trophies/H series 23-24" := GalleryEntry("H SERIES 23-24", 69),
    "images/catalogs/awards and trophies/H series 25-26" := GalleryEntry("H SERIES 25-26", 85),
    "images/catalogs/awards and trophies/N series" := GalleryEntry("N SERIES 25-26", 126),
    "images/catalogs/awards and trophies/sprts tro" := GalleryEntry("SPORTS TRO", 27),
    "images/catalogs/awards and trophies/wooden" := GalleryEntry("WOODEN MOMENTOS", 14),
    "images/catalogs/bottles/bottles" := GalleryEntry("Aquabot Bottle and Drinkware 2025", 10),
    "images/catalogs/diaries/diaries" := GalleryEntry("diaries", 74),
    "images/catalogs/diaries/notebooks" := GalleryEntry("sca notebooks", 48),
    "images/catalogs/keychains/keychains" := GalleryEntry("keychains", 8),
    "images/catalogs/mugs/mugs" := GalleryEntry("aquabot mugs", 10),
    "images/catalogs/pens/pens" := GalleryEntry("metal pen shah", 38)
  ]

  /** Number of URLs guessed for a path that is not in the table. */
  const FallbackCount: nat := 100

  /** Property names every JavaScript object literal inherits from
      Object.prototype. Indexing the table object with one of them yields a
      truthy value that has no `max` property. */
  const InheritedMembers: set<string> := {
    "constructor", "hasOwnProperty", "isPrototypeOf", "propertyIsEnumerable",
    "toLocaleString", "toString", "valueOf", "__proto__",
    "__defineGetter__", "__defineSetter__", "__lookupGetter__", "__lookupSetter__"
  }

  /** What the resolver decided: the filename stem and how many images. */
  datatype Plan = Plan(stem: string, count: nat)

  /** Own-key lookup in the table, else the last-segment fallback. */
  function Resolve(path: string): Plan {
    if path in GalleryConfig then Plan(GalleryConfig[path].pattern, GalleryConfig[path].max)
    else Plan(LastSegment(path), FallbackCount)
  }

  /** The lookup as the script performs it: `galleryConfig[galleryPath]`
      also finds inherited members; for those `config.max` is undefined, so
      the loop guard `i <= undefined` is false at once and nothing is listed
      (the never-evaluated pattern would read "undefined"). */
  function ResolveAsWritten(path: string): Plan {
    if path in GalleryConfig then Plan(GalleryConfig[path].pattern, GalleryConfig[path].max)
    else if path in InheritedMembers then Plan("undefined", 0)
    else Plan(LastSegment(path), FallbackCount)
  }

  /** `url` lies in the directory `path` and names a JPEG file. */
  predicate InGalleryDir(url: string, path: string) {
    && |url| >= |path| + 1 + 4
    && url[..|path| + 1] == path + "/"
    && url[|url| - 4..] == ".jpg"
  }

  function UrlPrefix(path: string, stem: string): string {
    path + "/" + stem + "-"
  }

  /** The URL of the `i`-th (1-based) image of a gallery. */
  function ImageUrl(path: string, stem: string, i: nat): (url: string)
    ensures InGalleryDir(url, path)
  {
    UrlPrefix(path, stem) + NatToString(i) + ".jpg"
  }

  /** Recovers the image number from a URL of the form `ImageUrl` builds. */
  function ParseImageUrl(url: string, path: string, stem: string): Option<nat> {
    var pre := UrlPrefix(path, stem);
    if |url| >= |pre| + 4 && url[..|pre|] == pre && url[|url| - 4..] == ".jpg"
       && Canonical(url[|pre|..|url| - 4])
    then Some(ParseDigits(url[|pre|..|url| - 4]))
    else None
  }

  /** Parsing inverts `ImageUrl`, and only URLs `ImageUrl` builds parse. */
  lemma ParseImageUrlIff(url: string, path: string, stem: string, i: nat)
    ensures ParseImageUrl(url, path, stem) == Some(i) <==> url == ImageUrl(path, stem, i)
  {
    var pre := UrlPrefix(path, stem);
    var digits := NatToString(i);
    if url == ImageUrl(path, stem, i) {
      assert url[..|pre|] == pre;
      assert url[|pre|..|url| - 4] == digits;
      ParseNatToString(i);
    }
    if ParseImageUrl(url, path, stem) == Some(i) {
      var mid := url[|pre|..|url| - 4];
      NatToStringOfParse(mid);
      assert url == url[..|pre|] + mid + url[|url| - 4..];
    }
  }

  /** Different image numbers give different URLs. */
  lemma ImageUrlInjective(path: string, stem: string, i: nat, j: nat)
    ensures ImageUrl(path, stem, i) == ImageUrl(path, stem, j) ==> i == j
  {
    ParseImageUrlIff(ImageUrl(path, stem, i), path, stem, i);
    ParseImageUrlIff(ImageUrl(path, stem, j), path, stem, j);
  }

  /** Every table entry lists at least one image. */
  lemma TableCountsPositive()
    ensures forall p :: p in GalleryConfig ==> GalleryConfig[p].max >= 1
  {
  }

  /** No inherited member name is a table key. */
  lemma InheritedNotConfigured()
    ensures forall p :: p in InheritedMembers ==> p !in GalleryConfig
  {
    TableKeysLong();
    InheritedNamesShort();
  }

  lemma TableKeysLong()
    ensures forall p :: p in GalleryConfig ==> |p| >= 25
  {
  }

  lemma InheritedNamesShort()
    ensures forall p :: p in InheritedMembers ==> |p| <= 20
  {
  }

  /** The `for (let i = 1; i <= count; i++)` loop that fills the list. */
  method CollectImages(path: string, plan: Plan) returns (images: seq<string>)
    ensures |images| == plan.count
    ensures forall k :: 0 <= k < |images| ==> images[k] == ImageUrl(path, plan.stem, k + 1)
    ensures forall k :: 0 <= k < |images| ==> ParseImageUrl(images[k], path, plan.stem) == Some(k + 1)
  {
    images := [];
    var i := 1;
    while i <= plan.count
      invariant 1 <= i <= plan.count + 1
      invariant |images| == i - 1
      invariant forall k :: 0 <= k < |images| ==> images[k] == ImageUrl(path, plan.stem, k + 1)
    {
      images := images + [ImageUrl(path, plan.stem, i)];
      i := i + 1;
    }
    forall k | 0 <= k < |images|
      ensures ParseImageUrl(images[k], path, plan.stem) == Some(k + 1)
    {
      ParseImageUrlIff(images[k], path, plan.stem, k + 1);
    }
  }

  /** The resolver with own-key lookup: a configured path yields exactly its
      `max` images numbered 1..max under its pattern, any other path the 100
      fallback images named after its last segment; never an empty list. */
  method FetchGalleryImages(path: string) returns (images: seq<string>)
    ensures path in GalleryConfig ==>
      && |images| == GalleryConfig[path].max
      && forall k :: 0 <= k < |images| ==>
           images[k] == ImageUrl(path, GalleryConfig[path].pattern, k + 1)
    ensures path !in GalleryConfig ==>
      && |images| == FallbackCount
      && forall k :: 0 <= k < |images| ==>
           images[k] == ImageUrl(path, LastSegment(path), k + 1)
    ensures |images| >= 1
    ensures forall k :: 0 <= k < |images| ==> InGalleryDir(images[k], path)
    ensures forall k, l :: 0 <= k < l < |images| ==> images[k] != images[l]
  {
    TableCountsPositive();
    var plan := Resolve(path);
    images := CollectImages(path, plan);
    forall k, l | 0 <= k < l < |images|
      ensures images[k] != images[l]
    {
      ImageUrlInjective(path, plan.stem, k + 1, l + 1);
    }
  }

  /** The resolver as written: identical for table paths and ordinary
      unknown paths, but an inherited member name yields no images. */
  method FetchGalleryImagesAsWritten(path: string) returns (images: seq<string>)
    ensures path in InheritedMembers ==> images == []
    ensures path !in InheritedMembers ==> |images| >= 1
    ensures path !in InheritedMembers ==>
      && |images| == Resolve(path).count
      && forall k :: 0 <= k < |images| ==> images[k] == ImageUrl(path, Resolve(path).stem, k + 1)
    ensures path in GalleryConfig ==> |images| == GalleryConfig[path].max
    ensures path !in GalleryConfig && path !in InheritedMembers ==>
      && |images| == FallbackCount
      && forall k :: 0 <= k < |images| ==>
           images[k] == ImageUrl(path, LastSegment(path), k + 1)
  {
    TableCountsPositive();
    InheritedNotConfigured();
    images := CollectImages(path, ResolveAsWritten(path));
  }

  /** Inherited member names are not table keys, yet the script's lookup
      resolves them to an empty list where the own-key lookup falls back. */
  lemma InheritedNameYieldsNoImages()
    ensures "toString" !in GalleryConfig
    ensures ResolveAsWritten("toString").count == 0
    ensures Resolve("toString") == Plan("toString", FallbackCount)
  {
    LastSegmentOfSlashFree("toString");
  }

  /** Lookup is by the whole path: a path that extends a key is an entry
      of its own, with its own pattern and count. */
  lemma LookupIsExact()
    ensures var short := "images/catalogs/awards and trophies/crystal";
      var long := "images/catalogs/awards and trophies/crystal tro";
      && long[..|short|] == short
      && Resolve(short) == Plan("crystal trophies", 28)
      && Resolve(long) == Plan("CRYSTAL TROPHIES", 71)
  {
  }

  /** A literal fact kept apart so the concrete-string proofs stay cheap. */
  lemma NSeriesPathSplits()
    ensures "images/catalogs/awards and trophies" + "/" + "N series"
         == "images/catalogs/awards and trophies/N series"
  {
  }

  /** The pattern need not be the path's last segment. */
  lemma PatternIsNotLastSegment()
    ensures var n := "images/catalogs/awards and trophies/N series";
      && Resolve(n) == Plan("N SERIES 25-26", 126)
      && LastSegment(n) == "N series"
  {
    NSeriesPathSplits();
    LastSegmentAfterSlash("images/catalogs/awards and trophies", "N series");
  }

  /** A literal fact kept apart so the concrete-string proofs stay cheap. */
  lemma FooBarPathSplits()
    ensures "images/catalogs/foo" + "/" + "bar" == "images/catalogs/foo/bar"
  {
  }

  /** A literal fact kept apart so the concrete-string proofs stay cheap. */
  lemma HundredRendered()
    ensures NatToString(100) == "100"
  {
  }

  /** An unknown path is named after its last segment. */
  lemma FallbackNamesLastSegment()
    ensures Resolve("images/catalogs/foo/bar") == Plan("bar", FallbackCount)
    ensures ImageUrl("images/catalogs/foo/bar", "bar", 100) == "images/catalogs/foo/bar/bar-100.jpg"
  {
    FooBarPathSplits();
    LastSegmentAfterSlash("images/catalogs/foo", "bar");
    HundredRendered();
  }

  /** The bottles gallery lists ten images under its own pattern. */
  lemma BottlesGalleryEntry()
    ensures Resolve("images/catalogs/bottles/bottles") == Plan("Aquabot Bottle and Drinkware 2025", 10)
  {
  }

  /** Image numbers are written in plain decimal: image 10 of any gallery
      and stem is `<path>/<stem>-10.jpg`. */
  lemma TenthImageUrl(path: string, stem: string)
    ensures ImageUrl(path, stem, 10) == path + "/" + stem + "-10.jpg"
  {
    assert NatToString(10) == "10";
  }
}
