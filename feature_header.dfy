/**
 * The hero header of a feature article: which media element it shows and in
 * which order the header's parts are arranged, depending on the hero's layout
 * tag and the measured width of the header.
 */
module FeatureHeader {
  import opened Wrappers
  import opened Strings

  /** Widths strictly below this many pixels count as small screens. */
  const Breakpoint: int := 600

  /** The hero section's `type` tag. Any other string is kept as `Other`. */
  datatype Layout = Fullscreen | Split | Text | Other(tag: string)

  function ParseLayout(tag: string): (l: Layout)
    ensures l == Fullscreen <==> tag == "fullscreen"
    ensures l == Split <==> tag == "split"
    ensures l == Text <==> tag == "text"
    ensures l.Other? ==> l.tag == tag
  {
    if tag == "fullscreen" then Fullscreen
    else if tag == "split" then Split
    else if tag == "text" then Text
    else Other(tag)
  }

  datatype Media = Image | Video

  /** A media element together with the URL it shows. */
  datatype Asset = Asset(media: Media, src: string)

  /** The parts a header is made of, in document order. */
  datatype Slot =
    | FeatureAsset(asset: Asset, overlay: bool)  // the large asset; fullscreen adds a darkening overlay
    | InlineAsset(asset: Asset)                  // the asset of the text layout, inside the text container
    | Vertical(name: string)
    | Title(title: string)
    | SubHeader(text: string, authorDate: AuthorDate)

  /** What the header hands to AuthorDate, which is not part of this model. */
  datatype AuthorDate = AuthorDate(layout: string, authors: seq<string>, date: string)

  /** `isVideo`: a URL is treated as a video when "mp4" appears anywhere in it, not only as its extension. */
  predicate IsVideo(url: string): (b: bool)
    ensures b <==> Occurs(url, "mp4")
  {
    Includes(url, "mp4")
  }

  /** A URL ending in ".mp4" is a video. */
  lemma Mp4ExtensionIsVideo(url: string)
    requires |url| >= 4 && url[|url| - 4..] == ".mp4"
    ensures IsVideo(url)
  {
    assert url[|url| - 3..|url|] == "mp4";
    assert OccursAt(url, "mp4", |url| - 3);
  }

  /** The heuristic in action: a JPEG is an image unless "mp4" occurs elsewhere in its URL. */
  lemma VideoClassificationExamples()
    ensures !IsVideo("a.jpg")
    ensures IsVideo("a.jpg?mp4")
  {
    assert "a.jpg"[1..] == ".jpg" && ".jpg"[1..] == "jpg" && "jpg"[1..] == "pg";
    assert "jpg"[..3] != "mp4" by { assert "jpg"[0] != "mp4"[0]; }
    assert ".jpg"[..3] != "mp4" by { assert ".jpg"[0] != "mp4"[0]; }
    assert "a.jpg"[..3] != "mp4" by { assert "a.jpg"[0] != "mp4"[0]; }
    assert !Includes("pg", "mp4");
    assert "a.jpg?mp4"[6..9] == "mp4";
    assert OccursAt("a.jpg?mp4", "mp4", 6);
  }

  /** `renderAsset`: a video for video URLs, an image otherwise, showing `url`. */
  function RenderAsset(url: string): (a: Asset)
    ensures a.src == url
    ensures a.media == Video <==> Occurs(url, "mp4")
    ensures a.media == Image <==> !Occurs(url, "mp4")
  {
    Asset(if IsVideo(url) then Video else Image, url)
  }

  /** `renderFeatureAsset`: asset and overlay for fullscreen, the bare asset for split, nothing otherwise. */
  function RenderFeatureAsset(url: string, layout: Layout): (r: Option<Slot>)
    ensures r.Some? <==> layout == Fullscreen || layout == Split
    ensures r.Some? ==> r.value.FeatureAsset? && r.value.asset == RenderAsset(url)
    ensures r.Some? ==> (r.value.overlay <==> layout == Fullscreen)
  {
    if layout == Fullscreen then Some(FeatureAsset(RenderAsset(url), true))
    else if layout == Split then Some(FeatureAsset(RenderAsset(url), false))
    else None
  }

  /** `renderTextLayoutAsset`: an inline asset for the text layout only. */
  function RenderTextLayoutAsset(url: string, layout: Layout): (r: Option<Slot>)
    ensures r.Some? <==> layout == Text
    ensures r.Some? ==> r.value == InlineAsset(RenderAsset(url))
  {
    if layout == Text then Some(InlineAsset(RenderAsset(url))) else None
  }

  datatype Hero = Hero(heroType: string, url: string, subheader: string)

  datatype Article = Article(verticalName: string, title: string, hero: Hero,
                             authors: seq<string>, publishedAt: string)

  /** The measured size; a width that was not reported is `None` (JavaScript `undefined`). */
  datatype Size = Size(width: Option<int>)

  /** The header's props; `size` is `None` when the prop is not supplied. */
  datatype Props = Props(article: Article, size: Option<Size>)

  /** `defaultProps`: a missing `size` becomes a size of width 0. */
  function EffectiveSize(size: Option<Size>): (s: Size)
    ensures size.None? ==> s == Size(Some(0))
    ensures size.Some? ==> s == size.value
  {
    size.GetOr(Size(Some(0)))
  }

  /**
   * `width < 600` in JavaScript: an `undefined` width compares as NaN, so it
   * is never below the breakpoint.
   */
  predicate BelowBreakpoint(width: Option<int>): (b: bool)
    ensures width.None? ==> !b
    ensures width.Some? ==> (b <==> width.value <= Breakpoint - 1)
  {
    width.Some? && width.value < Breakpoint
  }

  /**
   * The two arrangements of `FeatureHeader`. `Stacked` keeps everything in
   * the text block; `Standard` has an optional leading asset before the text
   * block and an optional trailing asset after it. `dataType` is the
   * container's `data-type` attribute, which the styles key on.
   */
  datatype Arrangement =
    | Stacked(dataType: string, text: seq<Slot>)
    | Standard(dataType: string, lead: seq<Slot>, text: seq<Slot>, trailing: seq<Slot>)

  /** All slots of an arrangement in document order. */
  function Slots(a: Arrangement): seq<Slot> {
    match a
    case Stacked(_, text) => text
    case Standard(_, lead, text, trailing) => lead + text + trailing
  }

  function SubHeaderOf(article: Article): Slot {
    SubHeader(article.hero.subheader,
              AuthorDate(article.hero.heroType, article.authors, article.publishedAt))
  }

  /** `FeatureHeader`: the stacked arrangement below the breakpoint for split heroes, the standard one otherwise. */
  function Render(props: Props): (a: Arrangement)
    ensures a.Stacked? <==> BelowBreakpoint(EffectiveSize(props.size).width) && props.article.hero.heroType == "split"
    ensures a.dataType == props.article.hero.heroType
  {
    var article := props.article;
    var hero := article.hero;
    var layout := ParseLayout(hero.heroType);
    var head := [Vertical(article.verticalName), Title(article.title)];
    if BelowBreakpoint(EffectiveSize(props.size).width) && hero.heroType == "split" then
      Stacked(hero.heroType, head + ToSeq(RenderFeatureAsset(hero.url, layout)) + [SubHeaderOf(article)])
    else
      Standard(hero.heroType,
               ToSeq(RenderFeatureAsset(hero.url, layout)),
               head + [SubHeaderOf(article)],
               ToSeq(RenderTextLayoutAsset(hero.url, layout)))
  }

  /** The stacked arrangement puts the split asset, without overlay, between Title and SubHeader. */
  lemma StackedOrder(props: Props)
    requires Render(props).Stacked?
    ensures Slots(Render(props)) == [Vertical(props.article.verticalName), Title(props.article.title),
                                     FeatureAsset(RenderAsset(props.article.hero.url), false),
                                     SubHeaderOf(props.article)]
  {
  }

  /**
   * The standard arrangement: the feature asset (overlaid for fullscreen)
   * before the text block, the text block Vertical, Title, SubHeader, and the
   * inline asset of the text layout after it.
   */
  lemma StandardOrder(props: Props)
    requires Render(props).Standard?
    ensures var article := props.article;
            var t := article.hero.heroType;
            var url := article.hero.url;
            Slots(Render(props)) ==
              (if t in {"fullscreen", "split"} then [FeatureAsset(RenderAsset(url), t == "fullscreen")] else [])
              + [Vertical(article.verticalName), Title(article.title), SubHeaderOf(article)]
              + (if t == "text" then [InlineAsset(RenderAsset(url))] else [])
  {
  }

  /** For a split hero, width 599 stacks and width 600 does not. */
  lemma SplitBreakpointBoundary(article: Article)
    requires article.hero.heroType == "split"
    ensures Render(Props(article, Some(Size(Some(599))))).Stacked?
    ensures Render(Props(article, Some(Size(Some(600))))).Standard?
  {
  }

  /** Every layout other than split is arranged the same way at every size. */
  lemma WidthIrrelevantUnlessSplit(article: Article, s1: Option<Size>, s2: Option<Size>)
    requires article.hero.heroType != "split"
    ensures Render(Props(article, s1)) == Render(Props(article, s2))
  {
  }

  /** Without a measured size, a split header is stacked; a size without a width is not. */
  lemma UnmeasuredSplitIsStacked(article: Article)
    requires article.hero.heroType == "split"
    ensures Render(Props(article, None)).Stacked?
    ensures Render(Props(article, Some(Size(None)))).Standard?
  {
  }

  predicate IsAsset(s: Slot) {
    s.FeatureAsset? || s.InlineAsset?
  }

  /** The number of asset slots in `s`. */
  function AssetCount(s: seq<Slot>): nat {
    if s == [] then 0 else (if IsAsset(s[0]) then 1 else 0) + AssetCount(s[1..])
  }

  lemma {:induction false} AssetCountAppend(a: seq<Slot>, b: seq<Slot>)
    ensures AssetCount(a + b) == AssetCount(a) + AssetCount(b)
  {
    if a == [] {
      assert a + b == b;
    } else {
      assert (a + b)[1..] == a[1..] + b;
      AssetCountAppend(a[1..], b);
    }
  }

  /**
   * Every arrangement holds at most one asset: exactly one for fullscreen,
   * split and text heroes, none for any other tag.
   */
  lemma AtMostOneAsset(props: Props)
    ensures AssetCount(Slots(Render(props))) <= 1
    ensures var t := props.article.hero.heroType;
            AssetCount(Slots(Render(props))) == 1 <==> t == "fullscreen" || t == "split" || t == "text"
  {
    var article := props.article;
    var hero := article.hero;
    var layout := ParseLayout(hero.heroType);
    var head := [Vertical(article.verticalName), Title(article.title)];
    var feature := ToSeq(RenderFeatureAsset(hero.url, layout));
    var inline := ToSeq(RenderTextLayoutAsset(hero.url, layout));
    var tail := [SubHeaderOf(article)];
    assert head[1..] == [Title(article.title)] && head[1..][1..] == [] && tail[1..] == [];
    assert AssetCount(head[1..]) == 0;
    assert AssetCount(head) == 0 && AssetCount(tail) == 0;
    assert AssetCount(feature) == |feature| && AssetCount(inline) == |inline|;
    match Render(props)
    case Stacked(_, text) =>
      AssetCountAppend(head, feature);
      AssetCountAppend(head + feature, tail);
    case Standard(_, lead, text, trailing) =>
      AssetCountAppend(head, tail);
      AssetCountAppend(lead, text);
      AssetCountAppend(lead + text, trailing);
  }

  /**
   * Where the asset sits: a leading asset only for fullscreen and split, a
   * trailing inline asset exactly for text, at every width.
   */
  lemma AssetPlacement(props: Props)
    ensures var a := Render(props);
            a.Standard? && a.lead != [] ==> props.article.hero.heroType in {"fullscreen", "split"}
    ensures var a := Render(props);
            a.Standard? && a.trailing != [] <==> props.article.hero.heroType == "text"
    ensures props.article.hero.heroType == "text" ==>
              Render(props).Standard? && Render(props).trailing == [InlineAsset(RenderAsset(props.article.hero.url))]
    ensures props.article.hero.heroType == "fullscreen" ==>
              Render(props).Standard? && Render(props).lead == [FeatureAsset(RenderAsset(props.article.hero.url), true)]
  {
  }
}
