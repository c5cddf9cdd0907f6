# Decision logic of the publishing, onboarding and gene-listing components

This project models the pure decision logic in five React components of a
front-end component library. It also proves properties about that logic.

- **Feature header** (`FeatureHeader`): a URL is classified as video or
  image by a substring test for "mp4". The hero's layout tag (`fullscreen`,
  `split`, `text` or anything else) picks the asset element. One of two
  arrangements is then chosen. A split hero measured narrower than 600
  pixels is *stacked*: its asset sits between Title and SubHeader inside the
  text block. Every other header is *standard*: an optional leading asset
  comes before the text block, and the text layout's optional inline asset
  comes after it. The output is a descriptor (`Arrangement`) of the slots in
  document order.
- **Image section** (`ImageSection`): a missing or empty caption defaults to
  `''`. The caption shown by Caption is unstripped. The `alt` text is the
  caption after `replace(/<[^>]*>/g, "")`, modelled as `StripTags` with
  leftmost, global matching. Missing props get defaults (width "100%",
  height "auto", linked).
- **Article** (`PublishingArticle`): the `layout` field selects the series,
  video or article layout. The selection is total, and the chosen layout
  gets the props unchanged. The analytics record is
  `{page: "Article", entity_type: "article", entity_id}`.
- **Gene artworks** (`GeneArtworks`): the sort pulldown finds the option
  whose value is `sort`. There is one filter dropdown per aggregation. Its
  selection is read from the prop named by the lower-cased slice. The model
  also covers the two merge callbacks the pagination container uses for its
  variables, the fragment's argument defaults, and the `loading` state.
- **Onboarding step layout** (`OnboardingLayout`): the next button is
  disabled when no callback is supplied. Its text is "finished" on the last
  step and "next" otherwise.

`Wrappers` holds `Option`. In most places `None` stands for a missing
(`undefined`) value. For the pagination cursor it stands for the `null`
cursor the query layer passes.
`Strings` holds `includes` and `toLowerCase`.

Three facts about the code shape the model:

- An unknown sort value is not rejected. The lookup just finds nothing
  (`src/Components/Gene/Artworks.tsx:120`).
- `onLoadMore` does nothing. The component has no in-flight guard and no
  cursor reset on filter change.
- The text layout's inline asset is rendered at every width
  (`src/components/publishing/header/feature_header.tsx:89`).

Two JavaScript details are modelled as they are:

- A `size` prop that is supplied but has no `width` does not count as below
  the breakpoint, because `undefined < 600` is false. Only a missing `size`
  defaults to width 0.
- A `<` with no later `>` stops all further stripping.

## Model

| member | source | states |
|---|---|---|
| `Strings.Includes` | src/components/publishing/header/feature_header.tsx:48 | the left-to-right `includes` scan holds exactly when the pattern occurs at some index of the string |
| `Strings.ToLowerChar` | src/Components/Gene/Artworks.tsx:86 | lower-casing maps A–Z to a–z, leaves other characters alone and never yields an upper-case letter |
| `Strings.ToLower` | src/Components/Gene/Artworks.tsx:86 | lower-casing keeps the length and lower-cases each character in place |
| `Strings.ToLowerIdempotent` | src/Components/Gene/Artworks.tsx:86 | lower-casing twice equals lower-casing once; only the empty string lower-cases to empty |
| `FeatureHeader.ParseLayout` | src/components/publishing/header/feature_header.tsx:8-45 | each of the three tags compared by the header maps to its own layout, and every other tag is kept as `Other` |
| `FeatureHeader.IsVideo` | src/components/publishing/header/feature_header.tsx:47-49 | a URL is a video exactly when "mp4" occurs anywhere in it |
| `FeatureHeader.Mp4ExtensionIsVideo` | src/components/publishing/header/feature_header.tsx:47-49 | every URL ending in ".mp4" is a video |
| `FeatureHeader.VideoClassificationExamples` | src/components/publishing/header/feature_header.tsx:47-49 | "a.jpg" is an image, but "a.jpg?mp4" is a video: the test is not an extension test |
| `FeatureHeader.RenderAsset` | src/components/publishing/header/feature_header.tsx:23-33 | the element is a video exactly when "mp4" occurs in the URL, an image otherwise, and it shows that URL |
| `FeatureHeader.RenderFeatureAsset` | src/components/publishing/header/feature_header.tsx:8-21 | an asset exists exactly for fullscreen and split, it is the rendered asset of the URL, and it has an overlay exactly for fullscreen |
| `FeatureHeader.RenderTextLayoutAsset` | src/components/publishing/header/feature_header.tsx:35-45 | an inline asset exists exactly for the text layout |
| `FeatureHeader.EffectiveSize` | src/components/publishing/header/feature_header.tsx:96-100 | a missing size becomes width 0; a supplied size is kept |
| `FeatureHeader.BelowBreakpoint` | src/components/publishing/header/feature_header.tsx:60 | `width < 600`: an undefined width is never below the breakpoint; a defined width is below it exactly when it is at most 599 |
| `FeatureHeader.Render` | src/components/publishing/header/feature_header.tsx:56-94 | the stacked arrangement is chosen exactly when the effective width is below 600 and the type is "split"; the container's data-type is the hero type |
| `FeatureHeader.StackedOrder` | src/components/publishing/header/feature_header.tsx:60-75 | a stacked header is Vertical, Title, the split asset without overlay, SubHeader, in that order |
| `FeatureHeader.StandardOrder` | src/components/publishing/header/feature_header.tsx:76-93 | a standard header is the feature asset (overlaid exactly for fullscreen, present for fullscreen and split), then Vertical, Title, SubHeader, then the inline asset for text |
| `FeatureHeader.SplitBreakpointBoundary` | src/components/publishing/header/feature_header.tsx:60 | a split header is stacked at width 599 and standard at 600 |
| `FeatureHeader.WidthIrrelevantUnlessSplit` | src/components/publishing/header/feature_header.tsx:60-93 | for any type other than split, the arrangement is the same for every size |
| `FeatureHeader.UnmeasuredSplitIsStacked` | src/components/publishing/header/feature_header.tsx:56-100 | a split header without a size prop is stacked; one whose size has no width is standard |
| `FeatureHeader.AtMostOneAsset` | src/components/publishing/header/feature_header.tsx:56-93 | every arrangement holds at most one asset, and exactly one when the type is fullscreen, split or text |
| `FeatureHeader.AssetPlacement` | src/components/publishing/header/feature_header.tsx:76-93 | a leading asset appears only for fullscreen or split, a trailing inline asset exactly for text at any width, and fullscreen leads with the overlaid asset |
| `ImageSection.CaptionText` | src/Components/Publishing/Sections/Image.tsx:29 | a present non-empty caption is kept; a missing or empty one becomes "" |
| `ImageSection.IndexOf` | src/Components/Publishing/Sections/Image.tsx:31 | finds the first `>` the tag pattern runs to, or reports that there is none |
| `ImageSection.StripTags` | src/Components/Publishing/Sections/Image.tsx:31 | the global tag replacement, leftmost first: never longer than the input, and the identity on a text with no `<` |
| `ImageSection.StripTagsNoTags` | src/Components/Publishing/Sections/Image.tsx:31 | the stripped text has no `<` with a `>` after it |
| `ImageSection.StripTagsFixesTagFree` | src/Components/Publishing/Sections/Image.tsx:31 | a text without tags is returned unchanged |
| `ImageSection.StripTagsFixpointIff` | src/Components/Publishing/Sections/Image.tsx:31 | stripping leaves a text unchanged exactly when it has no tag |
| `ImageSection.StripTagsIdempotent` | src/Components/Publishing/Sections/Image.tsx:31 | stripping the stripped text again changes nothing |
| `ImageSection.StripTagsWithoutOpeningBracket` | src/Components/Publishing/Sections/Image.tsx:31 | a caption with no `<` is returned unchanged |
| `ImageSection.StripTagsSubsequence` | src/Components/Publishing/Sections/Image.tsx:31 | the stripped text is a subsequence of the input and never longer |
| `ImageSection.StripTagsExample` | src/Components/Publishing/Sections/Image.tsx:31 | "<p>Hi</p>" becomes "Hi" |
| `ImageSection.StripTagsUnclosedExample` | src/Components/Publishing/Sections/Image.tsx:31 | "a<b" is kept whole: an unclosed `<` stops the stripping |
| `ImageSection.WithDefaults` | src/Components/Publishing/Sections/Image.tsx:57-61 | absent width, height and linked become "100%", "auto" and true; supplied values and all other props are kept |
| `ImageSection.WithDefaultsIdempotent` | src/Components/Publishing/Sections/Image.tsx:57-61 | applying the defaults twice equals applying them once |
| `ImageSection.Render` | src/Components/Publishing/Sections/Image.tsx:18-55 | Caption gets the defaulted, unstripped caption; ImageWrapper gets the stripped caption as alt, the resized src, the index and the defaulted size and link flag |
| `ImageSection.AltText` | src/Components/Publishing/Sections/Image.tsx:29-49 | alt has no tags and is a subsequence of the shown caption, at most as long; it is "" for a missing or empty caption and equals a caption that has no `<` |
| `PublishingArticle.GetArticleLayout` | src/Components/Publishing/Article.tsx:39-53 | "series" selects SeriesLayout, "video" selects VideoLayout, every other value selects ArticleLayout, and the chosen layout gets the props unchanged |
| `PublishingArticle.LayoutDependsOnlyOnTag` | src/Components/Publishing/Article.tsx:42-52 | two props with the same layout value select the same layout |
| `PublishingArticle.UnknownLayoutFallsBack` | src/Components/Publishing/Article.tsx:49-51 | "unknown_value" selects ArticleLayout, with no error |
| `PublishingArticle.TrackingData` | src/Components/Publishing/Article.tsx:28-34 | the record is page "Article", entity type "article" and the article's id |
| `PublishingArticle.TrackingDataIdentifiesArticle` | src/Components/Publishing/Article.tsx:28-34 | two views give the same record exactly when their articles have the same id |
| `OnboardingLayout.Render` | src/Components/Onboarding/Steps/Layout.tsx:89-105 | the button is disabled exactly when no callback is supplied and reads "finished" exactly when isLastStep is true, else "next"; it calls the supplied callback; the title is followed by a space |
| `OnboardingLayout.FalsyLastStepIsNext` | src/Components/Onboarding/Steps/Layout.tsx:13-91 | isLastStep false, null or undefined gives "next" |
| `OnboardingLayout.ButtonStateIndependence` | src/Components/Onboarding/Steps/Layout.tsx:90-91 | the text does not depend on the callback, and disabled does not depend on isLastStep |
| `GeneArtworks.FindSort` | src/Components/Gene/Artworks.tsx:120 | finds the first option whose value is the sort, or reports that none matches |
| `GeneArtworks.SortPulldown` | src/Components/Gene/Artworks.tsx:115-135 | the pulldown's default is "Recently Updated", its options are the three sort options, and a name is selected exactly when some option's value is the sort |
| `GeneArtworks.OptionValuesDistinct` | src/Components/Gene/Artworks.tsx:115-119 | the three option values are pairwise distinct |
| `GeneArtworks.SelectedSortIsUnique` | src/Components/Gene/Artworks.tsx:115-120 | when an option's value is the sort, the selected name is that option's name |
| `GeneArtworks.UnknownSortFallsBack` | src/Components/Gene/Artworks.tsx:120-135 | an unset or unknown sort selects no name, and the default label is "Recently Updated" |
| `GeneArtworks.FallbackLabelMatchesDefaultSort` | src/Components/Gene/Artworks.tsx:116-170 | the fallback label is the name of the option for the fragment's default sort |
| `GeneArtworks.Dropdowns` | src/Components/Gene/Artworks.tsx:80-91 | one dropdown per aggregation, in order, keyed by its slice and selecting that slice's prop |
| `GeneArtworks.RenderDropdown` | src/Components/Gene/Artworks.tsx:80-91 | the i-th dropdown is made from the i-th aggregation, keyed by its slice and selecting that slice's prop; there are as many dropdowns as aggregations |
| `GeneArtworks.PropNamed` | src/Components/Gene/Artworks.tsx:86 | a prop name reads a value only for the filter and sort props; medium, price_range, dimension_range and sort read the string prop of that name, and for_sale reads the boolean flag when it is set |
| `GeneArtworks.SelectedFor` | src/Components/Gene/Artworks.tsx:86 | an empty slice selects nothing; otherwise the lower-cased slice names the selected prop: medium, price_range, dimension_range and sort select their string prop, for_sale selects the `for_sale` flag exactly when it is set, and no other name selects anything |
| `GeneArtworks.DropdownsAppend` | src/Components/Gene/Artworks.tsx:81 | the dropdowns of two lists of aggregations, concatenated, are the dropdowns of the concatenated list |
| `GeneArtworks.SliceSelections` | src/Components/Gene/Artworks.tsx:86 | MEDIUM, PRICE_RANGE and DIMENSION_RANGE select the props of the same lower-case name; TOTAL and the empty slice select nothing |
| `GeneArtworks.SelectionIgnoresCase` | src/Components/Gene/Artworks.tsx:86 | a slice and its lower-cased form select the same value |
| `GeneArtworks.GetFragmentVariables` | src/Components/Gene/Artworks.tsx:220-225 | the previous variables with only count set to the total count |
| `GeneArtworks.GetVariables` | src/Components/Gene/Artworks.tsx:226-235 | every fragment variable is kept except count, cursor and geneNodeID, which take the requested count, the cursor (or null) and the gene's id |
| `GeneArtworks.CursorValue` | src/Components/Gene/Artworks.tsx:232 | the cursor is passed through as given: a `null` cursor (`None`) as null, a string cursor as that string |
| `GeneArtworks.FragmentCountLastWins` | src/Components/Gene/Artworks.tsx:220-225 | two fragment-variable updates in a row equal the last one alone |
| `GeneArtworks.GetVariablesIgnoresFragmentCount` | src/Components/Gene/Artworks.tsx:220-235 | the count set by getFragmentVariables does not reach the query variables |
| `GeneArtworks.GetVariablesKeepsFilters` | src/Components/Gene/Artworks.tsx:220-235 | across `getFragmentVariables` followed by `getVariables`, sort, for_sale, medium, price_range, dimension_range and aggregations reach the next query unchanged |
| `GeneArtworks.FragmentArguments` | src/Components/Gene/Artworks.tsx:167-176 | each declared argument takes the supplied value, else its default; for_sale has no default |
| `GeneArtworks.FragmentDefaultsWithNothingSupplied` | src/Components/Gene/Artworks.tsx:167-176 | with nothing supplied: count 10 (the page size), cursor "", sort "-partner_updated_at", and "*" for medium, price_range and dimension_range |
| `GeneArtworks.OnLoadMore` | src/Components/Gene/Artworks.tsx:141 | asking for more leaves `loading` as it was |
| `GeneArtworks.SpinnerNeverShown` | src/Components/Gene/Artworks.tsx:75-143 | loading starts false, so the spinner is hidden, and onLoadMore leaves the state, and so the spinner, as it was |

## Left out

- Styling: the styled-components CSS, the media-query helpers and the overlay opacity. These are presentation, not decisions.
- Width measurement by react-sizeme: the width is an input. It is an integer here. A fractional pixel width is not modelled.
- The resizing service that computes the image `src`: its source is not part of this model. `ImageSection.Render` takes the resized URL as a parameter.
- Dispatching the analytics event (the `track` decorator and `Events.postEvent`): these are foreign calls. Only the record is modelled.
- The Relay pagination container, `getConnectionFromProps` and the GraphQL query text: these are transport. Only the two variable callbacks and the argument defaults are modelled.
- `GeneArtworks.FragmentArguments`: this is how the query layer applies `@argumentDefinitions`. The model does not separate an explicitly supplied `null` from any other supplied value.
- Child components (Dropdown, Headline, TotalCount, ArtworkGrid, BorderedPulldown, Caption, ImageWrapper, AuthorDate and the three article layouts). Their source is not part of this model. The model states only the props they receive. How BorderedPulldown uses its `defaultValue` is theirs.
- `PublishingArticle.ArticleProps`: it leaves out the untyped props `relatedArticles`, `relatedArticlesForPanel`, `relatedArticlesForCanvas` and `display`. They are passed to the chosen layout like the rest but have no declared shape, so "the props unchanged" is stated for the props that are modelled.
- `GeneArtworks.DropdownView` leaves out the `onSelected` callback, and `GeneArtworks.PulldownView` leaves out the `onChange` callback. Both are the caller's callbacks, passed through unchanged.
- `renderArtistsModeToggle`, `renderForSaleToggle` and the Headline and TotalCount props: they only pass props and callbacks through.
- `editCaption`, `children` and the wrapping `div`s: pass-through rendering with no decision in it.
- `Strings.ToLower` and `Strings.ToLowerChar`: lower-case the ASCII letters A–Z only, not the full Unicode case mapping of `toLowerCase`. The only strings lower-cased are aggregation slices, which are GraphQL enum values with ASCII names, so no such input is affected.
- `GeneArtworks.SelectedFor`: an empty slice selects `""`, and a missing prop selects `undefined`. Both are falsy, and both are modelled as `None`.
- `GeneArtworks.PropNamed`: only the filter props and `sort` are possible lookup targets. A slice that lower-cases to another prop's name (`gene`, `relay`, a callback) is read as nothing.
- Inputs that would make the JavaScript throw are not modelled, such as a missing `article.vertical` or a missing `hero_section`. The header takes the vertical's name and the hero as plain values.
- `FeatureHeader.AuthorDate`: contributing authors are modelled as a sequence of names.
- The storybook fixture for the video player: it holds no logic.
