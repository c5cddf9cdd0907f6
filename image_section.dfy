/**
 * The image section of a published article: its caption, the alternative
 * text derived from the caption by removing HTML tags, and its default props.
 */
module ImageSection {
  import opened Wrappers

  /** `image.caption || ''`: a missing or empty caption becomes the empty string. */
  function CaptionText(caption: Option<string>): (c: string)
    ensures caption.Some? && caption.value != "" ==> c == caption.value
    ensures caption.None? || caption.value == "" ==> c == ""
  {
    caption.GetOr("")
  }

  /** The index of the first `c` in `s`, or `None` when `s` has no `c`. */
  function IndexOf(s: string, c: char): (r: Option<nat>)
    ensures r.None? <==> c !in s
    ensures r.Some? ==> r.value < |s| && s[r.value] == c && c !in s[..r.value]
  {
    if s == [] then None
    else if s[0] == c then Some(0)
    else match IndexOf(s[1..], c)
      case None => None
      case Some(k) => assert s[..k + 1] == [s[0]] + s[1..][..k]; Some(k + 1)
  }

  /**
   * `s.replace(/<[^>]*>/g, "")`, scanning from the left. At a `<` that has a
   * `>` somewhere after it, the match runs through the first such `>` and is
   * deleted. At a `<` with no `>` after it nothing can match any more, so the
   * rest of the string is kept as it is.
   */
  function StripTags(s: string): (r: string)
    ensures |r| <= |s|
    ensures '<' !in s ==> r == s
    decreases |s|
  {
    if s == [] then []
    else if s[0] != '<' then [s[0]] + StripTags(s[1..])
    else match IndexOf(s[1..], '>')
      case None => s
      case Some(k) => StripTags(s[k + 2..])
  }

  /** No `<` in `s` has a `>` after it, so the tag pattern matches nowhere in `s`. */
  ghost predicate NoTags(s: string) {
    forall i, j :: 0 <= i < j < |s| && s[i] == '<' ==> s[j] != '>'
  }

  /** `a` is obtained from `b` by deleting characters. */
  ghost predicate IsSubsequence(a: string, b: string)
    decreases |b|
  {
    if a == [] then true
    else if b == [] then false
    else (a[0] == b[0] && IsSubsequence(a[1..], b[1..])) || IsSubsequence(a, b[1..])
  }

  /** A character other than `<` in front of a tag-free text keeps it tag-free. */
  lemma NoTagsCons(c: char, t: string)
    requires c != '<' && NoTags(t)
    ensures NoTags([c] + t)
  {
    var r := [c] + t;
    forall i, j | 0 <= i < j < |r| && r[i] == '<' ensures r[j] != '>' {
      assert r[i] == t[i - 1] && r[j] == t[j - 1];
    }
  }

  /** A text with no `>` after its first character has no tag. */
  lemma NoTagsWithoutClose(s: string)
    requires s != [] && '>' !in s[1..]
    ensures NoTags(s)
  {
    forall i, j | 0 <= i < j < |s| && s[i] == '<' ensures s[j] != '>' {
      assert s[j] == s[1..][j - 1];
    }
  }

  /** The stripped text has no tag left in it. */
  lemma {:induction false} StripTagsNoTags(s: string)
    ensures NoTags(StripTags(s))
    decreases |s|
  {
    if s == [] {
    } else if s[0] != '<' {
      StripTagsNoTags(s[1..]);
      NoTagsCons(s[0], StripTags(s[1..]));
    } else {
      match IndexOf(s[1..], '>')
      case None =>
        NoTagsWithoutClose(s);
      case Some(k) =>
        StripTagsNoTags(s[k + 2..]);
    }
  }

  /** A text with no tag in it comes back unchanged. */
  lemma {:induction false} StripTagsFixesTagFree(s: string)
    requires NoTags(s)
    ensures StripTags(s) == s
    decreases |s|
  {
    if s == [] {
    } else if s[0] != '<' {
      assert NoTags(s[1..]) by {
        forall i, j | 0 <= i < j < |s[1..]| && s[1..][i] == '<' ensures s[1..][j] != '>' {
          assert s[i + 1] == '<';
        }
      }
      StripTagsFixesTagFree(s[1..]);
    } else {
      assert '>' !in s[1..] by {
        forall j | 0 <= j < |s[1..]| ensures s[1..][j] != '>' {
          assert s[1..][j] == s[j + 1];
        }
      }
    }
  }

  /** Stripping leaves a text unchanged exactly when it has no tag. */
  lemma StripTagsFixpointIff(s: string)
    ensures StripTags(s) == s <==> NoTags(s)
  {
    StripTagsNoTags(s);
    if NoTags(s) {
      StripTagsFixesTagFree(s);
    }
  }

  /** Stripping twice is stripping once. */
  lemma StripTagsIdempotent(s: string)
    ensures StripTags(StripTags(s)) == StripTags(s)
  {
    StripTagsNoTags(s);
    StripTagsFixesTagFree(StripTags(s));
  }

  /** A caption without any `<` is its own alternative text. */
  lemma StripTagsWithoutOpeningBracket(s: string)
    requires '<' !in s
    ensures StripTags(s) == s
  {
    StripTagsFixesTagFree(s);
  }

  lemma {:induction false} SubsequenceReflexive(s: string)
    ensures IsSubsequence(s, s)
    decreases |s|
  {
    if s != [] {
      SubsequenceReflexive(s[1..]);
    }
  }

  lemma {:induction false} SubsequenceOfSuffix(a: string, b: string, n: nat)
    requires n <= |b| && IsSubsequence(a, b[n..])
    ensures IsSubsequence(a, b)
    decreases n
  {
    if n > 0 {
      assert b[1..][n - 1..] == b[n..];
      SubsequenceOfSuffix(a, b[1..], n - 1);
    }
  }

  lemma {:induction false} SubsequenceLength(a: string, b: string)
    requires IsSubsequence(a, b)
    ensures |a| <= |b|
    decreases |b|
  {
    if a != [] {
      if a[0] == b[0] && IsSubsequence(a[1..], b[1..]) {
        SubsequenceLength(a[1..], b[1..]);
      } else {
        SubsequenceLength(a, b[1..]);
      }
    }
  }

  /** The stripped text is the input with characters deleted, so it is never longer. */
  lemma {:induction false} StripTagsSubsequence(s: string)
    ensures IsSubsequence(StripTags(s), s)
    ensures |StripTags(s)| <= |s|
    decreases |s|
  {
    if s == [] {
    } else if s[0] != '<' {
      StripTagsSubsequence(s[1..]);
      var r := [s[0]] + StripTags(s[1..]);
      assert r[0] == s[0] && r[1..] == StripTags(s[1..]);
    } else {
      match IndexOf(s[1..], '>')
      case None =>
        SubsequenceReflexive(s);
      case Some(k) =>
        StripTagsSubsequence(s[k + 2..]);
        SubsequenceOfSuffix(StripTags(s[k + 2..]), s, k + 2);
    }
    SubsequenceLength(StripTags(s), s);
  }

  /** Worked example: the tags around a word are removed. */
  lemma StripTagsExample()
    ensures StripTags("<p>Hi</p>") == "Hi"
  {
    StripTagsClosingTagExample();
    var s := "<p>Hi</p>";
    assert s[1..] == "p>Hi</p>";
    assert IndexOf("p>Hi</p>", '>') == Some(1) by {
      assert "p>Hi</p>"[1..] == ">Hi</p>";
    }
    assert s[3..] == "Hi</p>";
  }

  /** The text before a closing tag is kept and the tag is removed. */
  lemma StripTagsClosingTagExample()
    ensures StripTags("Hi</p>") == "Hi"
  {
    var close := "</p>";
    assert close[1..] == "/p>" && close[4..] == [];
    assert IndexOf("/p>", '>') == Some(2) by {
      assert "/p>"[1..] == "p>" && "p>"[1..] == ">";
    }
    assert StripTags(close) == "";
    assert StripTags("i" + close) == "i" by {
      assert ("i" + close)[1..] == close;
    }
    assert "Hi</p>" == "Hi" + close;
    assert ("Hi" + close)[1..] == "i" + close;
  }

  /** Worked example: a `<` that is never closed keeps the rest of the text. */
  lemma StripTagsUnclosedExample()
    ensures StripTags("a<b") == "a<b"
  {
    assert "a<b"[1..] == "<b" && "<b"[1..] == "b";
    assert IndexOf("b", '>') == None;
  }

  /** A CSS length given either as a number or as a string such as "100%". */
  datatype Dimension = Number(n: int) | Css(value: string)

  datatype ImageData = ImageData(url: string, caption: Option<string>, index: Option<int>)

  /** The props of the section; an absent prop is `None`. */
  datatype Props = Props(image: ImageData, layout: Option<string>, sectionLayout: Option<string>,
                         linked: Option<bool>, width: Option<Dimension>, height: Option<Dimension>)

  /** `defaultProps`: width "100%", height "auto" and linked, wherever the prop is absent. */
  function WithDefaults(p: Props): (r: Props)
    ensures r.width.Some? && r.height.Some? && r.linked.Some?
    ensures p.width.None? ==> r.width == Some(Css("100%"))
    ensures p.height.None? ==> r.height == Some(Css("auto"))
    ensures p.linked.None? ==> r.linked == Some(true)
    ensures p.width.Some? ==> r.width == p.width
    ensures p.height.Some? ==> r.height == p.height
    ensures p.linked.Some? ==> r.linked == p.linked
    ensures r.image == p.image && r.layout == p.layout && r.sectionLayout == p.sectionLayout
  {
    p.(width := Some(p.width.GetOr(Css("100%"))),
       height := Some(p.height.GetOr(Css("auto"))),
       linked := Some(p.linked.GetOr(true)))
  }

  /** Applying the defaults a second time changes nothing. */
  lemma WithDefaultsIdempotent(p: Props)
    ensures WithDefaults(WithDefaults(p)) == WithDefaults(p)
  {
  }

  datatype WrapperProps = WrapperProps(linked: Option<bool>, layout: Option<string>, src: string,
                                       width: Option<Dimension>, height: Option<Dimension>,
                                       alt: string, index: Option<int>)

  datatype CaptionProps = CaptionProps(caption: string, layout: Option<string>, sectionLayout: Option<string>)

  /** What the section hands to ImageWrapper and to Caption. */
  datatype View = View(wrapper: WrapperProps, caption: CaptionProps)

  /**
   * The section for the props the caller supplied. `src` is the resized
   * image URL, computed by a resizing service that is not part of this model.
   */
  function Render(supplied: Props, src: string): (v: View)
    ensures v.caption.caption == CaptionText(supplied.image.caption)
    ensures v.wrapper.alt == StripTags(v.caption.caption)
    ensures v.wrapper.src == src && v.wrapper.index == supplied.image.index
    ensures v.wrapper.layout == supplied.layout && v.caption.layout == supplied.layout
    ensures v.caption.sectionLayout == supplied.sectionLayout
    ensures var d := WithDefaults(supplied);
            v.wrapper.linked == d.linked && v.wrapper.width == d.width && v.wrapper.height == d.height
  {
    var p := WithDefaults(supplied);
    var caption := CaptionText(p.image.caption);
    View(WrapperProps(p.linked, p.layout, src, p.width, p.height, StripTags(caption), p.image.index),
         CaptionProps(caption, p.layout, p.sectionLayout))
  }

  /**
   * The alternative text has no tags, is a subsequence of the caption that
   * Caption shows, is empty when the caption is missing or empty, and equals
   * the caption when the caption has no `<`.
   */
  lemma AltText(supplied: Props, src: string)
    ensures var v := Render(supplied, src);
            NoTags(v.wrapper.alt) && IsSubsequence(v.wrapper.alt, v.caption.caption)
            && |v.wrapper.alt| <= |v.caption.caption|
    ensures var c := supplied.image.caption;
            c.None? || c == Some("") ==> Render(supplied, src).wrapper.alt == ""
    ensures var c := supplied.image.caption;
            c.Some? && '<' !in c.value ==> Render(supplied, src).wrapper.alt == c.value
  {
    var caption := CaptionText(supplied.image.caption);
    StripTagsNoTags(caption);
    StripTagsSubsequence(caption);
    if '<' !in caption {
      StripTagsWithoutOpeningBracket(caption);
    }
  }
}
