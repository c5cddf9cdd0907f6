/**
 * A published article: the choice of page layout from the article's `layout`
 * field, and the analytics record built for it.
 */
module PublishingArticle {
  import opened Wrappers

  /** The fields of the article record that this model reads. */
  datatype ArticleData = ArticleData(id: string, layout: string)

  /** The component's props; an absent optional prop is `None`. */
  datatype ArticleProps = ArticleProps(
    article: ArticleData,
    seriesArticle: Option<ArticleData>,
    isMobile: Option<bool>,
    isSuper: Option<bool>,
    isTruncated: Option<bool>,
    emailSignupUrl: Option<string>,
    headerHeight: Option<string>,
    marginTop: Option<string>)

  /** The three page layouts an article can be shown with. */
  datatype Strategy = SeriesLayout | VideoLayout | ArticleLayout

  /** A chosen layout together with the props it is given. */
  datatype LayoutElement = LayoutElement(strategy: Strategy, props: ArticleProps)

  /** `getArticleLayout`: series and video have their own layouts; every other value gets the article layout. */
  function GetArticleLayout(props: ArticleProps): (e: LayoutElement)
    ensures e.props == props
    ensures e.strategy == SeriesLayout <==> props.article.layout == "series"
    ensures e.strategy == VideoLayout <==> props.article.layout == "video"
    ensures e.strategy == ArticleLayout <==> props.article.layout !in {"series", "video"}
  {
    match props.article.layout
    case "series" => LayoutElement(SeriesLayout, props)
    case "video" => LayoutElement(VideoLayout, props)
    case _ => LayoutElement(ArticleLayout, props)
  }

  /** The choice depends on the `layout` field alone. */
  lemma LayoutDependsOnlyOnTag(p: ArticleProps, q: ArticleProps)
    requires p.article.layout == q.article.layout
    ensures GetArticleLayout(p).strategy == GetArticleLayout(q).strategy
  {
  }

  /** An unrecognised value such as "unknown_value" falls back to the article layout. */
  lemma UnknownLayoutFallsBack(props: ArticleProps)
    requires props.article.layout == "unknown_value"
    ensures GetArticleLayout(props).strategy == ArticleLayout
  {
  }

  /** The analytics record sent for an article view. */
  datatype TrackingEvent = TrackingEvent(page: string, entityType: string, entityId: string)

  /** The record built by the `track` decorator; its dispatch is not part of this model. */
  function TrackingData(props: ArticleProps): (t: TrackingEvent)
    ensures t.page == "Article" && t.entityType == "article"
    ensures t.entityId == props.article.id
  {
    TrackingEvent("Article", "article", props.article.id)
  }

  /** Two article views produce the same record exactly when their articles share an id. */
  lemma TrackingDataIdentifiesArticle(p: ArticleProps, q: ArticleProps)
    ensures TrackingData(p) == TrackingData(q) <==> p.article.id == q.article.id
  {
  }
}
