/** The head-tag list builder `seo` (src/utils/seo.ts) with the application
    constants it falls back to (src/constants/app.ts). */
module Seo {
  import opened Wrappers

  const APP_NAME := "F7 Stack"
  const APP_LOGO_URL := "https://hm1e8elujq.ufs.sh/f/7XxbkUmMuR8dtHvijWD76ULjq8OmEaiZD4kAbQYT3IdMvuBz"
  const DEFAULT_DESCRIPTION := "A blazing fast, type-safe todo application built with TanStack Start, tRPC, and PostgreSQL. Manage your tasks efficiently with real-time updates and a beautiful UI."
  const DEFAULT_KEYWORDS := "todo app, task management, productivity, TanStack, tRPC, PostgreSQL, React, TypeScript, full-stack"

  datatype PageType = Website | Article

  function PageTypeName(t: PageType): string
  {
    match t
    case Website => "website"
    case Article => "article"
  }

  /** `SEOConfig`: every field optional. */
  datatype SeoConfig = SeoConfig(
    title: Option<string>,
    description: Option<string>,
    keywords: Option<string>,
    image: Option<string>,
    url: Option<string>,
    pageType: Option<PageType>)

  /** One head entry: `{ title }`, `{ name, content }` or `{ property, content }`. */
  datatype MetaTag =
    | TitleTag(title: string)
    | NameTag(name: string, content: string)
    | PropertyTag(property: string, content: string)

  /** The page title: the application name, followed by " - " and the title
      when a non-empty title is given. */
  function FullTitle(title: Option<string>): (r: string)
    ensures r == APP_NAME <==> !Truthy(title)
    ensures Truthy(title) ==>
      APP_NAME + " - " <= r && |r| == |APP_NAME| + 3 + |title.value| && r[|APP_NAME| + 3..] == title.value
  {
    if Truthy(title) then APP_NAME + " - " + title.value else APP_NAME
  }

  /** The tag list. A default parameter applies only to an absent value, so
      an empty description, keywords or image is kept as it is; the title
      and url are tested for truthiness. */
  function SeoTags(c: SeoConfig): (tags: seq<MetaTag>)
    ensures |tags| == if Truthy(c.url) then 15 else 14
    ensures tags[0] == TitleTag(FullTitle(c.title))
    ensures tags[6] == NameTag("twitter:title", FullTitle(c.title))
    ensures tags[10] == PropertyTag("og:title", FullTitle(c.title))
    ensures tags[1] == NameTag("description", c.description.GetOr(DEFAULT_DESCRIPTION))
    ensures tags[7] == NameTag("twitter:description", c.description.GetOr(DEFAULT_DESCRIPTION))
    ensures tags[11] == PropertyTag("og:description", c.description.GetOr(DEFAULT_DESCRIPTION))
    ensures tags[2] == NameTag("keywords", c.keywords.GetOr(DEFAULT_KEYWORDS))
    ensures tags[3] == NameTag("twitter:card", "summary_large_image")
    ensures tags[4] == NameTag("twitter:site", "@f7stack")
    ensures tags[5] == NameTag("twitter:creator", "@f7stack")
    ensures tags[8] == NameTag("twitter:image", c.image.GetOr(APP_LOGO_URL))
    ensures tags[12] == PropertyTag("og:image", c.image.GetOr(APP_LOGO_URL))
    ensures tags[9] == PropertyTag("og:type", PageTypeName(c.pageType.GetOr(Website)))
    ensures tags[13] == PropertyTag("og:site_name", APP_NAME)
    ensures Truthy(c.url) ==> tags[14] == PropertyTag("og:url", c.url.value)
    ensures (exists i :: 0 <= i < |tags| && tags[i].PropertyTag? && tags[i].property == "og:url") <==> Truthy(c.url)
  {
    var fullTitle := FullTitle(c.title);
    var description := c.description.GetOr(DEFAULT_DESCRIPTION);
    var keywords := c.keywords.GetOr(DEFAULT_KEYWORDS);
    var image := c.image.GetOr(APP_LOGO_URL);
    var pageType := PageTypeName(c.pageType.GetOr(Website));
    [ TitleTag(fullTitle),
      NameTag("description", description),
      NameTag("keywords", keywords),
      NameTag("twitter:card", "summary_large_image"),
      NameTag("twitter:site", "@f7stack"),
      NameTag("twitter:creator", "@f7stack"),
      NameTag("twitter:title", fullTitle),
      NameTag("twitter:description", description),
      NameTag("twitter:image", image),
      PropertyTag("og:type", pageType),
      PropertyTag("og:title", fullTitle),
      PropertyTag("og:description", description),
      PropertyTag("og:image", image),
      PropertyTag("og:site_name", APP_NAME) ]
    + (if Truthy(c.url) then [PropertyTag("og:url", c.url.value)] else [])
  }

  /** The title tag is the only `{ title }` entry. */
  lemma OneTitleTag(c: SeoConfig)
    ensures forall i :: 0 <= i < |SeoTags(c)| && SeoTags(c)[i].TitleTag? ==> i == 0
  {
  }
}
