/**
 * The page head (`src/components/SEO.tsx`): title, description, keywords,
 * Open Graph and Twitter tags and the canonical link, built from optional
 * properties with defaults.
 */
module Seo {
  import opened Wrappers

  const Origin: string := "https://mamata-nepal.com"
  const TitleSuffix: string := " | Mamata Nepal"
  const DefaultSiteTitle: string := "Mamata Nepal - Supporting Mothers Through Pregnancy and Beyond"
  const DefaultDescription: string := "Complete pregnancy and motherhood resource with expert advice, community discussions, and curated products for every stage of your journey."
  const DefaultKeywords: string := "pregnancy, motherhood, baby care, maternity, prenatal, postnatal, baby products, maternal health, breastfeeding, parenting"
  const DefaultImage: string := "/hero-mother.jpg"
  const DefaultType: string := "website"

  /** `siteTitle`. */
  function SiteTitle(title: string): (r: string)
    ensures title == "" ==> r == DefaultSiteTitle
    ensures title != "" ==> r == title + TitleSuffix
  {
    if title != "" then title + TitleSuffix else DefaultSiteTitle
  }

  /** A page title is recovered from the site title by dropping the suffix. */
  lemma SiteTitleRecoversTitle(title: string)
    requires title != ""
    ensures var s := SiteTitle(title); |s| > |TitleSuffix| && s[..|s| - |TitleSuffix|] == title
  {
  }

  /** `currentUrl`. */
  function CurrentUrl(url: string): (r: string)
    ensures Origin <= r
  {
    if url != "" then Origin + url else Origin
  }

  /** The page's path is what follows the origin in its URL. */
  lemma CurrentUrlRecoversPath(url: string)
    ensures CurrentUrl(url)[|Origin|..] == url
  {
  }

  /** The image URL: an address starting with `http` is kept, anything else is put under the origin. */
  function ImageUrl(image: string): (r: string)
    ensures "http" <= r
    ensures "http" <= image ==> r == image
    ensures !("http" <= image) ==> r == Origin + image
  {
    if "http" <= image then image else Origin + image
  }

  /** Resolving an image URL a second time changes nothing. */
  lemma ImageUrlIdempotent(image: string)
    ensures ImageUrl(ImageUrl(image)) == ImageUrl(image)
  {
  }

  /** The component's properties; None is an omitted property (its default applies). */
  datatype SeoProps = SeoProps(
    title: Option<string>, description: Option<string>, keywords: Option<string>,
    image: Option<string>, url: Option<string>, pageType: Option<string>)

  /** The head elements rendered; `keywords` is None when the tag is left out. */
  datatype Head = Head(
    title: string, metaTitle: string, description: string, keywords: Option<string>,
    ogType: string, ogUrl: string, ogTitle: string, ogDescription: string, ogImage: string,
    twitterCard: string, twitterUrl: string, twitterTitle: string, twitterDescription: string, twitterImage: string,
    canonical: string)

  /** The rendered head. */
  function Render(p: SeoProps): (h: Head)
    // one title, one URL and one image, repeated across the tag families
    ensures h.title == h.metaTitle == h.ogTitle == h.twitterTitle == SiteTitle(p.title.GetOr(""))
    ensures h.ogUrl == h.twitterUrl == h.canonical == CurrentUrl(p.url.GetOr(""))
    ensures h.ogImage == h.twitterImage == ImageUrl(p.image.GetOr(DefaultImage))
    ensures h.description == h.ogDescription == h.twitterDescription == p.description.GetOr(DefaultDescription)
    ensures h.keywords.Some? <==> p.keywords.GetOr(DefaultKeywords) != ""
    ensures h.keywords.Some? ==> h.keywords.value == p.keywords.GetOr(DefaultKeywords)
    ensures h.ogType == p.pageType.GetOr(DefaultType)
    ensures h.twitterCard == "summary_large_image"
  {
    var siteTitle := SiteTitle(p.title.GetOr(""));
    var currentUrl := CurrentUrl(p.url.GetOr(""));
    var description := p.description.GetOr(DefaultDescription);
    var keywords := p.keywords.GetOr(DefaultKeywords);
    var image := ImageUrl(p.image.GetOr(DefaultImage));
    Head(siteTitle, siteTitle, description, if keywords != "" then Some(keywords) else None,
         p.pageType.GetOr(DefaultType), currentUrl, siteTitle, description, image,
         "summary_large_image", currentUrl, siteTitle, description, image,
         currentUrl)
  }

  /** With no properties at all, the head carries the site defaults. */
  lemma DefaultHead()
    ensures var h := Render(SeoProps(None, None, None, None, None, None));
            && h.title == DefaultSiteTitle && h.canonical == Origin
            && h.ogImage == Origin + DefaultImage && h.keywords == Some(DefaultKeywords)
  {
    assert DefaultImage[0] != "http"[0];
  }
}
