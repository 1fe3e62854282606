/**
 * The URL builders of the documentation site (util/utils.ts): where a page's
 * markdown is served from, and where its source can be edited.
 */
module Urls {
  import opened Text

  /** docpath: the contents directory of the site's repository on GitHub. */
  const DocPath: string := "https://github.com/aapoalas/denonomicon/blob/main/static/contents"

  const ContentsSegment: string := "/contents"
  const MdSuffix: string := ".md"

  /** getFileURL(path, baseUrl): `${baseUrl}/contents${path}.md`. */
  function FileURL(path: string, baseUrl: string): (url: string)
    ensures EndsWith(url, MdSuffix)
    ensures url[..|url| - |MdSuffix|] == baseUrl + ContentsSegment + path
  {
    EndsWithConcat(baseUrl + ContentsSegment + path, MdSuffix);
    baseUrl + ContentsSegment + path + MdSuffix
  }

  /** getDocURL(path): `${docpath}${path}.md`. */
  function DocURL(path: string): (url: string)
    ensures StartsWith(url, DocPath) && EndsWith(url, MdSuffix)
    ensures url[..|url| - |MdSuffix|] == DocPath + path
  {
    EndsWithConcat(DocPath + path, MdSuffix);
    StartsWithConcat(DocPath, path + MdSuffix);
    assert DocPath + path + MdSuffix == DocPath + (path + MdSuffix);
    DocPath + path + MdSuffix
  }

  /** For a fixed base, distinct paths have distinct file URLs. */
  lemma FileURLInjective(baseUrl: string, p: string, q: string)
    requires FileURL(p, baseUrl) == FileURL(q, baseUrl)
    ensures p == q
  {
    assert baseUrl + ContentsSegment + p + MdSuffix == (baseUrl + ContentsSegment) + p + MdSuffix;
    assert baseUrl + ContentsSegment + q + MdSuffix == (baseUrl + ContentsSegment) + q + MdSuffix;
    CancelAround(baseUrl + ContentsSegment, p, q, MdSuffix);
  }

  /** Distinct paths have distinct edit URLs. */
  lemma DocURLInjective(p: string, q: string)
    requires DocURL(p) == DocURL(q)
    ensures p == q
  {
    CancelAround(DocPath, p, q, MdSuffix);
  }
}
