/** The viewer's share-token injection: when the viewer was opened with a
    `token` query parameter, each same-origin DICOMweb or WADO request gets
    that token appended. The rule is written twice, once in the
    XMLHttpRequest override and once in the fetch override. */
module OhifRewrite {
  import opened Text

  /** A relative URL of the imaging server's DICOMweb or WADO endpoints. */
  predicate IsImagingPath(url: string) {
    StartsWith(url, "/dicom-web") || StartsWith(url, "/wado")
  }

  /** `'&'` after an existing query, `'?'` to start one. */
  function Separator(url: string): (sep: string)
    ensures sep == "&" || sep == "?"
    ensures sep == "&" <==> Contains(url, "?")
  {
    if Contains(url, "?") then "&" else "?"
  }

  function WithToken(url: string, token: string): string {
    url + Separator(url) + "token=" + token
  }

  lemma WithTokenCarriesToken(url: string, token: string)
    ensures Contains(WithToken(url, token), "token=")
  {
    SuffixIsContained(url + Separator(url), "token=");
    ContainedInExtension(url + Separator(url) + "token=", token, "token=");
  }

  /** The XMLHttpRequest override: a non-empty URL without a token that
      mentions DICOMweb or WADO, and is a relative path to one of them, gets
      the token. Everything else passes unchanged. */
  function XhrUrl(url: string, token: string): (r: string)
    ensures Contains(url, "token=") ==> r == url
    ensures !IsImagingPath(url) ==> r == url
    ensures !Contains(url, "token=") && IsImagingPath(url) ==> r == WithToken(url, token)
    ensures StartsWith(r, url)
    ensures url != [] && url[0] != '/' ==> r == url
  {
    if url != "" && !Contains(url, "token=") && (Contains(url, "/dicom-web") || Contains(url, "/wado")) then
      if StartsWith(url, "/dicom-web") || StartsWith(url, "/wado") then
        assert StartsWith(WithToken(url, token), url) by {
          assert WithToken(url, token)[..|url|] == url;
        }
        WithToken(url, token)
      else url
    else
      assert IsImagingPath(url) ==> Contains(url, "/dicom-web") || Contains(url, "/wado") by {
        if StartsWith(url, "/dicom-web") { PrefixIsContained(url, "/dicom-web"); }
        if StartsWith(url, "/wado") { PrefixIsContained(url, "/wado"); }
      }
      assert url[..0] == [];
      url
  }

  /** The fetch override, for a URL given as a string. It has no emptiness
      test, which the empty URL passes unchanged anyway. */
  function FetchUrl(url: string, token: string): (r: string)
    ensures Contains(url, "token=") ==> r == url
    ensures !IsImagingPath(url) ==> r == url
    ensures !Contains(url, "token=") && IsImagingPath(url) ==> r == WithToken(url, token)
  {
    if !Contains(url, "token=") && (Contains(url, "/dicom-web") || Contains(url, "/wado")) then
      if StartsWith(url, "/dicom-web") || StartsWith(url, "/wado") then WithToken(url, token)
      else url
    else
      assert IsImagingPath(url) ==> Contains(url, "/dicom-web") || Contains(url, "/wado") by {
        if StartsWith(url, "/dicom-web") { PrefixIsContained(url, "/dicom-web"); }
        if StartsWith(url, "/wado") { PrefixIsContained(url, "/wado"); }
      }
      url
  }

  /** Both overrides rewrite every string URL the same way. */
  lemma OverridesAgree(url: string, token: string)
    ensures FetchUrl(url, token) == XhrUrl(url, token)
  {
  }

  /** Rewriting twice is rewriting once: the rewritten URL already carries a token. */
  lemma RewriteIsIdempotent(url: string, token: string)
    ensures XhrUrl(XhrUrl(url, token), token) == XhrUrl(url, token)
  {
    if !Contains(url, "token=") && IsImagingPath(url) {
      WithTokenCarriesToken(url, token);
    }
  }
}
