/**
 The URL normaliser `clean_url`: trim the raw string and give it an `http://`
 scheme unless it already starts with `http://` or `https://`.
 */
module Normalize {
  import opened Strings

  const HttpPrefix := "http://"
  const HttpsPrefix := "https://"

  /** `url.startswith(('http://', 'https://'))`. */
  predicate HasScheme(url: string) {
    HttpPrefix <= url || HttpsPrefix <= url
  }

  /** `clean_url`. The result always carries a scheme (`CleanUrlShape` says how it is built). */
  function CleanUrl(url: string): (r: string)
    ensures HasScheme(r)
  {
    var trimmed := Strip(url);
    if HasScheme(trimmed) then trimmed else HttpPrefix + trimmed
  }

  /** The output of `clean_url` is the trimmed input itself exactly when that already had a
      scheme, and the trimmed input behind `http://` exactly when it had none. */
  lemma CleanUrlShape(url: string)
    ensures CleanUrl(url) == Strip(url) <==> HasScheme(Strip(url))
    ensures CleanUrl(url) == HttpPrefix + Strip(url) <==> !HasScheme(Strip(url))
  {
    assert |HttpPrefix + Strip(url)| != |Strip(url)|;
  }

  /** `clean_url` never yields the empty string, so the caller's `if url` filter keeps everything. */
  lemma CleanUrlNonEmpty(url: string)
    ensures CleanUrl(url) != []
    ensures |CleanUrl(url)| >= |HttpPrefix|
  {
    assert HasScheme(CleanUrl(url));
  }

  /** A schemed URL keeps its text apart from the whitespace trimmed off its ends. */
  lemma CleanUrlKeepsScheme(url: string)
    requires HasScheme(Strip(url))
    ensures CleanUrl(url) == Strip(url)
    ensures exists a :: CutAt(url, CleanUrl(url), a)
  {
    StripCuts(url);
  }

  /** The output of `clean_url` has no whitespace at either end. */
  lemma CleanUrlTrimmed(url: string)
    ensures Strip(CleanUrl(url)) == CleanUrl(url)
  {
    var r := CleanUrl(url);
    var t := Strip(url);
    if !HasScheme(t) {
      assert r == HttpPrefix + t;
      assert r[0] == 'h';
      if t == [] {
        assert r[|r| - 1] == '/';
      } else {
        assert r[|r| - 1] == t[|t| - 1];
      }
    } else {
      assert r == t;
    }
    StripFixedPoint(r);
  }

  /** `clean_url` is idempotent. */
  lemma CleanUrlIdempotent(url: string)
    ensures CleanUrl(CleanUrl(url)) == CleanUrl(url)
  {
    CleanUrlTrimmed(url);
  }

  /** `check_url` calls `clean_url(url.strip())`: the extra strip changes nothing, and the
      result already has a scheme, so the scheme check that follows never fires. */
  lemma CleanUrlOfStripped(url: string)
    ensures CleanUrl(Strip(url)) == CleanUrl(url)
    ensures HasScheme(CleanUrl(Strip(url)))
  {
    StripIdempotent(url);
  }
}
