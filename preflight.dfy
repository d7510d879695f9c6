/** The pre-flight check every browser's `InvokeAsync` makes before it touches anything. */
module Preflight {
  import opened Wrappers
  import opened Text

  const MissingStartUrl: Exception := ArgumentException("Missing StartUrl")
  const MissingEndUrl: Exception := ArgumentException("Missing EndUrl")

  /**
   * The exception `InvokeAsync` throws, if any: a blank start URL is reported first, then a
   * blank end URL; a blank URL is null, empty or all white space.
   */
  function Validate(startUrl: Option<string>, endUrl: Option<string>): (r: Option<Exception>)
    ensures r == Some(MissingStartUrl) <==> IsNullOrWhiteSpace(startUrl)
    ensures r == Some(MissingEndUrl) <==> !IsNullOrWhiteSpace(startUrl) && IsNullOrWhiteSpace(endUrl)
    ensures r == None <==> !IsNullOrWhiteSpace(startUrl) && !IsNullOrWhiteSpace(endUrl)
  {
    if IsNullOrWhiteSpace(startUrl) then Some(MissingStartUrl)
    else if IsNullOrWhiteSpace(endUrl) then Some(MissingEndUrl)
    else None
  }

  /** URLs that pass the check are non-null. */
  lemma ValidUrlsAreNonNull(startUrl: Option<string>, endUrl: Option<string>)
    requires Validate(startUrl, endUrl).None?
    ensures startUrl.Some? && endUrl.Some? && |startUrl.value| > 0 && |endUrl.value| > 0
  {
  }
}
