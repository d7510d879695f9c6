/**
 * A parsed URL as the platform URL classes (iOS `NSUrl`, Android `Uri`) expose it. Parsing
 * itself is the platform's; callers pass it in as a function from text to a `Url`.
 */
module Urls {
  import opened Wrappers

  /** Scheme, host, path and query may each be null; `absolute` is the URL's full text. */
  datatype Url = Url(scheme: Option<string>, host: Option<string>, path: Option<string>,
                     query: Option<string>, absolute: string)
}
