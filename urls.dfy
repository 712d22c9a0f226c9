/**
 * A parsed URL, reduced to the parts the cleaning engine reads or rewrites, and the URL
 * library the engine calls (the WHATWG `URL` class), passed in as a parameter.
 */
module Urls {
  import opened Options
  import opened SearchParams

  /**
   * The components of a WHATWG `URL`. `protocol` keeps its trailing colon (`"https:"`), as
   * `URL.protocol` does; `query` is the URL's `searchParams` list; `hash` is the fragment. The
   * engine reads only the protocol, the host name and the query, but a URL it rewrites keeps
   * the other components for `toString` to print.
   */
  datatype UrlRecord = UrlRecord(
    protocol: string,
    username: string,
    password: string,
    hostname: string,
    port: string,
    pathname: string,
    query: seq<Param>,
    hash: string)

  /**
   * `parse` is `new URL(text)`, `None` where the constructor throws; `serialize` is
   * `url.toString()`; `serializeQuery` is `URLSearchParams.toString()`.
   */
  datatype UrlLibrary = UrlLibrary(
    parse: string -> Option<UrlRecord>,
    serialize: UrlRecord -> string,
    serializeQuery: seq<Param> -> string)

}
