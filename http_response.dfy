/**
 * The part of an HTTP response that the cache listeners read and write: the
 * header bag and the parsed directives of its Cache-Control header.
 *
 * Header names are taken as already canonical (the framework's header bag
 * folds their case before storing them); a header holds one string value.
 * Cache-Control directives map a directive name to its value, such as
 * "s-maxage" to "60" (section 5.2.2.10 of RFC 9111).
 */
module HttpResponse {

  /** The directive that gives the freshness lifetime for shared caches. */
  const SMaxAge: string := "s-maxage"

  /** A snapshot of one response's caching-related state. */
  datatype Message = Message(headers: map<string, string>, directives: map<string, string>)

  /** The response object handed around by the cache kernel and changed in place. */
  class Response {
    var headers: map<string, string>
    var directives: map<string, string>

    function Snapshot(): Message
      reads this
    {
      Message(headers, directives)
    }

    constructor (headers: map<string, string>, directives: map<string, string>)
      ensures this.headers == headers && this.directives == directives
    {
      this.headers := headers;
      this.directives := directives;
    }

    /** Drops a header; a header that is absent is not an error. */
    method RemoveHeader(name: string)
      modifies this
      ensures headers == old(headers) - {name}
      ensures directives == old(directives)
    {
      headers := headers - {name};
    }

    /** Sets a header, replacing any value it had. */
    method SetHeader(name: string, value: string)
      modifies this
      ensures headers == old(headers)[name := value]
      ensures directives == old(directives)
    {
      headers := headers[name := value];
    }

    /** Sets a Cache-Control directive, replacing any value it had. */
    method AddCacheControlDirective(name: string, value: string)
      modifies this
      ensures directives == old(directives)[name := value]
      ensures headers == old(headers)
    {
      directives := directives[name := value];
    }

    /** Drops a Cache-Control directive; one that is absent is not an error. */
    method RemoveCacheControlDirective(name: string)
      modifies this
      ensures directives == old(directives) - {name}
      ensures headers == old(headers)
    {
      directives := directives - {name};
    }
  }

  /** The stages of the caching kernel at which listeners can be called. */
  datatype Event = PreHandle | PostHandle | PreInvalidate | PreStore

  /** What a listener receives: the response, when the kernel has one yet. */
  datatype CacheEvent = CacheEvent(response: Response?)
}
