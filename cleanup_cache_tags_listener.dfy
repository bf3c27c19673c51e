/**
 * The listener that removes the cache-tags header from a response before it
 * is delivered, so that the tags used for invalidation are never exposed to
 * clients.
 */
module CleanupCacheTags {
  import opened HttpResponse

  /** The tag header formatter's default header name. */
  const DefaultTagsHeader: string := "X-Cache-Tags"

  /**
   * The response after the header `name` is removed: `name` is gone, every
   * other header keeps its value, and the Cache-Control directives are
   * untouched.
   */
  function StripHeader(m: Message, name: string): (r: Message)
    ensures name !in r.headers
    ensures r.headers.Keys == m.headers.Keys - {name}
    ensures forall h :: h in r.headers ==> r.headers[h] == m.headers[h]
    ensures r.directives == m.directives
  {
    m.(headers := m.headers - {name})
  }

  /** Removing a header that is absent leaves the response as it was. */
  lemma StripAbsentHeader(m: Message, name: string)
    requires name !in m.headers
    ensures StripHeader(m, name) == m
  {
  }

  /** Removing the same header twice is the same as removing it once. */
  lemma StripHeaderIdempotent(m: Message, name: string)
    ensures StripHeader(StripHeader(m, name), name) == StripHeader(m, name)
  {
  }

  class CleanupCacheTagsListener {
    /** The header that carries the cache tags. */
    const tagsHeader: string

    constructor (tagsHeader: string := DefaultTagsHeader)
      ensures this.tagsHeader == tagsHeader
    {
      this.tagsHeader := tagsHeader;
    }

    /**
     * Removes the tags header from the event's response; an event without a
     * response is left alone.
     */
    method RemoveTagsHeader(e: CacheEvent)
      modifies e.response
      ensures e.response != null ==>
        e.response.Snapshot() == StripHeader(old(e.response.Snapshot()), tagsHeader)
    {
      var response := e.response;
      if response == null {
        return;
      }
      response.RemoveHeader(tagsHeader);
    }

    /** The kernel stages this listener subscribes to, with the handler for each. */
    static function SubscribedEvents(): (r: map<Event, string>)
      ensures forall ev :: ev in r <==> ev == PostHandle
      ensures r[PostHandle] == "removeTagsHeader"
    {
      map[PostHandle := "removeTagsHeader"]
    }
  }
}
