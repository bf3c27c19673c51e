/**
 * How the caching kernel drives the two listeners: at each stage it calls,
 * in registration order, the handler of every listener subscribed to that
 * stage. The tags listener is subscribed after handling; the TTL listener
 * overrides before the response is stored and cleans after handling.
 */
module CacheKernel {
  import opened HttpResponse
  import opened CleanupCacheTags
  import opened CustomTtl

  /** A registered listener, with its configuration. */
  datatype Listener =
    | TagsCleanup(tagsHeader: string)
    | TtlOverride(ttlHeader: string, fallbackToSmaxage: bool)

  /** What one listener does to the response at one stage. */
  function Handle(l: Listener, ev: Event, m: Message): (r: Message)
  {
    match l
    case TagsCleanup(h) =>
      if ev in CleanupCacheTagsListener.SubscribedEvents() then StripHeader(m, h) else m
    case TtlOverride(t, f) =>
      if ev == PreStore then WithCustomTtl(t, f, m)
      else if ev == PostHandle then Cleaned(t, m)
      else m
  }

  /** The response after every listener in `ls`, in order, has handled `ev`. */
  function Dispatch(ls: seq<Listener>, ev: Event, m: Message): (r: Message)
    decreases |ls|
  {
    if ls == [] then m else Dispatch(ls[1..], ev, Handle(ls[0], ev, m))
  }

  /** The headers a listener uses to talk to the proxy, never meant for clients. */
  function ProxyHeaders(l: Listener): (hs: set<string>)
  {
    match l
    case TagsCleanup(h) => {h}
    case TtlOverride(t, _) => {t, SmaxageBackup}
  }

  /** After handling, no listener adds a header. */
  lemma {:induction false} PostHandleAddsNoHeader(ls: seq<Listener>, m: Message)
    ensures Dispatch(ls, PostHandle, m).headers.Keys <= m.headers.Keys
    decreases |ls|
  {
    if ls != [] {
      PostHandleAddsNoHeader(ls[1..], Handle(ls[0], PostHandle, m));
    }
  }

  /**
   * Whatever listeners are registered and in whatever order, the response
   * that leaves the kernel carries none of their proxy-facing headers.
   */
  lemma {:induction false} NoProxyHeaderLeaks(ls: seq<Listener>, m: Message)
    ensures forall i, h :: 0 <= i < |ls| && h in ProxyHeaders(ls[i]) ==>
      h !in Dispatch(ls, PostHandle, m).headers
    decreases |ls|
  {
    if ls != [] {
      var m' := Handle(ls[0], PostHandle, m);
      PostHandleAddsNoHeader(ls[1..], m');
      NoProxyHeaderLeaks(ls[1..], m');
      forall i, h | 0 <= i < |ls| && h in ProxyHeaders(ls[i])
        ensures h !in Dispatch(ls, PostHandle, m).headers
      {
        if i > 0 {
          assert ls[i] == ls[1..][i - 1];
        }
      }
    }
  }

  /**
   * After handling, the two listeners can run in either order, as long as
   * the tags header is not the TTL listener's backup header.
   */
  lemma PostHandleOrderIrrelevant(tags: Listener, ttl: Listener, m: Message)
    requires tags.TagsCleanup? && ttl.TtlOverride?
    requires tags.tagsHeader != SmaxageBackup
    ensures Dispatch([tags, ttl], PostHandle, m) == Dispatch([ttl, tags], PostHandle, m)
  {
    var h, t := tags.tagsHeader, ttl.ttlHeader;
    assert [tags, ttl][1..] == [ttl] && [ttl, tags][1..] == [tags];
    assert PostHandle in CleanupCacheTagsListener.SubscribedEvents();
    var stripped, cleaned := StripHeader(m, h), Cleaned(t, m);
    assert DecodeBackup(stripped) == DecodeBackup(m);
    assert Dispatch([ttl], PostHandle, stripped) == Cleaned(t, stripped);
    assert Dispatch([tags], PostHandle, cleaned) == StripHeader(cleaned, h);
    assert Cleaned(t, stripped) == StripHeader(cleaned, h);
  }

  /**
   * A response that passes through the TTL listener at both stages keeps its
   * own s-maxage, and leaves without the TTL header and the backup header.
   */
  lemma StoreThenDeliver(ttlHeader: string, fallbackToSmaxage: bool, m: Message)
    requires SmaxageBackup !in m.headers
    requires SharedMaxAge(m) != Some(NoSmaxage)
    ensures var l := [TtlOverride(ttlHeader, fallbackToSmaxage)];
      Dispatch(l, PostHandle, Dispatch(l, PreStore, m)) == Message(m.headers - {ttlHeader}, m.directives)
  {
    RoundTrip(ttlHeader, fallbackToSmaxage, m);
  }
}
