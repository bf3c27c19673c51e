# FOSHttpCache cache listeners, modelled in Dafny

This project models the response-header rewriting done by two event
listeners of FOSHttpCache's Symfony HttpCache integration.

- `CleanupCacheTagsListener` removes the cache-tags header from every
  response after the kernel has handled it. The tags only matter to the
  proxy, so clients never see them. An event without a response is left
  alone.
- `CustomTtlListener` lets a response choose its own lifetime in the proxy.
  `useCustomTtl` runs before the response is stored (assumed, see Left out). It replaces the
  `s-maxage` Cache-Control directive (section 5.2.2.10 of RFC 9111) with the
  value of the `X-Reverse-Proxy-TTL` header. It keeps the previous value in
  a backup header, or the marker `"false"` when there was none. With the
  fallback disabled and no TTL header, it forces `s-maxage` to `0`.
  `cleanResponse` runs after handling (assumed, see Left out). It restores `s-maxage` from the
  backup, drops the directive when the backup is `"false"`, and removes the
  TTL and backup headers.

The source of `CustomTtlListener` is not part of this model. Its behaviour
is reconstructed from the assertions of
`tests/Unit/SymfonyCache/CustomTtlListenerTest.php`.

Files:

- `http_response.dfy` (`HttpResponse`): the response as a class with a
  header map and a Cache-Control directive map. `Message` is its value.
  `CacheEvent` carries an optional response. `Event` names the kernel stages.
- `cleanup_cache_tags_listener.dfy` (`CleanupCacheTags`): the tags listener
  class and the function `StripHeader` that specifies it.
- `custom_ttl_listener.dfy` (`CustomTtl`): the TTL listener class, the
  functions `WithCustomTtl` and `Cleaned` that specify its two handlers, the
  backup header's encoding and the round-trip lemmas.
- `cache_kernel.dfy` (`CacheKernel`): listeners dispatched stage by stage in
  registration order. It proves that no proxy-facing header leaves the
  kernel, and that the two listeners commute after handling.
- `custom_ttl_scenarios.dfy` (`CustomTtlScenarios`): each test's literal
  scenario, replayed through the listener's method contracts.

The round trip needs two conditions:

- The response carries no backup header beforehand.
- Its `s-maxage` is not literally `"false"`.

`SentinelCollision` shows why the last condition is needed. The backup
cannot tell that value from the "no s-maxage" marker. A conforming
`s-maxage` is a number of seconds, so a well-formed response never meets
that case.

With no TTL header and the fallback off, the model follows the test at
`tests/Unit/SymfonyCache/CustomTtlListenerTest.php:87-102`: s-maxage becomes
`0` and a backup is written.

## Model

| member | source | states |
|---|---|---|
| `CleanupCacheTags.StripHeader` | src/SymfonyCache/CleanupCacheTagsListener.php:41 | the named header is gone; every other header keeps its value; the Cache-Control directives are unchanged |
| `CleanupCacheTags.StripAbsentHeader` | src/SymfonyCache/CleanupCacheTagsListener.php:41 | removing a header that is absent is a no-op, not an error |
| `CleanupCacheTags.StripHeaderIdempotent` | src/SymfonyCache/CleanupCacheTagsListener.php:41 | removing the tags header twice equals removing it once |
| `CleanupCacheTags.CleanupCacheTagsListener.constructor` | src/SymfonyCache/CleanupCacheTagsListener.php:30-33 | the listener removes exactly the header it was given, by default the formatter's default tags header |
| `CleanupCacheTags.CleanupCacheTagsListener.RemoveTagsHeader` | src/SymfonyCache/CleanupCacheTagsListener.php:35-42 | with a response, its new state is `StripHeader` of the old one for the configured header; without one, nothing is modified |
| `CleanupCacheTags.CleanupCacheTagsListener.SubscribedEvents` | src/SymfonyCache/CleanupCacheTagsListener.php:44-49 | the listener subscribes to the post-handle stage only, with `removeTagsHeader` |
| `CustomTtl.EncodeBackup` | tests/Unit/SymfonyCache/CustomTtlListenerTest.php:34-68 | the backup value is the prior s-maxage when there was one; it is `"false"` exactly when there was none or the prior value was itself `"false"` |
| `CustomTtl.DecodeBackup` | tests/Unit/SymfonyCache/CustomTtlListenerTest.php:104-181 | the three backup states: absent header, the `"false"` marker, or a saved value other than the marker |
| `CustomTtl.BackupRoundTrip` | tests/Unit/SymfonyCache/CustomTtlListenerTest.php:34-68 | decoding a written backup gives back the prior s-maxage, or "was absent" when there was none |
| `CustomTtl.SentinelCollision` | tests/Unit/SymfonyCache/CustomTtlListenerTest.php:145-163 | a response whose s-maxage is the literal `"false"` loses it over override and clean |
| `CustomTtl.WithCustomTtl` | tests/Unit/SymfonyCache/CustomTtlListenerTest.php:34-102 | with a TTL header, s-maxage becomes its value and the backup holds the old s-maxage or `"false"`; with no TTL header and the fallback on, nothing changes and no backup appears; with the fallback off, s-maxage becomes `0` and a backup is written; other headers and directives are unchanged |
| `CustomTtl.Cleaned` | tests/Unit/SymfonyCache/CustomTtlListenerTest.php:104-181 | the TTL and backup headers are gone and other headers keep their values; a saved backup restores s-maxage; a `"false"` backup drops it; no backup leaves the directives as they were |
| `CustomTtl.RoundTrip` | tests/Unit/SymfonyCache/CustomTtlListenerTest.php:34-163 | override then clean gives back the original directives, with s-maxage restored or still absent, and the original headers minus the TTL header |
| `CustomTtl.CleanedIdempotent` | tests/Unit/SymfonyCache/CustomTtlListenerTest.php:165-181 | cleaning twice equals cleaning once, because the second clean finds no backup |
| `CustomTtl.CustomTtlListener.constructor` | tests/Unit/SymfonyCache/CustomTtlListenerTest.php:87-89 | the TTL header name and the fallback switch are fixed at construction; the defaults are `X-Reverse-Proxy-TTL` and fallback on |
| `CustomTtl.CustomTtlListener.UseCustomTtl` | tests/Unit/SymfonyCache/CustomTtlListenerTest.php:34-102 | the response's new state is `WithCustomTtl` of its old state |
| `CustomTtl.CustomTtlListener.CleanResponse` | tests/Unit/SymfonyCache/CustomTtlListenerTest.php:104-181 | the response's new state is `Cleaned` of its old state |
| `CacheKernel.PostHandleAddsNoHeader` | src/SymfonyCache/CleanupCacheTagsListener.php:44-49 | at the post-handle stage, no sequence of these listeners adds a header |
| `CacheKernel.NoProxyHeaderLeaks` | src/SymfonyCache/CleanupCacheTagsListener.php:17-49 | after post-handle, the response carries no tags header, TTL header or backup header of any registered listener, in any order of registration |
| `CacheKernel.PostHandleOrderIrrelevant` | src/SymfonyCache/CleanupCacheTagsListener.php:44-49 | at post-handle, the tags listener and the TTL listener give the same response in either order, unless the tags header is the backup header |
| `CacheKernel.StoreThenDeliver` | tests/Unit/SymfonyCache/CustomTtlListenerTest.php:34-163 | a response passed through the TTL listener before storing and after handling keeps its own s-maxage and loses the TTL and backup headers |

## Left out

- Header-name case folding by the framework's header bag: header names are taken as already canonical, so `X-Reverse-Proxy-TTL` and `x-reverse-proxy-ttl` are different keys here.
- Multi-valued headers: a header holds one string value, the one the header bag's `get` returns.
- Parsing and serialising of the `Cache-Control` header: directives are a map from name to value.
- Valueless Cache-Control directives such as `public`: a directive here always has a string value.
- Numeric meaning of TTL and s-maxage values: they are opaque strings, as in the tests.
- `CustomTtl.WithCustomTtl`: the framework's `setTtl`, through which the override sets s-maxage, also marks the response `public` and drops `private`. The model leaves every directive other than s-maxage unchanged, so its "other directives are unchanged" clause, and `CustomTtl.RoundTrip`'s equality of directives, hold only in the model; no test reads any directive other than s-maxage.
- The response's current age: when the TTL is applied, the framework's `setTtl` adds the response's age to it. The age is zero for a fresh response, as in every test, and is not modelled.
- `CustomTtl.CustomTtlListener.constructor`: the listener's second constructor argument is not modelled. The test at line 89 of `tests/Unit/SymfonyCache/CustomTtlListenerTest.php` passes `false`; the default-constructed tests expect the TTL header to be gone after cleaning (lines 121, 141, 161, 179). So with the default, as with `false`, cleaning removes it, and the model always does.
- The name of the backup header: the listener's constant is not known. The model uses `FOS-Smaxage-Backup`; no proof depends on its value, except that `CacheKernel.PostHandleOrderIrrelevant` needs it to differ from the tags header.
- The order of reads in `useCustomTtl` is assumed: the model reads the TTL header before it writes the backup header. This only matters when the two names are the same.
- The tags header formatter is not part of this model; its default header name is taken to be `X-Cache-Tags`.
- Which stages `CustomTtlListener` subscribes to: its source is not part of this model. The model assumes the TTL listener overrides at the pre-store stage and cleans at the post-handle stage.
- `UseCustomTtl` and `CleanResponse` on an event without a response: every test passes an event that carries a response, and no test shows what happens without one, so the model requires one.
- The test at `tests/Unit/SymfonyCache/CustomTtlListenerTest.php:160` checks a directive named `s_maxage`, which is never present. The removal of `s-maxage` that the test's name describes is modelled from that name.
- `HttpResponse.Response.RemoveHeader`, `SetHeader`, `AddCacheControlDirective`, `RemoveCacheControlDirective` and `CacheKernel.Handle`: their contracts are the assumed semantics of the framework's header bag and event dispatcher, which are not part of this model; they have no row of their own.
- Event dispatch itself, the mocked cache kernel and requests belong to the framework. `CacheKernel.Dispatch` stands in for them as a call of each subscribed handler in registration order.
- Spawning a test proxy process and polling its port (`tests/Unit/Test/Proxy/AbstractProxyTest.php`): this is process and network plumbing with no behaviour to state.
