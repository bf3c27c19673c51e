/**
 * The scenarios of CustomTtlListenerTest, replayed against the method
 * contracts with the literal headers and directive values they use.
 */
module CustomTtlScenarios {
  import opened HttpResponse
  import opened CustomTtl

  /** A TTL header of 120 over s-maxage 60: s-maxage 120, backup 60. */
  method OverrideExistingSmaxage() {
    var listener := new CustomTtlListener();
    var response := new Response(map[DefaultTtlHeader := "120"], map[SMaxAge := "60", "max-age" := "30"]);
    listener.UseCustomTtl(CacheEvent(response));
    assert response.directives[SMaxAge] == "120";
    assert response.headers[SmaxageBackup] == "60";
    assert response.directives["max-age"] == "30";
  }

  /** A TTL header of 120 and no s-maxage: s-maxage 120, backup "false". */
  method OverrideMissingSmaxage() {
    var listener := new CustomTtlListener();
    var response := new Response(map[DefaultTtlHeader := "120"], map["max-age" := "30"]);
    listener.UseCustomTtl(CacheEvent(response));
    assert response.directives[SMaxAge] == "120";
    assert response.headers[SmaxageBackup] == "false";
  }

  /** No TTL header: s-maxage stays 33 and no backup is written. */
  method NoTtlHeader() {
    var listener := new CustomTtlListener();
    var response := new Response(map[], map["max-age" := "30", SMaxAge := "33"]);
    listener.UseCustomTtl(CacheEvent(response));
    assert response.directives[SMaxAge] == "33";
    assert SmaxageBackup !in response.headers;
  }

  /** No TTL header and the fallback disabled: s-maxage is forced to 0. */
  method NoTtlHeaderNoFallback() {
    var listener := new CustomTtlListener(DefaultTtlHeader, false);
    var response := new Response(map[], map["max-age" := "30", SMaxAge := "33"]);
    listener.UseCustomTtl(CacheEvent(response));
    assert response.directives[SMaxAge] == "0";
    assert SmaxageBackup in response.headers;
  }

  /** Cleaning restores s-maxage 60 from the backup, with or without a TTL header. */
  method CleanupRestores() {
    var listener := new CustomTtlListener();
    var response := new Response(map[DefaultTtlHeader := "120", SmaxageBackup := "60"],
                                 map[SMaxAge := "120", "max-age" := "30"]);
    listener.CleanResponse(CacheEvent(response));
    assert response.directives[SMaxAge] == "60";
    assert DefaultTtlHeader !in response.headers && SmaxageBackup !in response.headers;

    var other := new Response(map[SmaxageBackup := "60"], map[SMaxAge := "0", "max-age" := "30"]);
    listener.CleanResponse(CacheEvent(other));
    assert other.directives[SMaxAge] == "60";
    assert DefaultTtlHeader !in other.headers && SmaxageBackup !in other.headers;
  }

  /** Cleaning with backup "false" drops s-maxage. */
  method CleanupDropsSmaxage() {
    var listener := new CustomTtlListener();
    var response := new Response(map[DefaultTtlHeader := "120", SmaxageBackup := "false"],
                                 map[SMaxAge := "120", "max-age" := "30"]);
    listener.CleanResponse(CacheEvent(response));
    assert SMaxAge !in response.directives;
    assert DefaultTtlHeader !in response.headers && SmaxageBackup !in response.headers;
  }

  /** Cleaning without a backup leaves s-maxage 60 alone. */
  method CleanupWithoutBackup() {
    var listener := new CustomTtlListener();
    var response := new Response(map[], map[SMaxAge := "60", "max-age" := "30"]);
    listener.CleanResponse(CacheEvent(response));
    assert response.directives[SMaxAge] == "60";
    assert DefaultTtlHeader !in response.headers && SmaxageBackup !in response.headers;
  }

  /** Override then clean on one response: s-maxage 60 comes back. */
  method OverrideThenClean() {
    var listener := new CustomTtlListener();
    var response := new Response(map[DefaultTtlHeader := "120"], map[SMaxAge := "60", "max-age" := "30"]);
    listener.UseCustomTtl(CacheEvent(response));
    assert response.directives[SMaxAge] == "120";
    listener.CleanResponse(CacheEvent(response));
    assert response.directives == map[SMaxAge := "60", "max-age" := "30"];
    assert response.headers == map[];
  }
}
