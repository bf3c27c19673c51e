/**
 * The listener that lets a response choose its own lifetime in the reverse
 * proxy. Before the response is stored, the value of a TTL header overrides
 * the s-maxage directive and the previous s-maxage is kept in a backup
 * header; before the response is delivered, the backup is put back and both
 * headers are removed.
 *
 * The backup header encodes three states in one string:
 *   absent      the override has not been applied;
 *   "false"     the override was applied and there was no s-maxage before;
 *   any other   the override was applied and this was the s-maxage before.
 */
module CustomTtl {
  import opened HttpResponse

  /** The header whose value is the custom TTL, unless configured otherwise. */
  const DefaultTtlHeader: string := "X-Reverse-Proxy-TTL"

  /** The header that keeps the s-maxage the override replaced. */
  const SmaxageBackup: string := "FOS-Smaxage-Backup"

  /** The backup value that records that there was no s-maxage. */
  const NoSmaxage: string := "false"

  /** The s-maxage forced when there is no TTL header and no fallback. */
  const ZeroTtl: string := "0"

  datatype Option<T> = None | Some(value: T)

  /** The s-maxage of a response, if it has one. */
  function SharedMaxAge(m: Message): (s: Option<string>)
  {
    if SMaxAge in m.directives then Some(m.directives[SMaxAge]) else None
  }

  /** The three states the backup header can be in. */
  datatype Backup = NotApplied | WasAbsent | Saved(smaxage: string)

  /** The backup header's value for the s-maxage an override replaces. */
  function EncodeBackup(prior: Option<string>): (v: string)
    ensures v == NoSmaxage <==> prior == None || prior == Some(NoSmaxage)
    ensures prior.Some? ==> v == prior.value
  {
    match prior
    case None => NoSmaxage
    case Some(s) => s
  }

  /** Reads the backup header's state off a response. */
  function DecodeBackup(m: Message): (b: Backup)
    ensures b.NotApplied? <==> SmaxageBackup !in m.headers
    ensures b.WasAbsent? <==> SmaxageBackup in m.headers && m.headers[SmaxageBackup] == NoSmaxage
    ensures b.Saved? ==> m.headers[SmaxageBackup] == b.smaxage != NoSmaxage
  {
    if SmaxageBackup !in m.headers then NotApplied
    else if m.headers[SmaxageBackup] == NoSmaxage then WasAbsent
    else Saved(m.headers[SmaxageBackup])
  }

  /**
   * The response after the override. Without a TTL header and with the
   * fallback enabled, nothing changes; otherwise the previous s-maxage goes
   * into the backup header and s-maxage becomes the TTL header's value, or 0
   * when there is no TTL header.
   */
  function WithCustomTtl(ttlHeader: string, fallbackToSmaxage: bool, m: Message): (r: Message)
    // no TTL header, default configuration: no override and no backup
    ensures ttlHeader !in m.headers && fallbackToSmaxage ==> r == m
    // a TTL header: s-maxage becomes its value, the old one is backed up
    ensures ttlHeader in m.headers ==>
      SMaxAge in r.directives && r.directives[SMaxAge] == m.headers[ttlHeader]
    // no TTL header, fallback disabled: s-maxage is forced to 0
    ensures ttlHeader !in m.headers && !fallbackToSmaxage ==>
      SMaxAge in r.directives && r.directives[SMaxAge] == ZeroTtl
    ensures ttlHeader in m.headers || !fallbackToSmaxage ==>
      SmaxageBackup in r.headers &&
      r.headers[SmaxageBackup] == (if SMaxAge in m.directives then m.directives[SMaxAge] else NoSmaxage)
    // nothing else changes
    ensures r.directives - {SMaxAge} == m.directives - {SMaxAge}
    ensures r.headers - {SmaxageBackup} == m.headers - {SmaxageBackup}
  {
    if ttlHeader !in m.headers && fallbackToSmaxage then
      m
    else
      var ttl := if ttlHeader in m.headers then m.headers[ttlHeader] else ZeroTtl;
      Message(m.headers[SmaxageBackup := EncodeBackup(SharedMaxAge(m))], m.directives[SMaxAge := ttl])
  }

  /**
   * The response after cleaning: the TTL header and the backup header are
   * gone, and s-maxage is restored from the backup when there is one.
   */
  function Cleaned(ttlHeader: string, m: Message): (r: Message)
    ensures ttlHeader !in r.headers && SmaxageBackup !in r.headers
    ensures r.headers.Keys == m.headers.Keys - {ttlHeader, SmaxageBackup}
    ensures forall h :: h in r.headers ==> r.headers[h] == m.headers[h]
    // no backup: s-maxage stays as it is
    ensures DecodeBackup(m).NotApplied? ==> r.directives == m.directives
    // backup "false": s-maxage is dropped
    ensures DecodeBackup(m).WasAbsent? ==> SMaxAge !in r.directives
    // backup value: s-maxage is set back to it
    ensures DecodeBackup(m).Saved? ==>
      SMaxAge in r.directives && r.directives[SMaxAge] == DecodeBackup(m).smaxage
    ensures r.directives - {SMaxAge} == m.directives - {SMaxAge}
  {
    var directives :=
      match DecodeBackup(m)
      case NotApplied => m.directives
      case WasAbsent => m.directives - {SMaxAge}
      case Saved(s) => m.directives[SMaxAge := s];
    Message(m.headers - {ttlHeader, SmaxageBackup}, directives)
  }

  /**
   * Overriding and then cleaning gives back the response's own s-maxage, or
   * none if it had none, and leaves neither the TTL header nor the backup
   * header; every other header and directive is as it was.
   */
  lemma RoundTrip(ttlHeader: string, fallbackToSmaxage: bool, m: Message)
    requires SmaxageBackup !in m.headers
    requires SharedMaxAge(m) != Some(NoSmaxage)
    ensures Cleaned(ttlHeader, WithCustomTtl(ttlHeader, fallbackToSmaxage, m))
         == Message(m.headers - {ttlHeader}, m.directives)
  {
  }

  /**
   * Decoding the backup header gives back the s-maxage that was encoded into
   * it, or WasAbsent when there was none; an s-maxage whose own value is the
   * marker is the one that cannot be told apart (see SentinelCollision).
   */
  lemma BackupRoundTrip(prior: Option<string>, m: Message)
    requires prior != Some(NoSmaxage)
    ensures DecodeBackup(m.(headers := m.headers[SmaxageBackup := EncodeBackup(prior)]))
         == if prior.None? then WasAbsent else Saved(prior.value)
  {
  }

  /**
   * A response whose s-maxage is literally "false" loses it over a round
   * trip: the backup cannot tell that value from the marker.
   */
  lemma SentinelCollision()
    ensures var m := Message(map[DefaultTtlHeader := "120"], map[SMaxAge := NoSmaxage]);
      SMaxAge in m.directives && SMaxAge !in Cleaned(DefaultTtlHeader, WithCustomTtl(DefaultTtlHeader, true, m)).directives
  {
  }

  /** Cleaning twice is the same as cleaning once. */
  lemma CleanedIdempotent(ttlHeader: string, m: Message)
    ensures Cleaned(ttlHeader, Cleaned(ttlHeader, m)) == Cleaned(ttlHeader, m)
  {
  }

  class CustomTtlListener {
    /** The header that carries the custom TTL. */
    const ttlHeader: string
    /** Whether a response without a TTL header keeps its own s-maxage. */
    const fallbackToSmaxage: bool

    constructor (ttlHeader: string := DefaultTtlHeader, fallbackToSmaxage: bool := true)
      ensures this.ttlHeader == ttlHeader && this.fallbackToSmaxage == fallbackToSmaxage
    {
      this.ttlHeader := ttlHeader;
      this.fallbackToSmaxage := fallbackToSmaxage;
    }

    /** Replaces s-maxage with the custom TTL and backs up the old one. */
    method UseCustomTtl(e: CacheEvent)
      requires e.response != null
      modifies e.response
      ensures e.response.Snapshot() == WithCustomTtl(ttlHeader, fallbackToSmaxage, old(e.response.Snapshot()))
    {
      var response := e.response;
      if ttlHeader !in response.headers && fallbackToSmaxage {
        return;
      }
      var backup := EncodeBackup(SharedMaxAge(response.Snapshot()));
      var ttl := if ttlHeader in response.headers then response.headers[ttlHeader] else ZeroTtl;
      response.SetHeader(SmaxageBackup, backup);
      response.AddCacheControlDirective(SMaxAge, ttl);
    }

    /** Puts the backed-up s-maxage back and removes the TTL and backup headers. */
    method CleanResponse(e: CacheEvent)
      requires e.response != null
      modifies e.response
      ensures e.response.Snapshot() == Cleaned(ttlHeader, old(e.response.Snapshot()))
    {
      var response := e.response;
      if SmaxageBackup in response.headers {
        var smaxage := response.headers[SmaxageBackup];
        if smaxage == NoSmaxage {
          response.RemoveCacheControlDirective(SMaxAge);
        } else {
          response.AddCacheControlDirective(SMaxAge, smaxage);
        }
      }
      response.RemoveHeader(ttlHeader);
      response.RemoveHeader(SmaxageBackup);
    }
  }
}
