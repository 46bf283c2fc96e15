/** How long a response is kept: isCacheableResponse and Set's default (internal/proxy/cache.go). */
module CachePolicy {
  import opened Headers
  import opened Options
  import opened Lru
  import opened Text
  import CC = CacheControl

  /** A Cache-Control argument after time.ParseDuration: missing, unparsable, or a duration. */
  datatype Lifetime = Missing | Malformed | Lasting(d: int)

  /** An upstream response with the directives and the Expires time read from its raw headers. */
  datatype Answer = Answer(status: int, noStore: bool, sMaxAge: Lifetime, maxAge: Lifetime,
                           expires: Option<int>, header: Header, body: string)

  function ReadLifetime(directives: map<string, string>, name: string, duration: string -> Option<int>): Lifetime {
    if name !in directives then Missing
    else match duration(directives[name] + "s")
         case None => Malformed
         case Some(d) => Lasting(d)
  }

  /** What isCacheableResponse reads from a response; `duration` and `date` stand for
      time.ParseDuration and http.ParseTime. */
  function ReadAnswer(status: int, header: Header, body: string, duration: string -> Option<int>,
                      date: string -> Option<int>): Answer {
    var directives := CC.Parse(Headers.Get(header, "Cache-Control"));
    var expires := Headers.Get(header, "Expires");
    Answer(status, "no-store" in directives, ReadLifetime(directives, "s-maxage", duration),
           ReadLifetime(directives, "max-age", duration), if expires == "" then None else date(expires), header, body)
  }

  const CACHEABLE_STATUSES: set<int> := {200, 203, 204, 300, 301, 404, 410}

  /** isCacheableResponse; `first` and `second` are its two readings of the clock. */
  function TtlOf(a: Answer, first: int, second: int, fallback: Ttl): Option<int> {
    if a.status !in CACHEABLE_STATUSES || a.noStore then None
    else if a.sMaxAge.Lasting? then Some(a.sMaxAge.d)
    else if a.maxAge.Lasting? then Some(a.maxAge.d)
    else if a.expires.Some? && a.expires.value > first then Some(a.expires.value - second)
    else Some(fallback)
  }

  /** The freshness lifetime the upstream declared (section 4.2.1 of RFC 9111, for a shared cache). */
  function Declared(a: Answer, at: int): Option<int> {
    if a.sMaxAge.Lasting? then Some(a.sMaxAge.d)
    else if a.maxAge.Lasting? then Some(a.maxAge.d)
    else if a.expires.Some? then Some(a.expires.value - at)
    else None
  }

  /** How long Set keeps a cacheable answer. */
  function KeptFor(a: Answer, first: int, second: int, fallback: Ttl): Ttl
    requires TtlOf(a, first, second, fallback).Some?
  {
    Effective(TtlOf(a, first, second, fallback).value, fallback)
  }

  /** A response is kept no longer than its upstream declared if and only if the declared lifetime
      is positive: "max-age=0" and a past Expires are replaced by the default lifetime. */
  lemma KeptAsDeclaredIff(a: Answer, first: int, second: int, fallback: Ttl)
    requires first <= second && TtlOf(a, first, second, fallback).Some?
    ensures match Declared(a, second)
            case None => KeptFor(a, first, second, fallback) == fallback
            case Some(d) =>
              && (KeptFor(a, first, second, fallback) <= d <==> d > 0)
              && KeptFor(a, first, second, fallback) == if d > 0 then d else fallback
  {
  }

  lemma MaxAgeZeroIsKeptForTheDefault()
    ensures var a := Answer(200, false, Missing, Lasting(0), None, map[], "");
            TtlOf(a, 0, 0, SIXTY_SECONDS) == Some(0) && KeptFor(a, 0, 0, SIXTY_SECONDS) == 60 * SECOND
  {
  }

  /** The lifetime that a directive's argument gives. */
  function Seconds(argument: Option<string>, duration: string -> Option<int>): Option<int> {
    if argument.None? then None else duration(argument.value + "s")
  }

  lemma LifetimeIsSeconds(header: string, ps: seq<CC.Piece>, name: string, duration: string -> Option<int>)
    requires CC.Spelled(header, ps) && Small(name)
    ensures var l, d := ReadLifetime(CC.Parse(header), name, duration), Seconds(CC.LastSaid(ps, name), duration);
            (l.Lasting? <==> d.Some?) && (l.Lasting? ==> d.value == l.d)
  {
    CC.ParseInWords(header, ps, name);
  }

  /** Whether a response may be kept and for how long, however its Cache-Control is spelled: only
      with certain statuses, and not with no-store; the last s-maxage decides, else, if that is
      missing or malformed, the last max-age, else an Expires in the future, else the default. */
  lemma TtlFollowsDirectives(ps: seq<CC.Piece>, status: int, header: Header, body: string,
                             duration: string -> Option<int>, date: string -> Option<int>,
                             first: int, second: int, fallback: Ttl)
    requires CC.Spelled(Headers.Get(header, "Cache-Control"), ps)
    ensures var ttl := TtlOf(ReadAnswer(status, header, body, duration, date), first, second, fallback);
            var shared, any := Seconds(CC.LastSaid(ps, "s-maxage"), duration), Seconds(CC.LastSaid(ps, "max-age"), duration);
            var said := Headers.Get(header, "Expires");
            var expires := if said == "" then None else date(said);
            && (ttl.Some? <==> status in {200, 203, 204, 300, 301, 404, 410} && !CC.Mentions(ps, "no-store"))
            && (ttl.Some? ==>
                  ttl.value == if shared.Some? then shared.value
                               else if any.Some? then any.value
                               else if expires.Some? && expires.value > first then expires.value - second
                               else fallback)
  {
    var text := Headers.Get(header, "Cache-Control");
    CC.ParseInWords(text, ps, "no-store");
    LifetimeIsSeconds(text, ps, "s-maxage", duration);
    LifetimeIsSeconds(text, ps, "max-age", duration);
  }
}
