/**
 * The controller service that owns the open ingest channels
 * (SnowflakeIngestControllerService): a cache from a composite string key to
 * an open channel, filled on demand through the streaming-ingest client.
 */
module ChannelRegistry {
  import opened Types

  /** The four configured values that identify a channel. */
  datatype Destination = Destination(database: string, schema: string, table: string, channelName: string)

  /** The key under which `getChannel`, `channelMap.put` and `closeChannel` all look. */
  function CacheKey(d: Destination): (k: string)
    ensures |k| == |d.database| + |d.schema| + |d.table| + |d.channelName| + 3
    ensures k[..|d.database|] == d.database && k[|d.database|] == '.'
    ensures k[|k| - |d.channelName|..] == d.channelName && k[|k| - |d.channelName| - 1] == ':'
  {
    d.database + "." + d.schema + "." + d.table + ":" + d.channelName
  }

  /** The position of the first `c` in `s`, if any. */
  function IndexOf(s: string, c: char): (r: Option<nat>)
    ensures r.Some? ==> r.value < |s| && s[r.value] == c && c !in s[..r.value]
    ensures r.None? ==> c !in s
  {
    if s == [] then None
    else if s[0] == c then Some(0)
    else
      match IndexOf(s[1..], c)
      case None => None
      case Some(k) =>
        assert s[..k + 1] == [s[0]] + s[1..][..k];
        Some(k + 1)
  }

  /** Splits `s` at its first `c`: the part before and the part after. */
  function SplitFirst(s: string, c: char): Option<(string, string)> {
    match IndexOf(s, c)
    case None => None
    case Some(i) => Some((s[..i], s[i + 1..]))
  }

  /**
   * Splits a cache key back into a destination: the database up to the first
   * '.', the schema up to the next '.', the table up to the next ':'.
   */
  function ParseKey(key: string): Option<Destination> {
    match SplitFirst(key, '.')
    case None => None
    case Some((database, rest)) =>
      match SplitFirst(rest, '.')
      case None => None
      case Some((schema, tail)) =>
        match SplitFirst(tail, ':')
        case None => None
        case Some((table, channelName)) => Some(Destination(database, schema, table, channelName))
  }

  lemma {:induction false} IndexOfAfter(a: string, c: char, b: string)
    requires c !in a
    ensures IndexOf(a + [c] + b, c) == Some(|a|)
  {
    if a != [] {
      assert (a + [c] + b)[1..] == a[1..] + [c] + b;
      IndexOfAfter(a[1..], c, b);
    }
  }

  lemma SplitFirstAfter(a: string, c: char, b: string)
    requires c !in a
    ensures SplitFirst(a + [c] + b, c) == Some((a, b))
  {
    IndexOfAfter(a, c, b);
    assert (a + [c] + b)[..|a|] == a;
    assert (a + [c] + b)[|a| + 1..] == b;
  }

  /**
   * The key determines the destination when the database and schema contain
   * no '.' and the table contains no ':'.
   */
  lemma CacheKeyParses(d: Destination)
    requires '.' !in d.database && '.' !in d.schema && ':' !in d.table
    ensures ParseKey(CacheKey(d)) == Some(d)
  {
    var tail := d.table + ":" + d.channelName;
    var rest := d.schema + "." + tail;
    assert CacheKey(d) == d.database + ['.'] + rest;
    SplitFirstAfter(d.database, '.', rest);
    assert rest == d.schema + ['.'] + tail;
    SplitFirstAfter(d.schema, '.', tail);
    assert tail == d.table + [':'] + d.channelName;
    SplitFirstAfter(d.table, ':', d.channelName);
  }

  /** Under the same conditions, two destinations sharing a key are equal. */
  lemma CacheKeyInjective(d: Destination, e: Destination)
    requires '.' !in d.database && '.' !in d.schema && ':' !in d.table
    requires '.' !in e.database && '.' !in e.schema && ':' !in e.table
    requires CacheKey(d) == CacheKey(e)
    ensures d == e
  {
    CacheKeyParses(d);
    CacheKeyParses(e);
  }

  /** Without them, distinct destinations can share one cache entry. */
  lemma CacheKeyCollides(table: string, channelName: string)
    ensures Destination("a.b", "c", table, channelName) != Destination("a", "b.c", table, channelName)
    ensures CacheKey(Destination("a.b", "c", table, channelName)) == CacheKey(Destination("a", "b.c", table, channelName))
  {
    var d := Destination("a.b", "c", table, channelName);
    var e := Destination("a", "b.c", table, channelName);
    assert CacheKey(d) == "a.b.c." + table + ":" + channelName;
    assert CacheKey(e) == "a.b.c." + table + ":" + channelName;
  }

  datatype OnErrorOption = Continue | Abort | SkipBatch

  /** An `OpenChannelRequest`: a request name and the destination table; no channel name. */
  datatype OpenRequest = OpenRequest(name: string, database: string, schema: string, table: string, onError: OnErrorOption)

  /** An open `SnowflakeStreamingIngestChannel`, known by the request that opened it. */
  datatype Channel = Channel(request: OpenRequest)

  /** A streaming-ingest client built with a name and the connection properties. */
  datatype Client = Client(name: string, properties: map<string, string>)

  /** The connection properties `onConfigured` builds; the role only when set. */
  function ClientProperties(url: string, user: string, privateKey: string, role: Option<string>): (p: map<string, string>)
    ensures p.Keys == {"url", "user", "private_key"} + (if role.Some? then {"role"} else {})
    ensures p["url"] == url && p["user"] == user && p["private_key"] == privateKey
    ensures role.Some? ==> p["role"] == role.value
  {
    var p := map["url" := url, "user" := user, "private_key" := privateKey];
    if role.Some? then p["role" := role.value] else p
  }

  /** What one `getChannel` call does: the channel it returns, the new cache, the open requests it sends. */
  datatype Lookup = Lookup(channel: Option<Channel>, cache: map<string, Channel>, sent: seq<OpenRequest>)

  /**
   * `getChannel` as a transition of the cache. `configured` says whether the
   * client field has been set; `freshName` is the random request name and
   * `openFault` the exception `openChannel` throws, if any.
   */
  function LookupChannel(cache: map<string, Channel>, configured: bool, d: Destination, freshName: string,
                         openFault: Option<Fault>): (r: Lookup)
    // a hit returns the stored channel and sends nothing
    ensures CacheKey(d) in cache ==> r.channel == Some(cache[CacheKey(d)]) && r.cache == cache && r.sent == []
    // a miss with a client sends exactly one request, with a fresh name, the table and CONTINUE
    ensures CacheKey(d) !in cache && configured ==>
              r.sent == [OpenRequest(freshName, d.database, d.schema, d.table, Continue)]
    ensures !configured ==> r.sent == []
    // a returned channel is cached under the key
    ensures r.channel.Some? ==> CacheKey(d) in r.cache && r.cache[CacheKey(d)] == r.channel.value
    // a newly opened channel is the one the request opened
    ensures r.sent != [] && openFault.None? ==> r.channel == Some(Channel(r.sent[0]))
    // a failed open returns null and leaves the cache alone
    ensures r.channel.None? ==> r.cache == cache
    ensures CacheKey(d) !in cache && (!configured || openFault.Some?) ==> r.channel.None?
    // other entries are untouched
    ensures forall k :: k != CacheKey(d) ==> (k in r.cache <==> k in cache)
    ensures forall k :: k != CacheKey(d) && k in cache ==> r.cache[k] == cache[k]
  {
    var key := CacheKey(d);
    if key in cache then Lookup(Some(cache[key]), cache, [])
    else if !configured then Lookup(None, cache, [])
    else
      var request := OpenRequest(freshName, d.database, d.schema, d.table, Continue);
      if openFault.None? then Lookup(Some(Channel(request)), cache[key := Channel(request)], [request])
      else Lookup(None, cache, [request])
  }

  /** The channel name only separates cache entries: it never reaches the open request. */
  lemma ChannelNameNotSent(cache: map<string, Channel>, configured: bool, d: Destination, e: Destination,
                           freshName: string, openFault: Option<Fault>)
    requires d.database == e.database && d.schema == e.schema && d.table == e.table
    requires CacheKey(d) !in cache && CacheKey(e) !in cache
    ensures LookupChannel(cache, configured, d, freshName, openFault).sent
         == LookupChannel(cache, configured, e, freshName, openFault).sent
  {
  }

  /** After a failed open, the next lookup for the same key opens again. */
  lemma FailedOpenRetried(cache: map<string, Channel>, d: Destination, freshName: string, fault: Fault,
                          nextName: string, nextFault: Option<Fault>)
    requires CacheKey(d) !in cache
    ensures var first := LookupChannel(cache, true, d, freshName, Some(fault));
            first.channel == None &&
            LookupChannel(first.cache, true, d, nextName, nextFault).sent
              == [OpenRequest(nextName, d.database, d.schema, d.table, Continue)]
  {
  }

  /** After the entry is removed, the next lookup misses and opens a new channel. */
  lemma RemovedEntryReopened(cache: map<string, Channel>, d: Destination, freshName: string)
    ensures var r := LookupChannel(cache - {CacheKey(d)}, true, d, freshName, None);
            r.sent == [OpenRequest(freshName, d.database, d.schema, d.table, Continue)] &&
            r.channel == Some(Channel(r.sent[0]))
  {
  }

  class IngestControllerService {
    /** The streaming-ingest client; `None` until `onConfigured` runs. */
    var client: Option<Client>
    var channelMap: map<string, Channel>
    /** Every open request that reached the client, in order. */
    ghost var openRequests: seq<OpenRequest>
    /** Every channel `close()` was called on, in order. */
    ghost var closedChannels: seq<Channel>

    constructor ()
      ensures client == None && channelMap == map[] && openRequests == [] && closedChannels == []
    {
      client := None;
      channelMap := map[];
      openRequests := [];
      closedChannels := [];
    }

    /** `onConfigured`: builds the connection properties and the client named "NIFI". */
    method OnConfigured(url: string, user: string, privateKey: string, role: Option<string>)
      modifies this`client
      ensures client == Some(Client("NIFI", ClientProperties(url, user, privateKey, role)))
    {
      var props: map<string, string> := map[];
      props := props["url" := url];
      props := props["user" := user];
      props := props["private_key" := privateKey];
      if role.Some? {
        props := props["role" := role.value];
      }
      client := Some(Client("NIFI", props));
    }

    /**
     * `getChannel`: a hit returns the cached channel; a miss opens one, caches
     * it and returns it; a failed open (including a missing client) returns
     * `None`, Java's null, and caches nothing.
     */
    method GetChannel(d: Destination, freshName: string, openFault: Option<Fault>) returns (channel: Option<Channel>)
      modifies this`channelMap, this`openRequests
      ensures var r := LookupChannel(old(channelMap), client.Some?, d, freshName, openFault);
              channel == r.channel && channelMap == r.cache && openRequests == old(openRequests) + r.sent
    {
      var key := CacheKey(d);
      if key in channelMap {
        channel := Some(channelMap[key]);
      } else {
        var request := OpenRequest(freshName, d.database, d.schema, d.table, Continue);
        if client.None? {
          // client.openChannel throws NullPointerException, caught by catch (Exception e)
          channel := None;
        } else {
          openRequests := openRequests + [request];
          if openFault.None? {
            channel := Some(Channel(request));
            channelMap := channelMap[key := channel.value];
          } else {
            channel := None;
          }
        }
      }
    }

    /**
     * `closeChannel`: removes the key's entry and closes its channel; with no
     * entry, `remove` yields null and `close()` throws NullPointerException.
     */
    method CloseChannel(d: Destination) returns (thrown: Option<Fault>)
      modifies this`channelMap, this`closedChannels
      ensures channelMap == old(channelMap) - {CacheKey(d)}
      ensures CacheKey(d) in old(channelMap) ==>
                thrown == None && closedChannels == old(closedChannels) + [old(channelMap)[CacheKey(d)]]
      ensures CacheKey(d) !in old(channelMap) ==>
                thrown == Some(NullPointer) && closedChannels == old(closedChannels)
    {
      var key := CacheKey(d);
      if key in channelMap {
        var current := channelMap[key];
        channelMap := channelMap - {key};
        closedChannels := closedChannels + [current];
        thrown := None;
      } else {
        thrown := Some(NullPointer);
      }
    }
  }
}
