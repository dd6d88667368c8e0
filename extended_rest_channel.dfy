/**
 * The REST channel that carries extra response headers
 * (ExtendedRestChannel): headers added while a request is handled are
 * kept in a map created on first use, the last value for a name winning,
 * and every stored header is put on the response just before it is
 * handed to the wrapped channel.
 *
 * A response is modelled by its list of headers; the wrapped channel by
 * the list of header lists of the responses it was given.
 */
module RestChannel {

  datatype Header = Header(name: string, value: string)

  /** A REST response: only its headers are modelled. */
  class RestResponse {
    var headers: seq<Header>

    constructor ()
      ensures headers == []
    {
      headers := [];
    }

    /** `addHeader`: appends one header. */
    method AddHeader(name: string, value: string)
      modifies this`headers
      ensures headers == old(headers) + [Header(name, value)]
    {
      headers := headers + [Header(name, value)];
    }
  }

  /** The wrapped channel: it records the headers of every response it sends. */
  class Channel {
    var sent: seq<seq<Header>>

    constructor ()
      ensures sent == []
    {
      sent := [];
    }

    method SendResponse(response: RestResponse)
      modifies this`sent
      ensures sent == old(sent) + [response.headers]
    {
      sent := sent + [response.headers];
    }
  }

  /** The stored headers after `put(name, value)` on the map, created first when there is none. */
  function Put(stored: map<string, string>, created: bool, name: string, value: string): (r: map<string, string>)
    ensures name in r && r[name] == value
    ensures forall k :: k != name ==> (k in r <==> created && k in stored)
    ensures forall k :: k != name && k in r ==> r[k] == stored[k]
  {
    (if created then stored else map[])[name := value]
  }

  /**
   * `added` lists the entries of `m` whose names are in `keys`: each once,
   * with its stored value, and nothing else.
   */
  ghost predicate ListsEntries(added: seq<Header>, m: map<string, string>, keys: set<string>)
    requires keys <= m.Keys
  {
    && (forall i :: 0 <= i < |added| ==> added[i].name in keys && added[i].value == m[added[i].name])
    && (forall i, j :: 0 <= i < j < |added| ==> added[i].name != added[j].name)
    && (forall k :: k in keys ==> exists i :: 0 <= i < |added| && added[i].name == k)
  }

  /** Listing the entries of a map means one header per stored name, and the stored pairs exactly. */
  lemma {:induction false} ListedOncePerEntry(added: seq<Header>, m: map<string, string>, keys: set<string>)
    requires keys <= m.Keys && ListsEntries(added, m, keys)
    ensures |added| == |keys|
    ensures forall h :: h in added <==> h.name in keys && h.value == m[h.name]
    decreases |added|
  {
    if added != [] {
      var last := added[|added| - 1];
      var prefix := added[..|added| - 1];
      var rest := keys - {last.name};
      forall k | k in rest
        ensures exists i :: 0 <= i < |prefix| && prefix[i].name == k
      {
        var i :| 0 <= i < |added| && added[i].name == k;
        assert i != |added| - 1;
        assert prefix[i] == added[i];
      }
      assert ListsEntries(prefix, m, rest);
      ListedOncePerEntry(prefix, m, rest);
      assert added == prefix + [last];
    } else {
      assert keys == {};
    }
  }

  class ExtendedRestChannel {
    /** The wrapped channel `sendResponse` delegates to. */
    const original: Channel
    /** The stored headers; `created` is false while the map is still null. */
    var created: bool
    var responseHeaders: map<string, string>

    constructor (original: Channel)
      ensures this.original == original && !created && responseHeaders == map[]
    {
      this.original := original;
      created := false;
      responseHeaders := map[];
    }

    /** `addHeaderToResponse`: creates the map when needed, then stores the header. */
    method AddHeaderToResponse(header: string, value: string)
      modifies this`created, this`responseHeaders
      ensures created
      ensures responseHeaders == Put(old(responseHeaders), old(created), header, value)
    {
      if !created {
        created := true;
        responseHeaders := map[];
      }
      responseHeaders := responseHeaders[header := value];
    }

    /**
     * `injectHeaders`: appends one header per stored entry to the response
     * (in no particular order), or nothing when no header was ever added.
     */
    method InjectHeaders(response: RestResponse)
      modifies response`headers
      ensures !created ==> response.headers == old(response.headers)
      ensures |old(response.headers)| <= |response.headers|
      ensures response.headers[..|old(response.headers)|] == old(response.headers)
      ensures created ==> ListsEntries(response.headers[|old(response.headers)|..], responseHeaders, responseHeaders.Keys)
    {
      if created {
        var m := responseHeaders;
        var remaining := m.Keys;
        ghost var start := response.headers;
        while remaining != {}
          invariant remaining <= m.Keys
          invariant |start| <= |response.headers| && response.headers[..|start|] == start
          invariant ListsEntries(response.headers[|start|..], m, m.Keys - remaining)
          decreases |remaining|
        {
          var k :| k in remaining;
          ghost var before := response.headers[|start|..];
          assert ListsEntries(before, m, m.Keys - remaining);
          response.AddHeader(k, m[k]);
          ghost var after := response.headers[|start|..];
          assert after == before + [Header(k, m[k])];
          forall key | key in m.Keys - (remaining - {k})
            ensures exists i :: 0 <= i < |after| && after[i].name == key
          {
            if key == k {
              assert after[|before|].name == k;
            } else {
              assert key in m.Keys - remaining;
              var i :| 0 <= i < |before| && before[i].name == key;
              assert after[i] == before[i];
            }
          }
          remaining := remaining - {k};
        }
        assert m.Keys - remaining == m.Keys;
      }
    }

    /** `sendResponse`: injects the stored headers, then delegates; the stored headers stay. */
    method SendResponse(response: RestResponse)
      modifies response`headers, original`sent
      ensures created == old(created) && responseHeaders == old(responseHeaders)
      ensures !created ==> response.headers == old(response.headers)
      ensures |old(response.headers)| <= |response.headers|
      ensures response.headers[..|old(response.headers)|] == old(response.headers)
      ensures created ==> ListsEntries(response.headers[|old(response.headers)|..], responseHeaders, responseHeaders.Keys)
      ensures original.sent == old(original.sent) + [response.headers]
    {
      InjectHeaders(response);
      original.SendResponse(response);
    }
  }

  /** Adding the same header name twice keeps only the later value. */
  lemma LastWriteWins(stored: map<string, string>, created: bool, name: string, v1: string, v2: string)
    ensures Put(Put(stored, created, name, v1), true, name, v2) == Put(stored, created, name, v2)
  {
  }
}
