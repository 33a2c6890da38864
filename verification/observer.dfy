/** Observer: a registration of a callback URL on a query's results. The Java
    class is mutable only through setQueryUri, so it is a value here: the
    constructor is the datatype constructor, the getters are its fields and
    setQueryUri returns the updated value. */
module Observers {
  import opened Strings

  /** Path segment between a query URI and an observer id. */
  const ObserversSegment: string := "/observers/"

  datatype Observer = Observer(id: string, callbackUrl: string, queryUri: string)

  /** getUri: the observer's resource, under its query's URI. */
  function Uri(o: Observer): (u: string)
    ensures StartsWith(u, o.queryUri)
    ensures EndsWith(u, ObserversSegment + o.id)
    ensures |u| == |o.queryUri| + |ObserversSegment| + |o.id|
  {
    o.queryUri + ObserversSegment + o.id
  }

  /** setQueryUri */
  function WithQueryUri(o: Observer, queryUri: string): (r: Observer)
    ensures r.queryUri == queryUri
    ensures r.id == o.id && r.callbackUrl == o.callbackUrl
  {
    o.(queryUri := queryUri)
  }

  /** The query URI an observer URI was built from, given the observer id. */
  function QueryUriOf(u: string, id: string): string
    requires EndsWith(u, ObserversSegment + id)
  {
    u[..|u| - |ObserversSegment + id|]
  }

  /** getUri loses nothing: the query URI is recovered from the observer URI. */
  lemma QueryUriRecovered(o: Observer)
    ensures QueryUriOf(Uri(o), o.id) == o.queryUri
  {
    var u := Uri(o);
    assert u == o.queryUri + (ObserversSegment + o.id);
  }

  /** Two observers with the same id and the same URI observe the same query. */
  lemma UriInjective(o: Observer, p: Observer)
    requires o.id == p.id && Uri(o) == Uri(p)
    ensures o.queryUri == p.queryUri
  {
    QueryUriRecovered(o);
    QueryUriRecovered(p);
  }

  /** After setQueryUri(q), the URI is q followed by "/observers/" and the id,
      and the id and callback URL are the ones the observer had. */
  lemma SetQueryUriThenUri(o: Observer, q: string)
    ensures var r := WithQueryUri(o, q);
      && Uri(r) == q + ObserversSegment + o.id
      && StartsWith(Uri(r), q)
      && EndsWith(Uri(r), ObserversSegment + o.id)
      && QueryUriOf(Uri(r), r.id) == q
      && r.id == o.id && r.callbackUrl == o.callbackUrl
  {
    QueryUriRecovered(WithQueryUri(o, q));
  }

  /** setQueryUri overwrites: the last call wins, and setting the current
      query URI changes nothing. */
  lemma SetQueryUriOverwrites(o: Observer, q1: string, q2: string)
    ensures WithQueryUri(WithQueryUri(o, q1), q2) == WithQueryUri(o, q2)
    ensures WithQueryUri(o, o.queryUri) == o
  {
  }
}
