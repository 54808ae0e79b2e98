/** The request counter family `http_requests_total{method, endpoint, status}`
    and the observation count of `http_request_duration_seconds{method, endpoint}`,
    as maps from label tuples to counts. */
module Metrics {

  /** (method, endpoint, status) labels of one counter series. */
  type SeriesKey = (string, string, string)

  /** (method, endpoint) labels of one duration series. */
  type ObservationKey = (string, string)

  /** `WithLabelValues(...).Inc()`: the series `k` goes up by one, being
      created at zero first when it does not exist yet; nothing else changes. */
  function Bump<K>(m: map<K, nat>, k: K): (r: map<K, nat>)
    ensures r.Keys == m.Keys + {k}
    ensures r[k] == (if k in m then m[k] else 0) + 1
    ensures forall j :: j in m && j != k ==> r[j] == m[j]
  {
    m[k := if k in m then m[k] + 1 else 1]
  }

  /** Some series of a non-empty family, the same one every time. */
  ghost function Pick(m: map<SeriesKey, nat>): (k: SeriesKey)
    requires m != map[]
    ensures k in m
  {
    assert exists k :: k in m by {
      var keys := m.Keys;
      assert keys != {};
      var k :| k in keys;
    }
    var k :| k in m; k
  }

  /** What series `k` holding `count` contributes to the total of `endpoint`. */
  function Share(k: SeriesKey, count: nat, endpoint: string): nat {
    if k.1 == endpoint then count else 0
  }

  /** The sum of every series labelled with `endpoint`, over all methods and
      status labels. */
  ghost function EndpointTotal(m: map<SeriesKey, nat>, endpoint: string): nat
    decreases |m|
  {
    if m == map[] then 0
    else
      var k := Pick(m);
      Share(k, m[k], endpoint) + EndpointTotal(m - {k}, endpoint)
  }

  /** The total does not depend on which series the sum takes first. */
  lemma {:induction false} EndpointTotalRemove(m: map<SeriesKey, nat>, k: SeriesKey, endpoint: string)
    requires k in m
    ensures EndpointTotal(m, endpoint) == Share(k, m[k], endpoint) + EndpointTotal(m - {k}, endpoint)
    decreases |m|
  {
    var p := Pick(m);
    if p != k {
      assert (m - {p}).Keys == m.Keys - {p};
      EndpointTotalRemove(m - {p}, k, endpoint);
      assert (m - {k}).Keys == m.Keys - {k};
      EndpointTotalRemove(m - {k}, p, endpoint);
      assert m - {p} - {k} == m - {k} - {p};
    }
  }

  /** One increment raises the total of its own endpoint by one and leaves
      the total of every other endpoint as it was. */
  lemma EndpointTotalBump(m: map<SeriesKey, nat>, k: SeriesKey, endpoint: string)
    ensures EndpointTotal(Bump(m, k), endpoint)
         == EndpointTotal(m, endpoint) + (if k.1 == endpoint then 1 else 0)
  {
    var r := Bump(m, k);
    EndpointTotalRemove(r, k, endpoint);
    assert r - {k} == m - {k};
    if k in m {
      EndpointTotalRemove(m, k, endpoint);
    } else {
      assert m - {k} == m;
    }
  }

  /** The family after the increments `ks`, in order, starting from `m`. */
  function Replay(m: map<SeriesKey, nat>, ks: seq<SeriesKey>): map<SeriesKey, nat> {
    if ks == [] then m else Bump(Replay(m, ks[..|ks| - 1]), ks[|ks| - 1])
  }

  /** How many of the increments `ks` carry the label `endpoint`. */
  function CallsTo(ks: seq<SeriesKey>, endpoint: string): (n: nat)
    ensures n <= |ks|
  {
    if ks == [] then 0
    else CallsTo(ks[..|ks| - 1], endpoint) + (if ks[|ks| - 1].1 == endpoint then 1 else 0)
  }

  /** After any sequence of increments, the total of an endpoint has grown by
      exactly the number of increments labelled with it. */
  lemma {:induction false} EndpointTotalReplay(m: map<SeriesKey, nat>, ks: seq<SeriesKey>, endpoint: string)
    ensures EndpointTotal(Replay(m, ks), endpoint) == EndpointTotal(m, endpoint) + CallsTo(ks, endpoint)
  {
    if ks != [] {
      EndpointTotalReplay(m, ks[..|ks| - 1], endpoint);
      EndpointTotalBump(Replay(m, ks[..|ks| - 1]), ks[|ks| - 1], endpoint);
    }
  }

  /** Starting from no series at all, the total of an endpoint is the number
      of requests counted for it. */
  lemma CountsFromScratch(ks: seq<SeriesKey>, endpoint: string)
    ensures EndpointTotal(Replay(map[], ks), endpoint) == CallsTo(ks, endpoint)
  {
    EndpointTotalReplay(map[], ks, endpoint);
  }

  /** The series present after the increments `ks` are those present before
      and those the increments name. */
  lemma {:induction false} ReplayKeys(m: map<SeriesKey, nat>, ks: seq<SeriesKey>)
    ensures forall k :: k in Replay(m, ks) ==> k in m || k in ks
  {
    if ks != [] {
      ReplayKeys(m, ks[..|ks| - 1]);
    }
  }
}
