/**
 * The alert dispatcher: one payload and one post per matching record, in order,
 * with every failed post logged and swallowed (send_alert and main in
 * pod-observability-check.py).
 */
module Dispatch {
  import opened Wrappers
  import opened PodScanner
  import opened AlertPayload

  /** What one HTTP POST to the webhook gives back: a response with its status code,
      or a request error (connection refused, timeout, ...). */
  datatype PostResult = Response(status: int) | RequestError(reason: string)

  /** The status codes for which checking the response raises: client and server errors. */
  predicate IsErrorStatus(status: int)
  {
    400 <= status < 600
  }

  /** A post succeeds when a response came back and its status is not an error status. */
  predicate Delivered(r: PostResult)
  {
    r.Response? && !IsErrorStatus(r.status)
  }

  /** The webhook endpoint. How it answers the n-th post is fixed by `respond`, which
      stands for the network and the remote service; `posted` records every post made. */
  class Webhook {
    const respond: (nat, Payload) -> PostResult
    var posted: seq<Payload>

    constructor (respond: (nat, Payload) -> PostResult)
      ensures this.respond == respond && posted == []
    {
      this.respond := respond;
      posted := [];
    }

    /** Posts one payload as JSON and returns what came back. */
    method Post(payload: Payload) returns (r: PostResult)
      modifies this
      ensures posted == old(posted) + [payload]
      ensures r == respond(|old(posted)|, payload)
    {
      r := respond(|posted|, payload);
      posted := posted + [payload];
    }
  }

  /** Sends one alert. A failed post is caught here and only decides which line is logged,
      reported as `delivered`; nothing propagates to the caller. */
  method SendAlert(hook: Webhook, payload: Payload) returns (delivered: bool)
    modifies hook
    ensures hook.posted == old(hook.posted) + [payload]
    ensures delivered <==> Delivered(hook.respond(|old(hook.posted)|, payload))
  {
    var r := hook.Post(payload);
    delivered := Delivered(r);
  }

  /** The payloads of a list of records, in the same order. */
  function Alerts(records: seq<PodDetails>): seq<Payload>
  {
    seq(|records|, k requires 0 <= k < |records| => GenerateAlertPayload(records[k]))
  }

  /** One sweep: scan, then build and post one payload per matching record, in order.
      `delivered` lists, post by post, which of the two log lines was written. The posts
      made do not depend on how the webhook answers, so a failed post never stops the
      later ones. That an empty scan posts nothing follows from the first ensures
      (the alerts of no records are none); the second states it outright. */
  method RunCheck(listing: PodListing, rules: seq<LabelRule>, hook: Webhook) returns (delivered: seq<bool>)
    modifies hook
    ensures hook.posted == old(hook.posted) + Alerts(Scan(listing, rules))
    ensures Scan(listing, rules) == [] ==> hook.posted == old(hook.posted)
    ensures |delivered| == |Scan(listing, rules)|
    ensures forall k :: 0 <= k < |delivered| ==>
      (delivered[k] <==> Delivered(hook.respond(|old(hook.posted)| + k, GenerateAlertPayload(Scan(listing, rules)[k]))))
  {
    var matching := GetPodsWithLabels(listing, rules);
    delivered := [];
    if matching != [] {
      for k := 0 to |matching|
        invariant hook.posted == old(hook.posted) + Alerts(matching[..k])
        invariant |delivered| == k
        invariant forall m :: 0 <= m < k ==>
          (delivered[m] <==> Delivered(hook.respond(|old(hook.posted)| + m, GenerateAlertPayload(matching[m]))))
      {
        var payload := GenerateAlertPayload(matching[k]);
        var ok := SendAlert(hook, payload);
        delivered := delivered + [ok];
        assert Alerts(matching[..k + 1]) == Alerts(matching[..k]) + [payload];
      }
      assert matching[..|matching|] == matching;
    }
  }

  /** Every alert of a sweep over a listing belongs to one (pod, rule) pair the pod matched,
      in listing order and then rule order; it names that pod and its namespace, and its
      wording says observable=false whichever rule matched. There are as many alerts as
      there are matching pairs. */
  lemma {:induction false} AlertsOfScan(pods: seq<Pod>, rules: seq<LabelRule>)
    ensures |Alerts(MatchingRecords(pods, rules))| == |Origins(pods, rules)| == TotalMatchCount(pods, rules)
    ensures forall k :: 0 <= k < |Origins(pods, rules)| ==>
      var o := Origins(pods, rules)[k];
      var alert := Alerts(MatchingRecords(pods, rules))[k];
      o.pod < |pods| && o.rule < |rules| && Matches(pods[o.pod], rules[o.rule])
      && alert.impactedEntity == pods[o.pod].name
      && TagsNamespace(alert.tags) == Some(pods[o.pod].namespace)
      && EndsWith(alert.tags, TagsSuffix)
    ensures forall a, b :: 0 <= a < b < |Origins(pods, rules)| ==> Precedes(Origins(pods, rules)[a], Origins(pods, rules)[b])
  {
    var records := MatchingRecords(pods, rules);
    OriginsSound(pods, rules);
    OriginsOrdered(pods, rules);
    MatchingRecordsCount(pods, rules);
    forall k | 0 <= k < |records|
      ensures TagsNamespace(Alerts(records)[k].tags) == Some(records[k].namespace)
      ensures EndsWith(Alerts(records)[k].tags, TagsSuffix)
    {
      PayloadRoundTrip(records[k]);
    }
  }

  /** Three pods carry observable=false and the webhook fails the second post: all three
      alerts are still posted, and exactly the first and the third are delivered. */
  method OneUnreachableOfThree() returns (posts: nat, delivered: seq<bool>)
    ensures posts == 3 && delivered == [true, false, true]
  {
    var labels := map["observable" := "false"];
    var pods := [Pod("a", "default", None, labels), Pod("b", "default", None, labels), Pod("c", "default", None, labels)];
    var hook := new Webhook((n: nat, p: Payload) => if n == 1 then RequestError("unreachable") else Response(200));
    delivered := RunCheck(Listed(pods), DefaultRules, hook);
    MatchingRecordsCount(pods, DefaultRules);
    assert pods[..2][..1] == [pods[0]] && pods[..1][..0] == [] && pods[..2] == [pods[0], pods[1]];
    forall p | p in pods ensures |MatchingRuleIndices(p, DefaultRules)| == 1 {
      assert MatchingRuleIndices(p, DefaultRules) == {0};
    }
    assert TotalMatchCount(pods[..1], DefaultRules) == 1;
    assert TotalMatchCount(pods[..2], DefaultRules) == 2;
    assert TotalMatchCount(pods, DefaultRules) == 3;
    posts := |hook.posted|;
  }
}
