/**
 * The pod scanner: lists the pods of one namespace and keeps a record for
 * every (pod, label rule) pair whose rule the pod's labels satisfy
 * (get_pods_with_labels in pod-observability-check.py).
 */
module PodScanner {
  import opened Wrappers

  /** One pod as the cluster API lists it, reduced to the fields the scanner reads.
      The start time is the already formatted ISO-8601 text, or None when the pod has none. */
  datatype Pod = Pod(name: string, namespace: string, startTime: Option<string>, labels: map<string, string>)

  /** One configured match rule: the label key and the exact value it must carry. */
  datatype LabelRule = LabelRule(key: string, value: string)

  /** The record kept for a matching pod. */
  datatype PodDetails = PodDetails(name: string, namespace: string, startTime: string)

  /** The outcome of listing the pods of the configured namespace. */
  datatype PodListing = Listed(items: seq<Pod>) | ApiError(reason: string)

  /** Where one output record comes from: the index of the pod and of the rule it matched. */
  datatype Origin = Origin(pod: nat, rule: nat)

  /** The start time written when a pod has none. */
  const UnknownStartTime := "Unknown"

  /** The rule list used when none is configured: a single rule observable=false. */
  const DefaultRules := [LabelRule("observable", "false")]

  /** A pod satisfies a rule when the key is among its labels and carries exactly the rule's value. */
  predicate Matches(pod: Pod, rule: LabelRule)
  {
    rule.key in pod.labels && pod.labels[rule.key] == rule.value
  }

  function Details(pod: Pod): PodDetails
  {
    PodDetails(pod.name, pod.namespace, if pod.startTime.Some? then pod.startTime.value else UnknownStartTime)
  }

  /** The records one pod contributes: one per rule it matches, in rule order. */
  function RuleRecords(pod: Pod, rules: seq<LabelRule>): seq<PodDetails>
  {
    if rules == [] then []
    else RuleRecords(pod, rules[..|rules| - 1]) + (if Matches(pod, rules[|rules| - 1]) then [Details(pod)] else [])
  }

  /** The records of a whole listing: pod order first, rule order within each pod. */
  function MatchingRecords(pods: seq<Pod>, rules: seq<LabelRule>): seq<PodDetails>
  {
    if pods == [] then []
    else MatchingRecords(pods[..|pods| - 1], rules) + RuleRecords(pods[|pods| - 1], rules)
  }

  /** What a scan returns: nothing when the listing failed, the matching records otherwise. */
  function Scan(listing: PodListing, rules: seq<LabelRule>): seq<PodDetails>
  {
    match listing
    case ApiError(_) => []
    case Listed(pods) => MatchingRecords(pods, rules)
  }

  /** The scan itself: a nested loop over pods and rules appending one record per match,
      with no early exit once a pod has matched. */
  method GetPodsWithLabels(listing: PodListing, rules: seq<LabelRule>) returns (matching: seq<PodDetails>)
    ensures listing.ApiError? ==> matching == []
    ensures listing.Listed? ==> matching == MatchingRecords(listing.items, rules)
  {
    if listing.ApiError? {
      return [];
    }
    var pods := listing.items;
    matching := [];
    for i := 0 to |pods|
      invariant matching == MatchingRecords(pods[..i], rules)
    {
      var pod := pods[i];
      for j := 0 to |rules|
        invariant matching == MatchingRecords(pods[..i], rules) + RuleRecords(pod, rules[..j])
      {
        var rule := rules[j];
        if Matches(pod, rule) {
          matching := matching + [Details(pod)];
        }
        assert rules[..j + 1][..j] == rules[..j];
      }
      assert rules[..|rules|] == rules;
      assert pods[..i + 1][..i] == pods[..i];
    }
    assert pods[..|pods|] == pods;
  }

  // ---------------------------------------------------------------------------
  // Provenance and order of the output

  /** The origins of the records one pod (at index i) contributes. */
  ghost function RuleOrigins(pod: Pod, i: nat, rules: seq<LabelRule>): seq<Origin>
  {
    if rules == [] then []
    else RuleOrigins(pod, i, rules[..|rules| - 1]) + (if Matches(pod, rules[|rules| - 1]) then [Origin(i, |rules| - 1)] else [])
  }

  /** The origins of every record of a listing, position by position. */
  ghost function Origins(pods: seq<Pod>, rules: seq<LabelRule>): seq<Origin>
  {
    if pods == [] then []
    else Origins(pods[..|pods| - 1], rules) + RuleOrigins(pods[|pods| - 1], |pods| - 1, rules)
  }

  /** Listing order first, rule order second. */
  predicate Precedes(a: Origin, b: Origin)
  {
    a.pod < b.pod || (a.pod == b.pod && a.rule < b.rule)
  }

  lemma {:induction false} RuleOriginsExact(pod: Pod, i: nat, rules: seq<LabelRule>)
    ensures |RuleOrigins(pod, i, rules)| == |RuleRecords(pod, rules)|
    ensures forall k :: 0 <= k < |RuleOrigins(pod, i, rules)| ==>
      RuleOrigins(pod, i, rules)[k].pod == i && RuleOrigins(pod, i, rules)[k].rule < |rules|
      && Matches(pod, rules[RuleOrigins(pod, i, rules)[k].rule]) && RuleRecords(pod, rules)[k] == Details(pod)
    ensures forall a, b :: 0 <= a < b < |RuleOrigins(pod, i, rules)| ==>
      RuleOrigins(pod, i, rules)[a].rule < RuleOrigins(pod, i, rules)[b].rule
    ensures forall j :: 0 <= j < |rules| && Matches(pod, rules[j]) ==> Origin(i, j) in RuleOrigins(pod, i, rules)
  {
    if rules != [] {
      var prefix := rules[..|rules| - 1];
      RuleOriginsExact(pod, i, prefix);
      forall j | 0 <= j < |prefix| ensures rules[j] == prefix[j] { }
    }
  }

  /** Every record comes from a pod of the listing that matched a rule, and is that pod's record:
      name and namespace copied, the start time or the sentinel "Unknown". */
  lemma {:induction false} OriginsSound(pods: seq<Pod>, rules: seq<LabelRule>)
    ensures |Origins(pods, rules)| == |MatchingRecords(pods, rules)|
    ensures forall k :: 0 <= k < |Origins(pods, rules)| ==>
      Origins(pods, rules)[k].pod < |pods| && Origins(pods, rules)[k].rule < |rules|
      && Matches(pods[Origins(pods, rules)[k].pod], rules[Origins(pods, rules)[k].rule])
      && MatchingRecords(pods, rules)[k] == Details(pods[Origins(pods, rules)[k].pod])
  {
    if pods != [] {
      var prefix, n := pods[..|pods| - 1], |pods| - 1;
      OriginsSound(prefix, rules);
      RuleOriginsExact(pods[n], n, rules);
      forall i | 0 <= i < |prefix| ensures pods[i] == prefix[i] { }
    }
  }

  /** The records appear in listing order, and by rule order within one pod. */
  lemma {:induction false} OriginsOrdered(pods: seq<Pod>, rules: seq<LabelRule>)
    ensures forall a, b :: 0 <= a < b < |Origins(pods, rules)| ==> Precedes(Origins(pods, rules)[a], Origins(pods, rules)[b])
  {
    if pods != [] {
      var prefix, n := pods[..|pods| - 1], |pods| - 1;
      OriginsOrdered(prefix, rules);
      OriginsSound(prefix, rules);
      RuleOriginsExact(pods[n], n, rules);
    }
  }

  /** Every matching (pod, rule) pair yields a record: there is no early exit after a match. */
  lemma {:induction false} OriginsComplete(pods: seq<Pod>, rules: seq<LabelRule>)
    ensures forall i, j :: 0 <= i < |pods| && 0 <= j < |rules| && Matches(pods[i], rules[j]) ==> Origin(i, j) in Origins(pods, rules)
  {
    forall i, j | 0 <= i < |pods| && 0 <= j < |rules| && Matches(pods[i], rules[j])
      ensures Origin(i, j) in Origins(pods, rules)
    {
      OriginComplete(pods, rules, i, j);
    }
  }

  lemma {:induction false} OriginComplete(pods: seq<Pod>, rules: seq<LabelRule>, i: nat, j: nat)
    requires i < |pods| && j < |rules| && Matches(pods[i], rules[j])
    ensures Origin(i, j) in Origins(pods, rules)
  {
    var prefix, n := pods[..|pods| - 1], |pods| - 1;
    assert Origins(pods, rules) == Origins(prefix, rules) + RuleOrigins(pods[n], n, rules);
    if i < n {
      assert pods[i] == prefix[i];
      OriginComplete(prefix, rules, i, j);
    } else {
      RuleOriginsExact(pods[n], n, rules);
    }
  }

  // ---------------------------------------------------------------------------
  // How many records

  /** The indices of the rules a pod matches. */
  function MatchingRuleIndices(pod: Pod, rules: seq<LabelRule>): set<nat>
  {
    set j: nat | j < |rules| && Matches(pod, rules[j])
  }

  /** The number of records a listing must yield: per pod, the number of rules it matches. */
  function TotalMatchCount(pods: seq<Pod>, rules: seq<LabelRule>): nat
  {
    if pods == [] then 0
    else TotalMatchCount(pods[..|pods| - 1], rules) + |MatchingRuleIndices(pods[|pods| - 1], rules)|
  }

  /** A pod yields exactly as many records as rules it matches. */
  lemma {:induction false} RuleRecordsCount(pod: Pod, rules: seq<LabelRule>)
    ensures |RuleRecords(pod, rules)| == |MatchingRuleIndices(pod, rules)|
  {
    if rules == [] {
      assert MatchingRuleIndices(pod, rules) == {};
    } else {
      var prefix, n := rules[..|rules| - 1], |rules| - 1;
      RuleRecordsCount(pod, prefix);
      var before := MatchingRuleIndices(pod, prefix);
      assert n !in before;
      if Matches(pod, rules[n]) {
        assert MatchingRuleIndices(pod, rules) == before + {n};
      } else {
        assert MatchingRuleIndices(pod, rules) == before;
      }
    }
  }

  /** The scan's length is the sum over pods of the number of rules each matches. */
  lemma {:induction false} MatchingRecordsCount(pods: seq<Pod>, rules: seq<LabelRule>)
    ensures |MatchingRecords(pods, rules)| == TotalMatchCount(pods, rules)
  {
    if pods != [] {
      MatchingRecordsCount(pods[..|pods| - 1], rules);
      RuleRecordsCount(pods[|pods| - 1], rules);
    }
  }

  /** A pod contributes a record iff some rule's key is among its labels with exactly the rule's
      value, and then every record it contributes is its own. */
  lemma PodSelectedIff(pod: Pod, rules: seq<LabelRule>)
    ensures RuleRecords(pod, rules) != [] <==> exists j :: 0 <= j < |rules| && Matches(pod, rules[j])
    ensures forall d :: d in RuleRecords(pod, rules) ==> d == Details(pod)
  {
    RuleRecordsCount(pod, rules);
    if j :| 0 <= j < |rules| && Matches(pod, rules[j]) {
      assert j in MatchingRuleIndices(pod, rules);
    }
    RuleOriginsExact(pod, 0, rules);
  }

  // ---------------------------------------------------------------------------
  // Examples

  /** Pod A carries observable=false and pod B observable=true: the default rule keeps A only. */
  lemma DefaultRuleExample()
    ensures var a := Pod("a", "default", None, map["observable" := "false"]);
            var b := Pod("b", "default", Some("2024-01-01T00:00:00+00:00"), map["observable" := "true"]);
            MatchingRecords([a, b], DefaultRules) == [PodDetails("a", "default", "Unknown")]
  {
    var a := Pod("a", "default", None, map["observable" := "false"]);
    var b := Pod("b", "default", Some("2024-01-01T00:00:00+00:00"), map["observable" := "true"]);
    assert [a, b][..1] == [a];
    assert [a][..0] == [];
    assert DefaultRules[..0] == [];
    assert Matches(a, DefaultRules[0]) && !Matches(b, DefaultRules[0]);
    assert RuleRecords(a, DefaultRules) == [Details(a)];
    assert RuleRecords(b, DefaultRules) == [];
    assert MatchingRecords([a], DefaultRules) == [Details(a)];
  }

  /** A pod matching two rules is reported twice. */
  lemma DuplicateExample()
    ensures var p := Pod("web", "shop", None, map["observable" := "false", "team" := "none"]);
            MatchingRecords([p], [LabelRule("observable", "false"), LabelRule("team", "none")])
              == [PodDetails("web", "shop", "Unknown"), PodDetails("web", "shop", "Unknown")]
  {
    var p := Pod("web", "shop", None, map["observable" := "false", "team" := "none"]);
    var rules := [LabelRule("observable", "false"), LabelRule("team", "none")];
    assert rules[..1] == [LabelRule("observable", "false")];
    assert rules[..1][..0] == [];
    assert Matches(p, rules[0]) && Matches(p, rules[1]);
    assert RuleRecords(p, rules[..1]) == [Details(p)];
    assert RuleRecords(p, rules) == [Details(p), Details(p)];
    assert [p][..0] == [];
  }
}
