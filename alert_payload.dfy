/**
 * The alert payload built for one matching pod record
 * (generate_alert_payload in pod-observability-check.py).
 */
module AlertPayload {
  import opened Wrappers
  import opened PodScanner

  /** The webhook body. Each field is one key of the JSON object that is posted. */
  datatype Payload = Payload(
    impactedEntities: string,
    impactedEntity: string,
    problemDetailsText: string,
    problemTitle: string,
    problemImpact: string,
    problemSeverity: string,
    state: string,
    tags: string)

  const TitlePrefix := "Pod "
  const TitleSuffix := " is not observable"
  const DetailsNamespaceInfix := " in namespace "
  const DetailsSuffix := " has label 'observable=false'."
  const TagsPrefix := "namespace:"
  const TagsSuffix := ",label:observable=false"

  /** The text between a known prefix and a known suffix, if s has both. */
  function StripAffixes(s: string, prefix: string, suffix: string): (r: Option<string>)
    ensures r.Some? ==> s == prefix + r.value + suffix
  {
    if |prefix| + |suffix| <= |s| && s[..|prefix|] == prefix && s[|s| - |suffix|..] == suffix
    then Some(s[|prefix|..|s| - |suffix|])
    else None
  }

  /** Stripping the affixes a text was built with gives back its middle. */
  lemma StripAffixesOfWrapped(prefix: string, middle: string, suffix: string)
    ensures StripAffixes(prefix + middle + suffix, prefix, suffix) == Some(middle)
  {
    var s := prefix + middle + suffix;
    assert s[..|prefix|] == prefix;
    assert s[|s| - |suffix|..] == suffix;
    assert s[|prefix|..|s| - |suffix|] == middle;
  }

  predicate EndsWith(s: string, suffix: string)
  {
    |suffix| <= |s| && s[|s| - |suffix|..] == suffix
  }

  /** The pod name a problem title speaks of. */
  function TitleSubject(title: string): Option<string>
  {
    StripAffixes(title, TitlePrefix, TitleSuffix)
  }

  /** The namespace a tags string names. */
  function TagsNamespace(tags: string): Option<string>
  {
    StripAffixes(tags, TagsPrefix, TagsSuffix)
  }

  /** The namespace a details text names, given the pod name it starts with. */
  function DetailsNamespace(text: string, name: string): Option<string>
  {
    StripAffixes(text, TitlePrefix + name + DetailsNamespaceInfix, DetailsSuffix)
  }

  /** The payload for one record: the entity fields carry the pod name, impact, severity and
      state are fixed, and the texts name the pod and its namespace under a fixed
      "observable=false" wording. */
  function GenerateAlertPayload(details: PodDetails): (p: Payload)
    ensures p.impactedEntities == details.name && p.impactedEntity == details.name
    ensures p.problemImpact == "High" && p.problemSeverity == "Critical" && p.state == "Open"
  {
    Payload(
      impactedEntities := details.name,
      impactedEntity := details.name,
      problemDetailsText := TitlePrefix + details.name + DetailsNamespaceInfix + details.namespace + DetailsSuffix,
      problemTitle := TitlePrefix + details.name + TitleSuffix,
      problemImpact := "High",
      problemSeverity := "Critical",
      state := "Open",
      tags := TagsPrefix + details.namespace + TagsSuffix)
  }

  /** The title gives back the pod name and the tags and details text give back the
      namespace: the payload's texts are "Pod <name> is not observable",
      "namespace:<ns>,label:observable=false" and
      "Pod <name> in namespace <ns> has label 'observable=false'." exactly. */
  lemma PayloadRoundTrip(details: PodDetails)
    ensures TitleSubject(GenerateAlertPayload(details).problemTitle) == Some(details.name)
    ensures TagsNamespace(GenerateAlertPayload(details).tags) == Some(details.namespace)
    ensures DetailsNamespace(GenerateAlertPayload(details).problemDetailsText, details.name) == Some(details.namespace)
  {
    StripAffixesOfWrapped(TitlePrefix, details.name, TitleSuffix);
    StripAffixesOfWrapped(TagsPrefix, details.namespace, TagsSuffix);
    StripAffixesOfWrapped(TitlePrefix + details.name + DetailsNamespaceInfix, details.namespace, DetailsSuffix);
  }

  /** Two records give the same payload exactly when they share name and namespace:
      the start time never reaches the payload, and nothing else is lost. */
  lemma PayloadIdentifiesPod(d1: PodDetails, d2: PodDetails)
    ensures GenerateAlertPayload(d1) == GenerateAlertPayload(d2) <==> d1.name == d2.name && d1.namespace == d2.namespace
  {
    PayloadRoundTrip(d1);
    PayloadRoundTrip(d2);
  }

  /** The label named in the alert is observable=false whatever rule the pod matched:
      a pod selected only by team=payments is still reported as "label:observable=false". */
  lemma ReportedLabelIgnoresRule()
    ensures var pod := Pod("billing", "shop", None, map["team" := "payments"]);
            var rules := [LabelRule("team", "payments")];
            MatchingRecords([pod], rules) == [Details(pod)]
            && "observable" !in pod.labels
            && TagsNamespace(GenerateAlertPayload(Details(pod)).tags) == Some("shop")
            && EndsWith(GenerateAlertPayload(Details(pod)).tags, TagsSuffix)
  {
    var pod := Pod("billing", "shop", None, map["team" := "payments"]);
    var rules := [LabelRule("team", "payments")];
    PayloadRoundTrip(Details(pod));
    assert rules[..0] == [] && [pod][..0] == [];
    assert Matches(pod, rules[0]);
    assert RuleRecords(pod, rules) == [Details(pod)];
  }
}
