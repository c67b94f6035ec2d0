# Pod observability check, modelled in Dafny

`pod-observability-check.py` runs once per schedule tick. It lists the pods of one
namespace and compares each pod's labels with an ordered list of `(label_key,
label_value)` rules. For every pod/rule pair where the pod carries the key with exactly
that value, it keeps a record of the pod's name, its namespace and its start time. A pod
with no start time gets the text `"Unknown"`. Each record becomes one webhook payload,
which is posted. A failed post is logged and the sweep goes on.

The model has four modules:

- `Wrappers` (`wrappers.dfy`): `Option`.
- `PodScanner` (`pod_scanner.dfy`): the pod, rule and record types.
  - `GetPodsWithLabels` is the nested loop, proved equal to the specification function `MatchingRecords`.
  - Lemmas about `MatchingRecords` cover provenance, order, completeness and count.
  - The ghost list `Origins` gives each output record's (pod index, rule index) pair.
- `AlertPayload` (`alert_payload.dfy`): `GenerateAlertPayload`.
  - Small parsers (`TitleSubject`, `TagsNamespace`, `DetailsNamespace`) take the texts apart again.
  - Round-trip lemmas use them.
- `Dispatch` (`dispatch.dfy`):
  - The webhook is a class `Webhook` that logs every post. How the endpoint answers the n-th post is fixed by its `respond` function.
  - `SendAlert` swallows failures.
  - `RunCheck` is the script's `main`.

Inputs that are I/O in the program are parameters here:

- The Kubernetes list call is a `PodListing`: either `Listed(pods)` or `ApiError(reason)`.
- The rule list is an already parsed `seq<LabelRule>`. `DefaultRules` is the built-in default, `observable=false`.
- The network and the remote service are `Webhook.respond`.
- A pod's start time is the already formatted ISO-8601 text, or `None`.

What the program does, and the model with it:

- It scans the one configured namespace (lines 17, 34).
- A record holds only the name, the namespace and the start time (lines 40-44).
- A pod is reported once per rule it matches (lines 37-45).
- The webhook payload is the one at lines 55-64.

## Model

| member | source | states |
|---|---|---|
| `PodScanner.GetPodsWithLabels` | pod-observability-check.py:29-51 | A failed listing yields the empty list. Otherwise the nested loop yields exactly `MatchingRecords(pods, rules)`. |
| `PodScanner.OriginsSound` | pod-observability-check.py:37-45 | Every output record has an origin: a pod index and a rule index, both in range, such that the pod matches the rule. The key is among its labels with exactly the rule's value, so a pod lacking the key never contributes. The record is that pod's name and namespace, copied verbatim, plus its start time or `"Unknown"`. |
| `PodScanner.OriginsOrdered` | pod-observability-check.py:37-45 | Origins strictly increase. Listing order comes first, then rule order within one pod. |
| `PodScanner.OriginsComplete` | pod-observability-check.py:37-45 | Every (pod, rule) pair that matches has a record. Nothing stops the loop after a pod's first match. |
| `PodScanner.RuleOriginsExact` | pod-observability-check.py:38-45 | Per pod, all of the following hold: every record is the pod's own, one per matched rule, in rule order, and every matched rule yields one. |
| `PodScanner.RuleRecordsCount` | pod-observability-check.py:38-45 | A pod yields exactly as many records as there are indices of rules it matches. |
| `PodScanner.MatchingRecordsCount` | pod-observability-check.py:36-47 | The result length is the sum over pods of the number of rules each pod matches. |
| `PodScanner.PodSelectedIff` | pod-observability-check.py:38-44 | A pod contributes a record if and only if some rule's key is in its labels with exactly that value. All of its records equal its own details. |
| `PodScanner.DefaultRuleExample` | pod-observability-check.py:36-47 | Under the default rule, pod A (`observable=false`, no start time) is kept with start time `"Unknown"`. Pod B (`observable=true`) is dropped. |
| `PodScanner.DuplicateExample` | pod-observability-check.py:37-45 | A pod matching two rules appears twice, as identical records. |
| `AlertPayload.GenerateAlertPayload` | pod-observability-check.py:53-65 | `ImpactedEntities` and `ImpactedEntity` are both the pod name. Impact is `High`, severity is `Critical` and state is `Open` for every input. |
| `AlertPayload.PayloadRoundTrip` | pod-observability-check.py:58-63 | The title is `Pod <name> is not observable`. The tags are `namespace:<ns>,label:observable=false`. The details text is `Pod <name> in namespace <ns> has label 'observable=false'.`. Stripping these fixed affixes gives back the name and the namespace. |
| `AlertPayload.PayloadIdentifiesPod` | pod-observability-check.py:55-64 | Two records have equal payloads if and only if they share name and namespace. The start time never reaches the payload. |
| `AlertPayload.ReportedLabelIgnoresRule` | pod-observability-check.py:58-63 | A pod selected only by `team=payments`, with no `observable` label, is still reported with tags ending `,label:observable=false`. |
| `Dispatch.Webhook.Post` | pod-observability-check.py:23 | One post is appended to the webhook's log. It returns the endpoint's answer for that post. |
| `Dispatch.SendAlert` | pod-observability-check.py:20-27 | It posts exactly once and returns normally whatever the answer. It reports success if and only if a response came back with a status outside 400-599, the statuses on which the status check raises. |
| `Dispatch.RunCheck` | pod-observability-check.py:67-75 | It posts the payloads of the scan's records, one per record, in order. The list of posts does not depend on the webhook's answers, so a failed post never prevents later ones. An empty scan posts nothing. The k-th logged outcome is the delivery status of the k-th post. |
| `Dispatch.AlertsOfScan` | pod-observability-check.py:36-65 | The alerts of a scan are as many as the matching (pod, rule) pairs, and each comes from one such pair, in listing order and then rule order. Each names that pod and its namespace, and says `observable=false` whichever rule matched. |
| `Dispatch.OneUnreachableOfThree` | pod-observability-check.py:67-75 | Three matching pods and a webhook that fails the second post: all three are posted, and the outcomes are delivered, failed, delivered. |

## Left out

- Reading `WEBHOOK_URL`, `POD_NAMESPACE` and `LABELS_TO_CHECK` from the environment, the exit when `WEBHOOK_URL` is unset, and the JSON parsing of the rules (lines 12-18): process start-up. The rules enter as a parsed `seq<LabelRule>`.
- Malformed rule entries cannot occur once the rules are a `seq<LabelRule>`. In the program:
  - A missing `label_key` raises `KeyError` at line 39 for the first listed pod. With an empty listing or a failed list call nothing raises.
  - A missing `label_value` raises `KeyError` at line 39 only when a pod carries the rule's key. Otherwise that rule silently matches nothing.
  - Either `KeyError` escapes `get_pods_with_labels`, because only `ApiException` is caught (line 49).
  - A non-string value such as JSON `false` never equals a label string, so that rule silently matches nothing (line 39).
- Cluster client configuration and the `list_namespaced_pod` call (lines 32-34): a foreign network client. Its outcome is the `PodListing` input.
  - Exceptions other than `ApiException` propagate in the program. They are not modelled.
- A pod whose labels are `None`: when at least one rule is configured, the program raises an uncaught `TypeError` at line 39. In the model, labels are always a map.
- `datetime.isoformat()` (line 43): library formatting. The formatted start time is an opaque string.
- `requests.post` and `raise_for_status` (lines 23-24): HTTP I/O.
  - The endpoint's behaviour is the `Webhook.respond` function.
  - Only the status range 400-599 is modelled, not JSON encoding.
  - `requests.post` at line 23 has no timeout, so an endpoint that never answers blocks the sweep for good. `Webhook.Post` always returns. `RunCheck`'s guarantee that a failed post never prevents later ones therefore covers failed posts, not hangs.
- Logging (lines 9-10 and the log calls): side effects only.
  - `SendAlert` and `RunCheck` return which of the two log lines was written per post.
  - The "No pods with matching labels found." line is not modelled.
