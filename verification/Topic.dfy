/** Pub/Sub topics: late initialisation, comparison and the masked update request of
    pkg/clients/topic/topic.go. Nil and empty maps and lists compare differently here, so
    both are `Option`s. */
module Topic {
  import opened Pointers

  type Labels = Option<map<string, string>>

  /** MessageStoragePolicy: its list of regions. */
  datatype StoragePolicy = StoragePolicy(regions: Option<seq<string>>)

  datatype Parameters = Parameters(labels: Labels, storagePolicy: Option<StoragePolicy>, kmsKeyName: Option<string>)

  datatype TopicValue = TopicValue(name: string, labels: Labels, storagePolicy: Option<StoragePolicy>, kmsKeyName: string)

  datatype UpdateRequest = UpdateRequest(topic: TopicValue, updateMask: string)

  const LABELS := "labels"
  const STORAGE_POLICY := "messageStoragePolicy"

  predicate NoLabels(l: Labels) { l.None? || l.value == map[] }

  function LateInit(s: Parameters, t: TopicValue): Parameters {
    Parameters(
      if NoLabels(s.labels) && !NoLabels(t.labels) then t.labels else s.labels,
      if s.storagePolicy.None? then t.storagePolicy else s.storagePolicy,
      if s.kmsKeyName.None? && t.kmsKeyName != "" then Some(t.kmsKeyName) else s.kmsKeyName)
  }

  /** What a topic looks like as parameters. */
  function Observed(t: TopicValue): Parameters {
    LateInit(Parameters(None, None, None), t)
  }

  predicate UpToDate(s: Parameters, t: TopicValue) {
    Observed(t) == s
  }

  // ---- late initialisation only fills ----

  /** Every field set in `s` has the same value in `r`; empty labels count as unset. */
  predicate Fills(s: Parameters, r: Parameters) {
    && (s.labels.Some? && s.labels.value != map[] ==> r.labels == s.labels)
    && (s.labels.Some? ==> r.labels.Some?)
    && (s.storagePolicy.Some? ==> r.storagePolicy == s.storagePolicy)
    && (s.kmsKeyName.Some? ==> r.kmsKeyName == s.kmsKeyName)
  }

  /** What is set stays, and what is unset takes the observed value if there is one. */
  lemma LateInitFills(s: Parameters, t: TopicValue)
    ensures var r := LateInit(s, t);
            && Fills(s, r)
            && (s.labels.GetOr(map[]) == map[] ==>
                  r.labels == if t.labels.GetOr(map[]) != map[] then t.labels else s.labels)
            && (s.storagePolicy.None? ==> r.storagePolicy == t.storagePolicy)
            && (s.kmsKeyName.None? ==> r.kmsKeyName == if t.kmsKeyName != "" then Some(t.kmsKeyName) else None)
  {
  }

  function LateInitAll(s: Parameters, ts: seq<TopicValue>): Parameters
    decreases |ts|
  {
    if ts == [] then s else LateInitAll(LateInit(s, ts[0]), ts[1..])
  }

  lemma {:induction false} LateInitAllFills(s: Parameters, ts: seq<TopicValue>)
    ensures Fills(s, LateInitAll(s, ts))
    decreases |ts|
  {
    if ts != [] {
      LateInitAllFills(LateInit(s, ts[0]), ts[1..]);
    }
  }

  lemma {:induction false} LateInitAllConcatenates(s: Parameters, ts: seq<TopicValue>, more: seq<TopicValue>)
    ensures LateInitAll(s, ts + more) == LateInitAll(LateInitAll(s, ts), more)
    decreases |ts|
  {
    if ts == [] {
      assert ts + more == more;
    } else {
      assert (ts + more)[1..] == ts[1..] + more;
      LateInitAllConcatenates(LateInit(s, ts[0]), ts[1..], more);
    }
  }

  /** Across any sequence of observations each field changes at most once, from unset to set. */
  lemma ObservationsOnlyFill(s: Parameters, ts: seq<TopicValue>, more: seq<TopicValue>)
    ensures Fills(s, LateInitAll(s, ts))
    ensures Fills(LateInitAll(s, ts), LateInitAll(s, ts + more))
  {
    LateInitAllFills(s, ts);
    LateInitAllConcatenates(s, ts, more);
    LateInitAllFills(LateInitAll(s, ts), more);
  }

  /** Drift detection on the user's fields: after late initialisation a topic is up to date
      if and only if it has every field the user set, an empty label map and an empty KMS
      key name being met by nothing. */
  lemma DriftIsDisagreement(s: Parameters, t: TopicValue)
    ensures UpToDate(LateInit(s, t), t) <==>
            && (s.labels.Some? ==> t.labels.Some? && t.labels.value != map[])
            && (s.labels.GetOr(map[]) != map[] ==> s.labels == t.labels)
            && (s.storagePolicy.Some? ==> s.storagePolicy == t.storagePolicy)
            && (s.kmsKeyName.Some? ==> s.kmsKeyName.value == t.kmsKeyName && t.kmsKeyName != "")
  {
  }

  class SpecObject {
    var value: Parameters

    constructor (v: Parameters)
      ensures value == v
    {
      value := v;
    }

    method LateInitialize(t: TopicValue)
      modifies this
      ensures value == LateInit(old(value), t)
    {
      if NoLabels(value.labels) && !NoLabels(t.labels) {
        var copy := CopyLabels(t.labels.value);
        value := value.(labels := Some(copy));
      }
      if value.kmsKeyName.None? && |t.kmsKeyName| != 0 {
        value := value.(kmsKeyName := Some(t.kmsKeyName));
      }
      if value.storagePolicy.None? && t.storagePolicy.Some? {
        value := value.(storagePolicy := Some(StoragePolicy(t.storagePolicy.value.regions)));
      }
    }
  }

  method CopyLabels(from: map<string, string>) returns (copy: map<string, string>)
    ensures copy == from
  {
    copy := map[];
    var left := from.Keys;
    while left != {}
      invariant left <= from.Keys && copy.Keys == from.Keys - left
      invariant forall k :: k in copy ==> copy[k] == from[k]
      decreases |left|
    {
      var k :| k in left;
      copy := copy[k := from[k]];
      left := left - {k};
    }
  }

  // ---- the update mask ----

  /** strings.Join(parts, ","). */
  function Join(parts: seq<string>): string {
    if parts == [] then "" else if |parts| == 1 then parts[0] else parts[0] + "," + Join(parts[1..])
  }

  /** The field paths of a mask, split at its commas. */
  function Paths(mask: string): seq<string> {
    if mask == "" then [] else SplitFrom("", mask)
  }

  function SplitFrom(head: string, rest: string): seq<string>
    decreases |rest|
  {
    if rest == "" then [head]
    else if rest[0] == ',' then [head] + SplitFrom("", rest[1..])
    else SplitFrom(head + [rest[0]], rest[1..])
  }

  lemma {:induction false} SplitPart(head: string, part: string, rest: string)
    requires ',' !in part
    ensures SplitFrom(head, part + rest) == SplitFrom(head + part, rest)
    decreases |part|
  {
    if part == "" {
      assert part + rest == rest && head + part == head;
    } else {
      assert (part + rest)[1..] == part[1..] + rest;
      SplitPart(head + [part[0]], part[1..], rest);
      assert head + [part[0]] + part[1..] == head + part;
    }
  }

  lemma {:induction false} SplitUndoesJoin(parts: seq<string>)
    requires parts != [] && forall p :: p in parts ==> ',' !in p
    ensures SplitFrom("", Join(parts)) == parts
    decreases |parts|
  {
    SplitPart("", parts[0], if |parts| == 1 then "" else "," + Join(parts[1..]));
    assert "" + parts[0] == parts[0];
    if |parts| == 1 {
      assert parts[0] + "" == parts[0];
    } else {
      SplitUndoesJoin(parts[1..]);
      assert parts[0] + ("," + Join(parts[1..])) == Join(parts);
      assert ("," + Join(parts[1..]))[1..] == Join(parts[1..]);
    }
  }

  /** The masked paths, in the order they are appended. */
  function MaskParts(s: Parameters, t: TopicValue): seq<string> {
    (if s.storagePolicy != Observed(t).storagePolicy then [STORAGE_POLICY] else []) +
    (if s.labels != Observed(t).labels then [LABELS] else [])
  }

  lemma MaskPaths(s: Parameters, t: TopicValue)
    ensures Paths(Join(MaskParts(s, t))) == MaskParts(s, t)
    ensures Join(MaskParts(s, t)) == "" <==> MaskParts(s, t) == []
  {
    if MaskParts(s, t) != [] {
      SplitUndoesJoin(MaskParts(s, t));
    }
  }

  /** The mask names a field exactly when the spec disagrees with what the topic is observed
      with: no storage policy but the topic's, no labels but its own where it has any. */
  lemma MaskNamesDisagreements(s: Parameters, t: TopicValue)
    ensures var paths := Paths(Join(MaskParts(s, t)));
            && ("messageStoragePolicy" in paths <==> s.storagePolicy != t.storagePolicy)
            && ("labels" in paths <==> s.labels != if t.labels.GetOr(map[]) == map[] then None else t.labels)
            && (forall p :: p in paths ==> p == "messageStoragePolicy" || p == "labels")
            && |paths| == (if "messageStoragePolicy" in paths then 1 else 0) + (if "labels" in paths then 1 else 0)
  {
    MaskPaths(s, t);
    assert LABELS[0] != STORAGE_POLICY[0];
  }

  method GenerateUpdateRequest(name: string, s: Parameters, t: TopicValue) returns (r: UpdateRequest)
    ensures r.updateMask == Join(MaskParts(s, t))
    ensures r.topic == TopicValue(name, if LABELS in MaskParts(s, t) then s.labels else None,
                                  if STORAGE_POLICY in MaskParts(s, t) then s.storagePolicy else None, "")
  {
    var observed := new SpecObject(Parameters(None, None, None));
    observed.LateInitialize(t);
    var topic := TopicValue(name, None, None, "");
    var mask: seq<string> := [];
    if s.storagePolicy != observed.value.storagePolicy {
      mask := mask + [STORAGE_POLICY];
      if s.storagePolicy.Some? {
        topic := topic.(storagePolicy := Some(StoragePolicy(s.storagePolicy.value.regions)));
      }
    }
    if s.labels != observed.value.labels {
      mask := mask + [LABELS];
      topic := topic.(labels := s.labels);
    }
    r := UpdateRequest(topic, Join(mask));
  }

  /** What Pub/Sub does with a request: it replaces exactly the masked fields. */
  function Accepted(r: UpdateRequest, t: TopicValue): TopicValue {
    t.(labels := if LABELS in Paths(r.updateMask) then r.topic.labels else t.labels,
       storagePolicy := if STORAGE_POLICY in Paths(r.updateMask) then r.topic.storagePolicy else t.storagePolicy)
  }

  predicate IsRequestFor(r: UpdateRequest, s: Parameters, t: TopicValue) {
    && r.updateMask == Join(MaskParts(s, t))
    && (STORAGE_POLICY in MaskParts(s, t) ==> r.topic.storagePolicy == s.storagePolicy)
    && (LABELS in MaskParts(s, t) ==> r.topic.labels == s.labels)
  }

  /** The request repairs labels and storage policy and nothing else: afterwards the topic
      is up to date if and only if the KMS key already agreed and the spec's labels are not
      an empty non-nil map, which no topic is ever observed with. */
  lemma RequestRepairs(r: UpdateRequest, s: Parameters, t: TopicValue)
    requires IsRequestFor(r, s, t)
    ensures UpToDate(s, Accepted(r, t)) <==> s.kmsKeyName == Observed(t).kmsKeyName && s.labels != Some(map[])
    ensures r.updateMask == "" <==> s.labels == Observed(t).labels && s.storagePolicy == Observed(t).storagePolicy
    ensures Accepted(r, t).kmsKeyName == t.kmsKeyName && Accepted(r, t).name == t.name
  {
    MaskPaths(s, t);
  }

  /** Which specs a topic can ever be up to date with: all but those that set an empty label
      map or an empty KMS key name, which no topic is observed with. */
  lemma AttainableIff(s: Parameters)
    ensures (exists t :: UpToDate(s, t)) <==> s.labels != Some(map[]) && s.kmsKeyName != Some("")
  {
    if s.labels != Some(map[]) && s.kmsKeyName != Some("") {
      assert UpToDate(s, TopicValue("", s.labels, s.storagePolicy, StringValue(s.kmsKeyName)));
    }
  }

  /** The topic Create sends. */
  function GenerateTopic(name: string, s: Parameters): TopicValue {
    TopicValue(name, s.labels, s.storagePolicy, StringValue(s.kmsKeyName))
  }

  /** It carries the spec's fields, and is up to date whenever any topic could be. */
  lemma CreatedTopic(name: string, s: Parameters)
    ensures var t := GenerateTopic(name, s);
            && t.name == name && t.labels == s.labels && t.storagePolicy == s.storagePolicy
            && t.kmsKeyName == StringValue(s.kmsKeyName)
    ensures UpToDate(s, GenerateTopic(name, s)) <==> exists t :: UpToDate(s, t)
  {
    AttainableIff(s);
  }

  /** Sending the update and comparing again. */
  method UpdateTopic(name: string, s: Parameters, t: TopicValue) returns (after: TopicValue)
    ensures UpToDate(s, after) <==> s.kmsKeyName == Observed(t).kmsKeyName && s.labels != Some(map[])
  {
    var r := GenerateUpdateRequest(name, s, t);
    RequestRepairs(r, s, t);
    after := Accepted(r, t);
  }
}
