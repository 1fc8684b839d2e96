/** Optional fields of Kubernetes specs: a Go pointer is an `Option`, and the helpers
    below read it and late-initialise it (pkg/clients/gcp.go).

    A slice or map whose nil and empty forms no caller can tell apart is a plain `seq`
    or `map`; where the source does tell them apart it is an `Option` of one. */
module Pointers {

  datatype Option<+T> = None | Some(value: T) {
    function GetOr(default: T): T {
      match this
      case Some(v) => v
      case None => default
    }
  }

  function StringValue(v: Option<string>): string { v.GetOr("") }

  function Int64Value(v: Option<int>): int { v.GetOr(0) }

  function BoolValue(v: Option<bool>): bool { v.GetOr(false) }

  /** The user's value if there is one, else the observed value unless that is zero:
      either way the field then reads as "the user's value, else the observed one". */
  function LateInitializeString(s: Option<string>, from: string): (r: Option<string>)
    ensures StringValue(r) == s.GetOr(from)
    ensures s.Some? ==> r == s
    ensures s.None? && from == "" ==> r.None?
  {
    if s.Some? || from == "" then s else Some(from)
  }

  function LateInitializeInt64(i: Option<int>, from: int): (r: Option<int>)
    ensures Int64Value(r) == i.GetOr(from)
    ensures i.Some? ==> r == i
    ensures i.None? && from == 0 ==> r.None?
  {
    if i.Some? || from == 0 then i else Some(from)
  }

  function LateInitializeBool(b: Option<bool>, from: bool): (r: Option<bool>)
    ensures BoolValue(r) == b.GetOr(from)
    ensures b.Some? ==> r == b
    ensures b.None? && !from ==> r.None?
  {
    if b.Some? || !from then b else Some(from)
  }

  function LateInitializeStringSlice(s: seq<string>, from: seq<string>): (r: seq<string>)
    ensures r == [] <==> s == [] && from == []
    ensures s != [] ==> r == s
    ensures s == [] ==> r == from
  {
    if |s| != 0 || |from| == 0 then s else from
  }

  function LateInitializeStringMap(s: map<string, string>, from: map<string, string>): (r: map<string, string>)
    ensures r == map[] <==> s == map[] && from == map[]
    ensures s != map[] ==> r == s
    ensures s == map[] ==> r == from
  {
    if |s| != 0 || |from| == 0 then s else from
  }
}
