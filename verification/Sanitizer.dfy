/** Removal of dot-only field names from a JSON document. */
module Sanitizer {
  import opened Prelude

  /** A decoded document; leaves keep their text, so numbers keep their precision. */
  datatype Json = Obj(fields: map<string, Json>) | Arr(items: seq<Json>) | Leaf(text: string)

  /** Cuts leading and trailing dots. */
  function TrimDots(s: string): string {
    if s == "" then ""
    else if s[0] == '.' then TrimDots(s[1..])
    else if s[|s| - 1] == '.' then TrimDots(s[..|s| - 1])
    else s
  }

  predicate DotOnly(key: string) {
    key != "" && TrimDots(key) == ""
  }

  lemma {:induction false} TrimsAway(s: string)
    ensures TrimDots(s) == "" <==> forall i :: 0 <= i < |s| ==> s[i] == '.'
    decreases |s|
  {
    if s == "" {
    } else if s[0] == '.' {
      TrimsAway(s[1..]);
      assert forall i :: 1 <= i < |s| ==> s[i] == s[1..][i - 1];
    } else if s[|s| - 1] == '.' {
      TrimsAway(s[..|s| - 1]);
      assert s[..|s| - 1][0] == s[0];
    }
  }

  /** The specification: every object, at any depth, without its dot-only fields. */
  function Sanitized(value: Json): Json {
    match value
    case Obj(fields) => Obj(map k | k in fields && !DotOnly(k) :: Sanitized(fields[k]))
    case Arr(items) => Arr(seq(|items|, i requires 0 <= i < |items| => Sanitized(items[i])))
    case Leaf(_) => value
  }

  method RemoveDotOnlyKeys(value: Json) returns (result: Json)
    ensures result == Sanitized(value)
    decreases value
  {
    match value
    case Obj(all) =>
      var fields, rest := all, all.Keys;
      while rest != {}
        invariant rest <= all.Keys
        invariant fields == map k | k in all && (k in rest || !DotOnly(k)) :: if k in rest then all[k]
                  else Sanitized(all[k])
        decreases rest
      {
        var key :| key in rest;
        rest := rest - {key};
        if key != "" && TrimDots(key) == "" {
          fields := fields - {key};
          continue;
        }
        var child := RemoveDotOnlyKeys(all[key]);
        fields := fields[key := child];
      }
      result := Obj(fields);
    case Arr(all) =>
      var items := all;
      for i := 0 to |all|
        invariant |items| == |all|
        invariant forall j :: 0 <= j < i ==> items[j] == Sanitized(all[j])
        invariant forall j :: i <= j < |all| ==> items[j] == all[j]
      {
        var child := RemoveDotOnlyKeys(all[i]);
        items := items[i := child];
      }
      result := Arr(items);
    case Leaf(_) =>
      result := value;
  }

  // ----- Paths -----

  datatype Move = Field(key: string) | Item(index: nat)

  /** The subtree a path leads to. */
  function At(value: Json, path: seq<Move>): Option<Json> {
    if path == [] then Some(value)
    else
      match path[0]
      case Field(key) => if value.Obj? && key in value.fields then At(value.fields[key], path[1..]) else None
      case Item(index) => if value.Arr? && index < |value.items| then At(value.items[index], path[1..]) else None
  }

  /** No field name on the path is a non-empty string of dots. */
  predicate Clean(path: seq<Move>) {
    forall i :: 0 <= i < |path| && path[i].Field? ==>
      path[i].key == "" || exists j :: 0 <= j < |path[i].key| && path[i].key[j] != '.'
  }

  lemma CleanStep(path: seq<Move>)
    requires path != []
    ensures Clean(path) <==> (path[0].Field? ==> !DotOnly(path[0].key)) && Clean(path[1..])
  {
    if path[0].Field? { TrimsAway(path[0].key); }
    assert forall i :: 1 <= i < |path| ==> path[i] == path[1..][i - 1];
  }

  /** A path survives, with what it leads to sanitised, exactly when it is clean. */
  lemma {:induction false} CleanPathsSurvive(value: Json, path: seq<Move>)
    ensures At(Sanitized(value), path) ==
              if Clean(path) && At(value, path).Some? then Some(Sanitized(At(value, path).value)) else None
    decreases |path|
  {
    if path != [] {
      CleanStep(path);
      match path[0]
      case Field(key) => if value.Obj? && key in value.fields { CleanPathsSurvive(value.fields[key], path[1..]); }
      case Item(index) => if value.Arr? && index < |value.items| { CleanPathsSurvive(value.items[index], path[1..]); }
    }
  }

  /** A path leads to a given leaf afterwards if and only if it did before and is clean; arrays keep their length. */
  lemma LeavesSurvive(value: Json, path: seq<Move>, text: string)
    ensures At(Sanitized(value), path) == Some(Leaf(text)) <==> At(value, path) == Some(Leaf(text)) && Clean(path)
    ensures Clean(path) && At(value, path).Some? && At(value, path).value.Arr? ==>
              var kept := At(Sanitized(value), path);
              kept.Some? && kept.value.Arr? && |kept.value.items| == |At(value, path).value.items|
  {
    CleanPathsSurvive(value, path);
  }

  lemma {:induction false} SanitizedTwice(value: Json)
    ensures Sanitized(Sanitized(value)) == Sanitized(value)
  {
    match value
    case Obj(fields) =>
      forall k | k in fields
        ensures Sanitized(Sanitized(fields[k])) == Sanitized(fields[k])
      {
        SanitizedTwice(fields[k]);
      }
    case Arr(items) =>
      forall i | 0 <= i < |items|
        ensures Sanitized(Sanitized(items[i])) == Sanitized(items[i])
      {
        SanitizedTwice(items[i]);
      }
    case Leaf(_) =>
  }
}
