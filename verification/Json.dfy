/** Tool arguments: JSON trees, the dotted paths rules use, and how scalars are written for a glob. */
module Json {
  import opened Wrappers

  datatype Json =
    | Null
    | Bool(b: bool)
    | Num(token: string)             // a number, as it is rendered
    | Str(s: string)
    | List(items: seq<Json>)
    | Obj(fields: map<string, Json>)

  type Arguments = map<string, Json>

  /** `canonical_value` (policy/glob.py): containers have no rendering. */
  function CanonicalValue(v: Json): Option<string> {
    match v
    case Bool(b) => Some(if b then "true" else "false")
    case Null => Some("null")
    case Str(s) => Some(s)
    case Num(token) => Some(token)
    case List(_) => None
    case Obj(_) => None
  }

  /** `path.split(sep)`: the stretches between separators, never none. */
  function Split(path: string, sep: char): (segments: seq<string>)
    ensures segments != []
    ensures forall segment <- segments :: sep !in segment
  {
    if path == "" then [""]
    else
      var rest := Split(path[1..], sep);
      if path[0] == sep then [""] + rest else [[path[0]] + rest[0]] + rest[1..]
  }

  /** `sep.join(segments)`. */
  function JoinWith(segments: seq<string>, sep: char): string
    requires segments != []
  {
    if |segments| == 1 then segments[0] else segments[0] + [sep] + JoinWith(segments[1..], sep)
  }

  lemma {:induction false} SplitJoin(path: string, sep: char)
    ensures JoinWith(Split(path, sep), sep) == path
  {
    if path != "" {
      SplitJoin(path[1..], sep);
      var rest := Split(path[1..], sep);
      if path[0] == sep {
        assert ([""] + rest)[1..] == rest;
      } else {
        assert ([[path[0]] + rest[0]] + rest[1..])[1..] == rest[1..];
      }
    }
  }

  /** The other way round: what is joined from segments free of the separator splits into them again. */
  lemma {:induction false} JoinSplit(segments: seq<string>, sep: char)
    requires segments != [] && forall segment <- segments :: sep !in segment
    ensures Split(JoinWith(segments, sep), sep) == segments
    decreases |segments|
  {
    var first := segments[0];
    assert first + "" == first;
    if |segments| == 1 {
      SplitFirst(first, "", sep);
      assert segments == [first];
    } else {
      var rest := JoinWith(segments[1..], sep);
      JoinSplit(segments[1..], sep);
      SplitFirst(first, [sep] + rest, sep);
      assert first + [sep] + rest == first + ([sep] + rest);
      assert ([sep] + rest)[1..] == rest && Split([sep] + rest, sep) == [""] + segments[1..];
      assert ([""] + segments[1..])[1..] == segments[1..] && segments == [first] + segments[1..];
    }
  }

  /** Text free of the separator goes to the first segment. */
  lemma {:induction false} SplitFirst(first: string, rest: string, sep: char)
    requires sep !in first
    ensures Split(first + rest, sep) == [first + Split(rest, sep)[0]] + Split(rest, sep)[1..]
    decreases |first|
  {
    if first == "" {
      assert first + rest == rest && first + Split(rest, sep)[0] == Split(rest, sep)[0];
    } else {
      SplitFirst(first[1..], rest, sep);
      assert (first + rest)[1..] == first[1..] + rest;
      assert [first[0]] + (first[1..] + Split(rest, sep)[0]) == first + Split(rest, sep)[0];
    }
  }

  /**
   * The value at the end of a chain of keys, with `Null` for Python's None: a missing key, or a value that
   * is not an object on the way. An explicit null is indistinguishable from absent.
   */
  function Lookup(v: Json, segments: seq<string>): Json
    decreases |segments|
  {
    if segments == [] then v
    else if v.Obj? && segments[0] in v.fields then Lookup(v.fields[segments[0]], segments[1..])
    else Null
  }

  /** The chain can be walked to its end. */
  predicate Present(v: Json, segments: seq<string>)
    decreases |segments|
  {
    segments == []
    || (v.Obj? && segments[0] in v.fields && Present(v.fields[segments[0]], segments[1..]))
  }

  lemma {:induction false} LookupAbsent(v: Json, segments: seq<string>)
    ensures !Present(v, segments) ==> Lookup(v, segments) == Null
    decreases |segments|
  {
    if segments != [] && v.Obj? && segments[0] in v.fields {
      LookupAbsent(v.fields[segments[0]], segments[1..]);
    }
  }

  /** `resolve_argument` (policy/engine.py): the loop over the segments of a dotted path. */
  method ResolveArgument(arguments: Arguments, path: string) returns (found: Json)
    ensures found == Lookup(Obj(arguments), Split(path, '.'))
    ensures !Present(Obj(arguments), Split(path, '.')) ==> found == Null
  {
    var segments := Split(path, '.');
    LookupAbsent(Obj(arguments), segments);
    var current := Obj(arguments);
    for i := 0 to |segments|
      invariant Lookup(Obj(arguments), segments) == Lookup(current, segments[i..])
    {
      assert segments[i..][0] == segments[i] && segments[i..][1..] == segments[i + 1..];
      if !current.Obj? { return Null; }
      if segments[i] !in current.fields { return Null; }
      current := current.fields[segments[i]];
    }
    found := current;
  }
}
