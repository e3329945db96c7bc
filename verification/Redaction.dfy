/**
 * Redaction of arguments before they are stored (audit/models.py).
 *
 * The masked tree is characterised from outside: which parts of a tree it depends on, how two redactions
 * compose, and that what a rule can read at a path is what redacting that path masks.
 */
module Redaction {
  import opened Wrappers
  import opened Glob
  import opened Json
  import GlobLaws

  const REDACTED: Json := Str("[redacted]")

  // ---- the transformation --------------------------------------------------

  function Decimal(n: nat): string {
    if n < 10 then [('0' as int + n) as char] else Decimal(n / 10) + Decimal(n % 10)
  }

  datatype Step = Key(name: string) | Index(i: nat)

  /** The internal path of a child: keys drop the slash after an empty prefix, list positions do not. */
  function Extend(prefix: string, step: Step): string {
    match step
    case Key(name) => if prefix != "" then prefix + "/" + name else name
    case Index(i) => prefix + "/" + Decimal(i)
  }

  /** A dot in a configured pattern is a level boundary, written '/' for the globber. */
  function Translate(pattern: string): (t: string)
    ensures |t| == |pattern|
    ensures forall i | 0 <= i < |t| :: t[i] == if pattern[i] == '.' then '/' else pattern[i]
  {
    if pattern == "" then ""
    else [if pattern[0] == '.' then '/' else pattern[0]] + Translate(pattern[1..])
  }

  predicate Masked(patterns: seq<string>, path: string) {
    path != "" && exists p <- patterns :: MatchPath(Translate(p), path)
  }

  function Redact(patterns: seq<string>, v: Json, prefix: string): Json
    decreases v
  {
    if Masked(patterns, prefix) then REDACTED
    else match v
      case Obj(fields) => Obj(map k | k in fields :: Redact(patterns, fields[k], Extend(prefix, Key(k))))
      case List(items) =>
        List(seq(|items|, i requires 0 <= i < |items| => Redact(patterns, items[i], Extend(prefix, Index(i)))))
      case _ => v
  }

  /** `redact_arguments`. */
  function RedactArguments(arguments: Arguments, patterns: seq<string>): Arguments {
    if patterns == [] then arguments
    else
      var result := Redact(patterns, Obj(arguments), "");
      if result.Obj? then result.fields else map[]
  }

  /** The top level is never masked, so the shortcut and the fallback above change nothing. */
  lemma RedactArgumentsIsRedact(arguments: Arguments, patterns: seq<string>)
    ensures Obj(RedactArguments(arguments, patterns)) == Redact(patterns, Obj(arguments), "")
  {
    if patterns == [] { NoPatterns(Obj(arguments), ""); }
  }

  lemma {:induction false} NoPatterns(v: Json, prefix: string)
    ensures Redact([], v, prefix) == v
    decreases v
  {
    match v
    case Obj(fields) =>
      forall k | k in fields { NoPatterns(fields[k], Extend(prefix, Key(k))); }
    case List(items) =>
      forall i | 0 <= i < |items| { NoPatterns(items[i], Extend(prefix, Index(i))); }
    case _ =>
  }

  // ---- what a redacted tree depends on ----------------------------------------

  /** The internal path of an address. */
  function PathTo(prefix: string, address: seq<Step>): string
    decreases |address|
  {
    if address == [] then prefix else PathTo(Extend(prefix, address[0]), address[1..])
  }

  /** The node at an address of the raw tree. */
  function At(v: Json, address: seq<Step>): Option<Json>
    decreases |address|
  {
    if address == [] then Some(v)
    else match (v, address[0])
      case (Obj(fields), Key(k)) => if k in fields then At(fields[k], address[1..]) else None
      case (List(items), Index(i)) => if i < |items| then At(items[i], address[1..]) else None
      case _ => None
  }

  /** The address lies at or beneath a path that some pattern matches. */
  ghost predicate Hidden(patterns: seq<string>, prefix: string, address: seq<Step>) {
    exists n | 0 <= n <= |address| :: Masked(patterns, PathTo(prefix, address[..n]))
  }

  /** What a node shows without its children. */
  datatype Face = Missing | Scalar(v: Json) | Object(keys: set<string>) | Array(length: nat)

  function FaceOf(node: Option<Json>): Face {
    match node
    case None => Missing
    case Some(Obj(fields)) => Object(fields.Keys)
    case Some(List(items)) => Array(|items|)
    case Some(v) => Scalar(v)
  }

  /** The trees agree at every address that is not hidden. */
  ghost predicate Agree(patterns: seq<string>, prefix: string, a: Json, b: Json) {
    forall address :: Hidden(patterns, prefix, address) || FaceOf(At(a, address)) == FaceOf(At(b, address))
  }

  lemma HiddenChild(patterns: seq<string>, prefix: string, step: Step, address: seq<Step>)
    ensures Hidden(patterns, prefix, [step] + address)
            <==> Masked(patterns, prefix) || Hidden(patterns, Extend(prefix, step), address)
  {
    var whole := [step] + address;
    assert whole[..0] == [];
    forall n | 0 <= n <= |address|
      ensures PathTo(prefix, whole[..n + 1]) == PathTo(Extend(prefix, step), address[..n])
    {
      assert whole[..n + 1] == [step] + address[..n];
    }
    if Hidden(patterns, prefix, whole) {
      var n :| 0 <= n <= |whole| && Masked(patterns, PathTo(prefix, whole[..n]));
      if n > 0 { assert Masked(patterns, PathTo(Extend(prefix, step), address[..n - 1])); }
    }
    if n :| 0 <= n <= |address| && Masked(patterns, PathTo(Extend(prefix, step), address[..n])) {
      assert Masked(patterns, PathTo(prefix, whole[..n + 1]));
    }
    if Masked(patterns, prefix) { assert Masked(patterns, PathTo(prefix, whole[..0])); }
  }

  lemma AtStep(v: Json, step: Step, rest: seq<Step>)
    ensures At(v, [step] + rest) == if At(v, [step]).Some? then At(At(v, [step]).value, rest) else None
  {
    assert ([step] + rest)[1..] == rest && [step][1..] == [];
  }

  lemma SameFaceSameSteps(a: Json, b: Json, step: Step)
    requires FaceOf(Some(a)) == FaceOf(Some(b))
    ensures At(a, [step]).Some? <==> At(b, [step]).Some?
  {
    assert [step][1..] == [];
  }

  /** Agreement of two trees, restricted to one child both of them have. */
  lemma AgreeChild(patterns: seq<string>, prefix: string, a: Json, b: Json, step: Step)
    requires !Masked(patterns, prefix)
    requires At(a, [step]).Some? && At(b, [step]).Some?
    requires Agree(patterns, prefix, a, b)
    ensures Agree(patterns, Extend(prefix, step), At(a, [step]).value, At(b, [step]).value)
  {
    forall address | !Hidden(patterns, Extend(prefix, step), address)
      ensures FaceOf(At(At(a, [step]).value, address)) == FaceOf(At(At(b, [step]).value, address))
    {
      HiddenChild(patterns, prefix, step, address);
      AtStep(a, step, address);
      AtStep(b, step, address);
    }
  }

  /** Agreement of the roots and of every child is agreement. */
  lemma AgreeParent(patterns: seq<string>, prefix: string, a: Json, b: Json)
    requires FaceOf(Some(a)) == FaceOf(Some(b))
    requires forall step | At(a, [step]).Some? && At(b, [step]).Some? ::
               Agree(patterns, Extend(prefix, step), At(a, [step]).value, At(b, [step]).value)
    ensures Agree(patterns, prefix, a, b)
  {
    forall address | !Hidden(patterns, prefix, address)
      ensures FaceOf(At(a, address)) == FaceOf(At(b, address))
    {
      if address != [] {
        var step, rest := address[0], address[1..];
        assert address == [step] + rest;
        HiddenChild(patterns, prefix, step, rest);
        SameFaceSameSteps(a, b, step);
        AtStep(a, step, rest);
        AtStep(b, step, rest);
      }
    }
  }

  /** Two trees redact to the same tree exactly when they agree wherever no pattern hides them. */
  lemma {:induction false} RedactionKernel(patterns: seq<string>, prefix: string, a: Json, b: Json)
    ensures Redact(patterns, a, prefix) == Redact(patterns, b, prefix) <==> Agree(patterns, prefix, a, b)
    decreases a
  {
    if Masked(patterns, prefix) {
      forall address ensures Hidden(patterns, prefix, address) {
        assert address[..0] == [];
        assert Masked(patterns, PathTo(prefix, address[..0]));
      }
    } else {
      assert !Hidden(patterns, prefix, []);
      assert At(a, []) == Some(a) && At(b, []) == Some(b);
      if FaceOf(Some(a)) == FaceOf(Some(b)) {
        KernelChildren(patterns, prefix, a, b);
      } else {
        assert FaceOf(At(a, [])) != FaceOf(At(b, []));
        FaceKept(patterns, prefix, a);
        FaceKept(patterns, prefix, b);
      }
    }
  }

  lemma FaceKept(patterns: seq<string>, prefix: string, v: Json)
    requires !Masked(patterns, prefix)
    ensures FaceOf(Some(Redact(patterns, v, prefix))) == FaceOf(Some(v))
  {
    if v.Obj? { assert Redact(patterns, v, prefix).fields.Keys == v.fields.Keys; }
  }

  lemma {:induction false} KernelChildren(patterns: seq<string>, prefix: string, a: Json, b: Json)
    requires !Masked(patterns, prefix)
    requires FaceOf(Some(a)) == FaceOf(Some(b))
    ensures Redact(patterns, a, prefix) == Redact(patterns, b, prefix) <==> Agree(patterns, prefix, a, b)
    decreases a, 1
  {
    match a {
      case Obj(_) => KernelFields(patterns, prefix, a, b);
      case List(_) => KernelItems(patterns, prefix, a, b);
      case _ => AgreeParent(patterns, prefix, a, b);
    }
  }

  lemma {:induction false} KernelFields(patterns: seq<string>, prefix: string, a: Json, b: Json)
    requires !Masked(patterns, prefix) && a.Obj? && b.Obj? && a.fields.Keys == b.fields.Keys
    requires FaceOf(Some(a)) == FaceOf(Some(b))
    ensures Redact(patterns, a, prefix) == Redact(patterns, b, prefix) <==> Agree(patterns, prefix, a, b)
    decreases a, 0
  {
    var ra, rb := Redact(patterns, a, prefix), Redact(patterns, b, prefix);
    forall k | k in a.fields
      ensures ra.fields[k] == rb.fields[k]
              <==> Agree(patterns, Extend(prefix, Key(k)), a.fields[k], b.fields[k])
      ensures At(a, [Key(k)]) == Some(a.fields[k]) && At(b, [Key(k)]) == Some(b.fields[k])
    {
      assert [Key(k)][1..] == [];
      RedactionKernel(patterns, Extend(prefix, Key(k)), a.fields[k], b.fields[k]);
    }
    if ra == rb { AgreeParent(patterns, prefix, a, b); }
    if Agree(patterns, prefix, a, b) {
      forall k | k in a.fields { AgreeChild(patterns, prefix, a, b, Key(k)); }
      assert ra.fields == rb.fields;
    }
  }

  lemma {:induction false} KernelItems(patterns: seq<string>, prefix: string, a: Json, b: Json)
    requires !Masked(patterns, prefix) && a.List? && b.List? && |a.items| == |b.items|
    requires FaceOf(Some(a)) == FaceOf(Some(b))
    ensures Redact(patterns, a, prefix) == Redact(patterns, b, prefix) <==> Agree(patterns, prefix, a, b)
    decreases a, 0
  {
    var ra, rb := Redact(patterns, a, prefix), Redact(patterns, b, prefix);
    forall i | 0 <= i < |a.items|
      ensures ra.items[i] == rb.items[i]
              <==> Agree(patterns, Extend(prefix, Index(i)), a.items[i], b.items[i])
      ensures At(a, [Index(i)]) == Some(a.items[i]) && At(b, [Index(i)]) == Some(b.items[i])
    {
      assert [Index(i)][1..] == [];
      RedactionKernel(patterns, Extend(prefix, Index(i)), a.items[i], b.items[i]);
    }
    if ra == rb { AgreeParent(patterns, prefix, a, b); }
    if Agree(patterns, prefix, a, b) {
      forall i: nat | i < |a.items| { AgreeChild(patterns, prefix, a, b, Index(i)); }
      assert ra.items == rb.items;
    }
  }

  /** The stored `arguments` of an event reveal nothing but the parts no pattern hides. */
  lemma StoredArgumentsDependOn(patterns: seq<string>, a: Arguments, b: Arguments)
    ensures RedactArguments(a, patterns) == RedactArguments(b, patterns)
            <==> Agree(patterns, "", Obj(a), Obj(b))
  {
    RedactArgumentsIsRedact(a, patterns);
    RedactArgumentsIsRedact(b, patterns);
    RedactionKernel(patterns, "", Obj(a), Obj(b));
  }

  // ---- redaction composes ---------------------------------------------------------

  lemma MaskedByEither(ps: seq<string>, qs: seq<string>, prefix: string)
    ensures Masked(ps + qs, prefix) <==> Masked(ps, prefix) || Masked(qs, prefix)
  {
  }

  lemma {:induction false} RedactTwice(ps: seq<string>, qs: seq<string>, v: Json, prefix: string)
    ensures Redact(qs, Redact(ps, v, prefix), prefix) == Redact(ps + qs, v, prefix)
    decreases v, 1
  {
    MaskedByEither(ps, qs, prefix);
    if !Masked(ps, prefix) && !Masked(qs, prefix) {
      match v
      case Obj(_) => FieldsTwice(ps, qs, v, prefix);
      case List(_) => ItemsTwice(ps, qs, v, prefix);
      case _ =>
    }
  }

  lemma {:induction false} FieldsTwice(ps: seq<string>, qs: seq<string>, v: Json, prefix: string)
    requires v.Obj? && !Masked(ps, prefix) && !Masked(qs, prefix) && !Masked(ps + qs, prefix)
    ensures Redact(qs, Redact(ps, v, prefix), prefix) == Redact(ps + qs, v, prefix)
    decreases v, 0
  {
    var twice, once := Redact(qs, Redact(ps, v, prefix), prefix), Redact(ps + qs, v, prefix);
    forall k | k in v.fields ensures twice.fields[k] == once.fields[k] {
      RedactTwice(ps, qs, v.fields[k], Extend(prefix, Key(k)));
    }
    assert twice.fields == once.fields;
  }

  lemma {:induction false} ItemsTwice(ps: seq<string>, qs: seq<string>, v: Json, prefix: string)
    requires v.List? && !Masked(ps, prefix) && !Masked(qs, prefix) && !Masked(ps + qs, prefix)
    ensures Redact(qs, Redact(ps, v, prefix), prefix) == Redact(ps + qs, v, prefix)
    decreases v, 0
  {
    var twice, once := Redact(qs, Redact(ps, v, prefix), prefix), Redact(ps + qs, v, prefix);
    forall i | 0 <= i < |v.items| ensures twice.items[i] == once.items[i] {
      RedactTwice(ps, qs, v.items[i], Extend(prefix, Index(i)));
    }
    assert twice.items == once.items;
  }

  lemma {:induction false} OnlyTheSetMatters(ps: seq<string>, qs: seq<string>, v: Json, prefix: string)
    requires forall p :: p in ps <==> p in qs
    ensures Redact(ps, v, prefix) == Redact(qs, v, prefix)
    decreases v
  {
    assert Masked(ps, prefix) <==> Masked(qs, prefix);
    match v
    case Obj(fields) =>
      forall k | k in fields { OnlyTheSetMatters(ps, qs, fields[k], Extend(prefix, Key(k))); }
    case List(items) =>
      forall i | 0 <= i < |items| { OnlyTheSetMatters(ps, qs, items[i], Extend(prefix, Index(i))); }
    case _ =>
  }

  /** Redacting twice is redacting once with all the patterns; so it is idempotent and order is irrelevant. */
  lemma RedactionComposes(arguments: Arguments, ps: seq<string>, qs: seq<string>)
    ensures RedactArguments(RedactArguments(arguments, ps), qs) == RedactArguments(arguments, ps + qs)
    ensures RedactArguments(arguments, ps + qs) == RedactArguments(arguments, qs + ps)
    ensures RedactArguments(RedactArguments(arguments, ps), ps) == RedactArguments(arguments, ps)
  {
    var v := Obj(arguments);
    RedactArgumentsIsRedact(arguments, ps);
    RedactArgumentsIsRedact(RedactArguments(arguments, ps), qs);
    RedactArgumentsIsRedact(RedactArguments(arguments, ps), ps);
    RedactArgumentsIsRedact(arguments, ps + qs);
    RedactArgumentsIsRedact(arguments, qs + ps);
    RedactTwice(ps, qs, v, "");
    RedactTwice(ps, ps, v, "");
    OnlyTheSetMatters(ps + qs, qs + ps, v, "");
    OnlyTheSetMatters(ps + ps, ps, v, "");
  }

  // ---- what rules read is what redaction masks -----------------------------------------

  /** A dotted path a rule can read: non-empty segments without wildcards or slashes. */
  predicate LiteralPath(path: string) {
    && GlobLaws.Literal(path) && '/' !in path
    && forall segment <- Split(path, '.') :: segment != ""
  }

  /** The internal path reached by a chain of keys. */
  function KeyPath(prefix: string, segments: seq<string>): string
    decreases |segments|
  {
    if segments == [] then prefix else KeyPath(Extend(prefix, Key(segments[0])), segments[1..])
  }

  lemma {:induction false} KeyPathGrows(prefix: string, segments: seq<string>)
    requires prefix != ""
    ensures |KeyPath(prefix, segments)| >= |prefix|
    ensures segments != [] ==> |KeyPath(prefix, segments)| > |prefix|
    decreases |segments|
  {
    if segments != [] { KeyPathGrows(Extend(prefix, Key(segments[0])), segments[1..]); }
  }

  lemma {:induction false} KeyPathJoins(prefix: string, segments: seq<string>)
    requires prefix != "" && segments != []
    ensures KeyPath(prefix, segments) == prefix + "/" + JoinWith(segments, '/')
    decreases |segments|
  {
    var next := prefix + "/" + segments[0];
    if |segments| > 1 {
      KeyPathJoins(next, segments[1..]);
    } else {
      assert segments[1..] == [];
    }
  }

  lemma {:induction false} TranslateJoins(segments: seq<string>)
    requires segments != [] && forall segment <- segments :: '.' !in segment
    ensures Translate(JoinWith(segments, '.')) == JoinWith(segments, '/')
  {
    DotFree(segments[0]);
    if |segments| > 1 {
      var rest := JoinWith(segments[1..], '.');
      TranslateJoins(segments[1..]);
      TranslateConcat(segments[0] + ['.'], rest);
      TranslateConcat(segments[0], ['.']);
      assert Translate(['.']) == ['/'];
    }
  }

  lemma DotFree(segment: string)
    requires '.' !in segment
    ensures Translate(segment) == segment
  {
  }

  lemma TranslateConcat(a: string, b: string)
    ensures Translate(a + b) == Translate(a) + Translate(b)
  {
  }

  /** A literal dotted path, as a pattern, is the internal path its keys lead to. */
  lemma PatternIsKeyPath(path: string)
    requires LiteralPath(path)
    ensures KeyPath("", Split(path, '.')) == Translate(path) && Translate(path) != ""
  {
    var segments := Split(path, '.');
    SplitJoin(path, '.');
    TranslateJoins(segments);
    assert segments[0] in segments;
    if |segments| > 1 { KeyPathJoins(segments[0], segments[1..]); } else { assert segments[1..] == []; }
  }

  /** Nothing but the mask can be read at a chain whose path is masked. */
  lemma {:induction false} ReadsOnlyTheMask(patterns: seq<string>, v: Json, prefix: string, segments: seq<string>)
    requires Masked(patterns, KeyPath(prefix, segments))
    ensures Lookup(Redact(patterns, v, prefix), segments) in {Null, REDACTED}
    decreases |segments|
  {
    if segments != [] && !Masked(patterns, prefix) && v.Obj? && segments[0] in v.fields {
      ReadsOnlyTheMask(patterns, v.fields[segments[0]], Extend(prefix, Key(segments[0])), segments[1..]);
    }
  }

  lemma {:induction false} ReadsTheMask(pattern: string, v: Json, prefix: string, segments: seq<string>)
    requires GlobLaws.Literal(Translate(pattern)) && Translate(pattern) != ""
    requires KeyPath(prefix, segments) == Translate(pattern)
    requires prefix == "" ==> segments != [] && forall segment <- segments :: segment != ""
    requires Present(v, segments)
    ensures Lookup(Redact([pattern], v, prefix), segments) == REDACTED
    decreases |segments|
  {
    GlobLaws.LiteralMatches(Translate(pattern), true, prefix);
    if segments == [] {
      assert pattern in [pattern] && MatchPath(Translate(pattern), prefix);
    } else {
      var next := Extend(prefix, Key(segments[0]));
      if prefix != "" { KeyPathGrows(prefix, segments); }
      assert !Masked([pattern], prefix);
      assert segments[0] in segments;
      ReadsTheMask(pattern, v.fields[segments[0]], next, segments[1..]);
    }
  }

  /**
   * If a rule can read a value at a literal path, it reads the mask there once that path is redacted; and
   * whatever else is redacted too, it can never again read anything but the mask.
   */
  lemma RulesReadWhatRedactionMasks(arguments: Arguments, path: string, patterns: seq<string>)
    requires LiteralPath(path)
    ensures Lookup(Obj(arguments), Split(path, '.')) != Null ==>
              Lookup(Obj(RedactArguments(arguments, [path])), Split(path, '.')) == REDACTED
    ensures path in patterns ==>
              Lookup(Obj(RedactArguments(arguments, patterns)), Split(path, '.')) in {Null, REDACTED}
  {
    var segments := Split(path, '.');
    PatternIsKeyPath(path);
    assert GlobLaws.Literal(Translate(path));
    LookupAbsent(Obj(arguments), segments);
    RedactArgumentsIsRedact(arguments, [path]);
    if Present(Obj(arguments), segments) { ReadsTheMask(path, Obj(arguments), "", segments); }
    if path in patterns {
      GlobLaws.LiteralMatches(Translate(path), true, Translate(path));
      RedactArgumentsIsRedact(arguments, patterns);
      ReadsOnlyTheMask(patterns, Obj(arguments), "", segments);
    }
  }
}
