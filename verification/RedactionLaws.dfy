/** What redaction patterns mean, in terms of the places in a tree they are written for. */
module RedactionLaws {
  import opened Wrappers
  import opened Glob
  import opened GlobLaws
  import opened Json
  import opened Redaction

  // ---- what is found at an address of the redacted tree ------------------------------

  /** The node one step down. */
  function Child(v: Json, step: Step): Option<Json> {
    match (v, step)
    case (Obj(fields), Key(k)) => if k in fields then Some(fields[k]) else None
    case (List(items), Index(i)) => if i < |items| then Some(items[i]) else None
    case _ => None
  }

  lemma AtChild(patterns: seq<string>, v: Json, prefix: string, address: seq<Step>)
    requires address != []
    ensures At(v, address) == match Child(v, address[0]) case Some(child) => At(child, address[1..]) case None => None
    ensures At(Redact(patterns, v, prefix), address) ==
              if Masked(patterns, prefix) then None
              else match Child(v, address[0])
                case Some(child) => At(Redact(patterns, child, Extend(prefix, address[0])), address[1..])
                case None => None
  {
  }

  /** Above and beside what is masked a tree looks as before. */
  lemma {:induction false} VisibleStays(patterns: seq<string>, v: Json, prefix: string, address: seq<Step>)
    requires !Hidden(patterns, prefix, address)
    ensures FaceOf(At(Redact(patterns, v, prefix), address)) == FaceOf(At(v, address))
    decreases |address|
  {
    assert address[..0] == [] && !Masked(patterns, PathTo(prefix, address[..0]));
    if address != [] {
      AtChild(patterns, v, prefix, address);
      assert address == [address[0]] + address[1..];
      HiddenChild(patterns, prefix, address[0], address[1..]);
      var child := Child(v, address[0]);
      if child.Some? { VisibleStays(patterns, child.value, Extend(prefix, address[0]), address[1..]); }
    }
  }

  /** The first place on the way that a pattern matches holds the mask, if there was anything. */
  lemma {:induction false} MaskedIsMask(patterns: seq<string>, v: Json, prefix: string, address: seq<Step>)
    requires Masked(patterns, PathTo(prefix, address)) && At(v, address).Some?
    requires forall n | 0 <= n < |address| :: !Masked(patterns, PathTo(prefix, address[..n]))
    ensures At(Redact(patterns, v, prefix), address) == Some(REDACTED)
    decreases |address|
  {
    if address != [] {
      var next, rest := Extend(prefix, address[0]), address[1..];
      AtChild(patterns, v, prefix, address);
      assert address[..0] == [] && !Masked(patterns, PathTo(prefix, address[..0]));
      forall n | 0 <= n < |rest| ensures !Masked(patterns, PathTo(next, rest[..n])) {
        assert address[..n + 1][1..] == rest[..n];
        assert !Masked(patterns, PathTo(prefix, address[..n + 1]));
      }
      MaskedIsMask(patterns, Child(v, address[0]).value, next, rest);
    }
  }

  /** Beneath it there is nothing. */
  lemma {:induction false} BeneathIsNothing(patterns: seq<string>, v: Json, prefix: string, address: seq<Step>, n: nat)
    requires n < |address| && Masked(patterns, PathTo(prefix, address[..n]))
    ensures At(Redact(patterns, v, prefix), address).None?
    decreases |address|
  {
    AtChild(patterns, v, prefix, address);
    assert address[..0] == [];
    var child := Child(v, address[0]);
    if !Masked(patterns, prefix) && child.Some? {
      assert address[..n][1..] == address[1..][..n - 1] && address[..n][0] == address[0];
      BeneathIsNothing(patterns, child.value, Extend(prefix, address[0]), address[1..], n - 1);
    }
  }

  /** Redaction puts nothing where nothing was. */
  lemma {:induction false} AbsentStays(patterns: seq<string>, v: Json, prefix: string, address: seq<Step>)
    ensures At(v, address).None? ==> At(Redact(patterns, v, prefix), address).None?
    decreases |address|
  {
    if address != [] {
      AtChild(patterns, v, prefix, address);
      var child := Child(v, address[0]);
      if child.Some? { AbsentStays(patterns, child.value, Extend(prefix, address[0]), address[1..]); }
    }
  }

  /** So a place newly holds the mask only if it held something, and a pattern matches that very place. */
  lemma MaskArises(patterns: seq<string>, v: Json, address: seq<Step>)
    ensures At(Redact(patterns, v, ""), address) == Some(REDACTED) && At(v, address) != Some(REDACTED) ==>
              At(v, address).Some? && Masked(patterns, PathTo("", address))
  {
    if !Hidden(patterns, "", address) {
      VisibleStays(patterns, v, "", address);
    } else {
      var n :| 0 <= n <= |address| && Masked(patterns, PathTo("", address[..n]));
      if n < |address| { BeneathIsNothing(patterns, v, "", address, n); } else { assert address[..n] == address; }
      AbsentStays(patterns, v, "", address);
    }
  }

  // ---- addresses as dotted names ---------------------------------------------------------

  /** How a step is written: a key as it is, a list position in decimal. */
  function StepText(step: Step): string {
    match step
    case Key(name) => name
    case Index(i) => Decimal(i)
  }

  function Texts(address: seq<Step>): seq<string> {
    if address == [] then [] else [StepText(address[0])] + Texts(address[1..])
  }

  /** A place in a tool's arguments whose keys are not empty and hold no slash. */
  predicate Tidy(address: seq<Step>) {
    && address != [] && address[0].Key?
    && forall step <- address :: step.Key? ==> step.name != "" && '/' !in step.name
  }

  /** Reading a number back from its digits. */
  function ReadDecimal(s: string): int {
    if s == "" then 0 else ReadDecimal(s[..|s| - 1]) * 10 + (s[|s| - 1] as int - '0' as int)
  }

  /** A list position is written in decimal: digits only, no leading zero, and its value is the position. */
  lemma {:induction false} DecimalReads(n: nat)
    ensures ReadDecimal(Decimal(n)) == n && Decimal(n) != ""
    ensures forall c <- Decimal(n) :: '0' <= c <= '9'
    ensures |Decimal(n)| > 1 ==> Decimal(n)[0] != '0'
    decreases n
  {
    var s := Decimal(n);
    if n < 10 {
      assert s[..|s| - 1] == "";
    } else {
      DecimalReads(n / 10);
      DecimalReads(n % 10);
      assert s[..|s| - 1] == Decimal(n / 10) && s[|s| - 1] == Decimal(n % 10)[0];
      assert Decimal(n % 10)[..0] == "" && ReadDecimal(Decimal(n % 10)) == n % 10;
      assert n / 10 < 10 ==> Decimal(n / 10)[0] != '0';
    }
  }

  lemma {:induction false} TextsAt(address: seq<Step>)
    ensures |Texts(address)| == |address|
    ensures forall i | 0 <= i < |address| :: Texts(address)[i] == StepText(address[i])
  {
    if address != [] { TextsAt(address[1..]); }
  }

  lemma StepTextIsTidy(step: Step)
    requires step.Key? ==> step.name != "" && '/' !in step.name
    ensures StepText(step) != "" && '/' !in StepText(step)
  {
    if step.Index? { DecimalReads(step.i); }
  }

  lemma TextsAreTidy(address: seq<Step>)
    requires Tidy(address)
    ensures Texts(address) != [] && forall text <- Texts(address) :: text != "" && '/' !in text
  {
    TextsAt(address);
    forall text <- Texts(address) ensures text != "" && '/' !in text {
      var i :| 0 <= i < |address| && Texts(address)[i] == text;
      assert address[i] in address;
      StepTextIsTidy(address[i]);
    }
  }

  /** The internal path of a tidy place joins its steps with slashes. */
  lemma PathIsJoined(address: seq<Step>)
    requires Tidy(address)
    ensures PathTo("", address) == JoinWith(Texts(address), '/')
  {
    var first := StepText(address[0]);
    assert address[0] in address;
    PathBelow(first, address[1..]);
    TextsAt(address);
    assert Texts(address)[1..] == Texts(address[1..]);
  }

  lemma {:induction false} PathBelow(prefix: string, address: seq<Step>)
    requires prefix != ""
    ensures PathTo(prefix, address) == JoinWith([prefix] + Texts(address), '/')
    decreases |address|
  {
    if address != [] {
      var text := StepText(address[0]);
      var next := prefix + "/" + text;
      PathBelow(next, address[1..]);
      var rest := Texts(address[1..]);
      assert ([next] + rest)[1..] == rest && ([prefix] + Texts(address))[1..] == [text] + rest;
      assert ([text] + rest)[1..] == rest;
      if rest == [] {
        assert [next] + rest == [next] && [text] + rest == [text];
      } else {
        assert next + ['/'] + JoinWith(rest, '/') == prefix + ['/'] + (text + ['/'] + JoinWith(rest, '/'));
      }
    }
  }

  /** A place has one step more than its path has slashes. */
  lemma {:induction false} SlashesJoined(texts: seq<string>)
    requires texts != [] && forall text <- texts :: '/' !in text
    ensures Slashes(JoinWith(texts, '/')) == |texts| - 1
    decreases |texts|
  {
    NoSlashes(texts[0]);
    if |texts| > 1 {
      var rest := JoinWith(texts[1..], '/');
      var whole := texts[0] + ['/'] + rest;
      SlashesJoined(texts[1..]);
      SlashesSplit(whole, |texts[0]|);
      assert whole[..|texts[0]|] == texts[0] && whole[|texts[0]|..] == ['/'] + rest;
      SlashesFirst(['/'] + rest);
      assert (['/'] + rest)[1..] == rest;
    }
  }

  // ---- levels ------------------------------------------------------------------------------

  /** As many as its dots, and one. */
  function Levels(pattern: string): nat { |Split(pattern, '.')| }

  lemma {:induction false} LevelsAreSlashes(pattern: string)
    requires '/' !in pattern
    ensures Slashes(Translate(pattern)) == Levels(pattern) - 1
    decreases |pattern|
  {
    if pattern != "" {
      LevelsAreSlashes(pattern[1..]);
      SlashesFirst(Translate(pattern));
      assert Translate(pattern)[1..] == Translate(pattern[1..]);
    }
  }

  lemma StarsTranslate(pattern: string)
    ensures AdjacentStars(Translate(pattern)) <==> AdjacentStars(pattern)
  {
    var t := Translate(pattern);
    if AdjacentStars(t) {
      var i :| 0 <= i < |t| - 1 && t[i] == '*' && t[i + 1] == '*';
      assert pattern[i] == '*' && pattern[i + 1] == '*';
    }
    if AdjacentStars(pattern) {
      var i :| 0 <= i < |pattern| - 1 && pattern[i] == '*' && pattern[i + 1] == '*';
      assert t[i] == '*' && t[i + 1] == '*';
    }
  }

  /** What a pattern matches directly has the pattern's levels, unless two of its stars are adjacent. */
  lemma MatchedLevels(pattern: string, address: seq<Step>)
    requires '/' !in pattern && !AdjacentStars(pattern) && Tidy(address)
    requires MatchPath(Translate(pattern), PathTo("", address))
    ensures |address| == Levels(pattern)
  {
    var path := PathTo("", address);
    StarsTranslate(pattern);
    SegmentConservation(Translate(pattern));
    LevelsAreSlashes(pattern);
    PathIsJoined(address);
    TextsAreTidy(address);
    TextsAt(address);
    SlashesJoined(Texts(address));
  }

  /** A pattern without adjacent stars puts the mask only at places of exactly its own number of levels. */
  lemma MasksOnItsLevel(pattern: string, arguments: Arguments, address: seq<Step>)
    requires '/' !in pattern && !AdjacentStars(pattern) && Tidy(address)
    ensures var redacted := Obj(RedactArguments(arguments, [pattern]));
            At(redacted, address) == Some(REDACTED) && At(Obj(arguments), address) != Some(REDACTED) ==>
              |address| == Levels(pattern)
    ensures |address| < Levels(pattern) ==>
              FaceOf(At(Obj(RedactArguments(arguments, [pattern])), address)) == FaceOf(At(Obj(arguments), address))
  {
    RedactArgumentsIsRedact(arguments, [pattern]);
    MaskArises([pattern], Obj(arguments), address);
    if Masked([pattern], PathTo("", address)) { MatchedLevels(pattern, address); }
    if |address| < Levels(pattern) {
      forall n | 0 <= n <= |address| ensures !Masked([pattern], PathTo("", address[..n])) {
        if n > 0 && Masked([pattern], PathTo("", address[..n])) {
          TidyPrefix(address, n);
          MatchedLevels(pattern, address[..n]);
        }
      }
      VisibleStays([pattern], Obj(arguments), "", address);
    }
  }

  lemma TidyPrefix(address: seq<Step>, n: nat)
    requires Tidy(address) && 0 < n <= |address|
    ensures Tidy(address[..n])
  {
  }

  // ---- literal patterns ----------------------------------------------------------------------

  /** The dotted name leads to this place, step by step. */
  predicate Names(name: string, address: seq<Step>) { Texts(address) == Split(name, '.') }

  /** The same, but for a final newline. */
  predicate NamesNearly(name: string, address: seq<Step>) { Names(name, address) || Names(name + "\n", address) }

  lemma SameJoined(a: seq<string>, b: seq<string>)
    requires a != [] && b != [] && (forall x <- a :: '/' !in x) && (forall x <- b :: '/' !in x)
    ensures JoinWith(a, '/') == JoinWith(b, '/') <==> a == b
  {
    JoinSplit(a, '/');
    JoinSplit(b, '/');
  }

  lemma {:induction false} SegmentsFree(name: string, c: char)
    requires c !in name
    ensures forall segment <- Split(name, '.') :: c !in segment
    decreases |name|
  {
    if name != "" { SegmentsFree(name[1..], c); }
  }

  lemma TranslatedIsJoined(name: string)
    requires '/' !in name
    ensures Translate(name) == JoinWith(Split(name, '.'), '/')
    ensures forall segment <- Split(name, '.') :: '/' !in segment
  {
    SegmentsFree(name, '/');
    SplitJoin(name, '.');
    TranslateJoins(Split(name, '.'));
  }

  lemma NamedPath(name: string, address: seq<Step>)
    requires '/' !in name && Tidy(address)
    ensures PathTo("", address) == Translate(name) <==> Names(name, address)
  {
    TranslatedIsJoined(name);
    PathIsJoined(address);
    TextsAreTidy(address);
    SameJoined(Texts(address), Split(name, '.'));
  }

  lemma LiteralFinds(path: string, address: seq<Step>)
    requires LiteralPath(path) && Tidy(address)
    ensures MatchPath(Translate(path), PathTo("", address)) <==> NamesNearly(path, address)
  {
    LiteralMatches(Translate(path), true, PathTo("", address));
    NamedPath(path, address);
    NamedPath(path + "\n", address);
    TranslateConcat(path, "\n");
    assert Translate("\n") == "\n";
  }

  lemma LiteralHasNoStars(path: string)
    requires LiteralPath(path)
    ensures !AdjacentStars(path) && '/' !in path
  {
  }

  /**
   * A literal dotted path puts the mask at the very place it names, list positions in decimal included, and
   * nowhere else; a final newline in the last step apart.
   */
  lemma LiteralMasksItsPlace(path: string, arguments: Arguments, address: seq<Step>)
    requires LiteralPath(path) && Tidy(address)
    requires At(Obj(arguments), address).Some? && At(Obj(arguments), address) != Some(REDACTED)
    ensures At(Obj(RedactArguments(arguments, [path])), address) == Some(REDACTED) <==> NamesNearly(path, address)
  {
    RedactArgumentsIsRedact(arguments, [path]);
    LiteralHasNoStars(path);
    LiteralFinds(path, address);
    MaskArises([path], Obj(arguments), address);
    if NamesNearly(path, address) {
      assert path in [path] && Masked([path], PathTo("", address)) by { PathNotEmpty(address); }
      NothingAboveOnLevel(path, address);
      MaskedIsMask([path], Obj(arguments), "", address);
    }
  }

  lemma PathNotEmpty(address: seq<Step>)
    requires Tidy(address)
    ensures PathTo("", address) != ""
  {
    PathIsJoined(address);
    TextsAreTidy(address);
    assert Texts(address)[0] in Texts(address);
  }

  /** Where a pattern matches, it matches nothing above, since that has fewer levels. */
  lemma NothingAboveOnLevel(pattern: string, address: seq<Step>)
    requires '/' !in pattern && !AdjacentStars(pattern) && Tidy(address)
    requires MatchPath(Translate(pattern), PathTo("", address))
    ensures forall n | 0 <= n < |address| :: !Masked([pattern], PathTo("", address[..n]))
  {
    MatchedLevels(pattern, address);
    forall n | 0 <= n < |address| ensures !Masked([pattern], PathTo("", address[..n])) {
      if n > 0 && Masked([pattern], PathTo("", address[..n])) {
        TidyPrefix(address, n);
        MatchedLevels(pattern, address[..n]);
      }
    }
  }

  // ---- one level down, whatever the parent -------------------------------------------------------

  /** One step's name: no dot, no slash, no wildcard. */
  predicate PlainKey(key: string) { key != "" && '.' !in key && '/' !in key && Literal(key) }

  lemma OnlySlash(parent: string, child: string, j: nat)
    requires '/' !in parent && j < |parent + "/" + child|
    requires '/' !in (parent + "/" + child)[..j] && (parent + "/" + child)[j] == '/'
    ensures j == |parent|
  {
    var path := parent + "/" + child;
    assert forall i | 0 <= i < j :: path[i] == path[..j][i] && path[i] != '/';
    assert forall i | 0 <= i < |parent| :: path[i] == parent[i] && path[i] != '/';
    assert path[|parent|] == '/';
  }

  lemma StarKeyFinds(key: string, parent: string, child: string)
    requires PlainKey(key) && '/' !in parent && '/' !in child
    ensures GlobMatches("*/" + key, true, parent + "/" + child) <==> child == key
  {
    var pattern, path := "*/" + key, parent + "/" + child;
    assert pattern[1..] == "/" + key && StarRun(pattern) == 1;
    assert path[..|parent|] == parent && path[|parent|..] == "/" + child;
    LiteralLanguage("/" + key, true, "/" + child);
    if child == key { assert GlobMatches(pattern[1..], true, path[|parent|..]); }
    if GlobMatches(pattern, true, path) {
      var j :| 0 <= j <= |path| && '/' !in path[..j] && GlobMatches(pattern[1..], true, path[j..]);
      LiteralLanguage("/" + key, true, path[j..]);
      assert path[j..][0] == '/';
      OnlySlash(parent, child, j);
      assert ("/" + key)[1..] == key && ("/" + child)[1..] == child;
    }
  }

  lemma StarKeyMatches(key: string, parent: string, child: string)
    requires PlainKey(key) && '/' !in parent && '/' !in child
    ensures MatchPath("*/" + key, parent + "/" + child) <==> child == key || child == key + "\n"
  {
    var path := parent + "/" + child;
    StarKeyFinds(key, parent, child);
    if child != "" {
      var less := child[..|child| - 1];
      assert path[..|path| - 1] == parent + "/" + less && path[|path| - 1] == child[|child| - 1];
      StarKeyFinds(key, parent, less);
      assert child == less + [child[|child| - 1]];
    } else {
      assert path[|path| - 1] == '/';
    }
  }

  lemma StarKeyShape(key: string)
    requires PlainKey(key)
    ensures Translate("*." + key) == "*/" + key && Levels("*." + key) == 2
    ensures !AdjacentStars("*." + key) && '/' !in "*." + key
  {
    DotFree(key);
    TranslateConcat("*.", key);
    assert Translate("*.") == "*/" by { TranslateConcat("*", "."); DotFree("*"); assert "*" + "." == "*."; }
    SplitFirst("*", "." + key, '.');
    SplitFirst(key, "", '.');
    assert key + "" == key && ("." + key)[1..] == key && "*" + ("." + key) == "*." + key;
  }

  /** A star and a key mask that key one level down, whatever the parent: at no other step, and nowhere deeper. */
  lemma StarKeyMasksOneLevelDown(key: string, arguments: Arguments, address: seq<Step>)
    requires PlainKey(key) && Tidy(address)
    requires At(Obj(arguments), address).Some? && At(Obj(arguments), address) != Some(REDACTED)
    ensures At(Obj(RedactArguments(arguments, ["*." + key])), address) == Some(REDACTED)
            <==> |address| == 2 && StepText(address[1]) in {key, key + "\n"}
  {
    var pattern := "*." + key;
    StarKeyShape(key);
    RedactArgumentsIsRedact(arguments, [pattern]);
    MasksOnItsLevel(pattern, arguments, address);
    if |address| == 2 {
      TwoSteps(address);
      StarKeyMatches(key, StepText(address[0]), StepText(address[1]));
      MaskArises([pattern], Obj(arguments), address);
      if MatchPath(Translate(pattern), PathTo("", address)) {
        assert pattern in [pattern] && Masked([pattern], PathTo("", address)) by { PathNotEmpty(address); }
        NothingAboveOnLevel(pattern, address);
        MaskedIsMask([pattern], Obj(arguments), "", address);
      }
    }
  }

  lemma TwoSteps(address: seq<Step>)
    requires Tidy(address) && |address| == 2
    ensures PathTo("", address) == StepText(address[0]) + "/" + StepText(address[1])
    ensures '/' !in StepText(address[0]) && '/' !in StepText(address[1])
  {
    PathIsJoined(address);
    assert address[0] in address && address[1] in address;
    StepTextIsTidy(address[0]);
    StepTextIsTidy(address[1]);
    TextsAt(address);
    assert Texts(address) == [StepText(address[0]), StepText(address[1])];
  }

  // ---- a place and everything beneath it ------------------------------------------------------------

  lemma {:induction false} SplitConcat(a: string, b: string, sep: char)
    ensures Split(a + [sep] + b, sep) == Split(a, sep) + Split(b, sep)
    decreases |a|
  {
    if a == "" {
      assert (a + [sep] + b)[1..] == b;
    } else {
      assert (a + [sep] + b)[1..] == a[1..] + [sep] + b;
      SplitConcat(a[1..], b, sep);
    }
  }

  /** The place is the named one, or beneath it. */
  predicate Under(name: string, address: seq<Step>) {
    Levels(name) <= |address| && Names(name, address[..Levels(name)])
  }

  lemma {:induction false} TextsPrefix(address: seq<Step>, n: nat)
    requires n <= |address|
    ensures |Texts(address)| == |address| && Texts(address[..n]) == Texts(address)[..n]
  {
    TextsAt(address);
    TextsAt(address[..n]);
  }

  lemma BelowIsUnder(path: string, address: seq<Step>)
    requires LiteralPath(path) && Tidy(address) && Below(Translate(path), PathTo("", address))
    ensures Levels(path) < |address| && Under(path, address)
  {
    var q, segments := Translate(path), Split(path, '.');
    var rest := BelowLiteral(q, PathTo("", address));
    SplitConcat(q, rest, '/');
    LiteralSplits(path);
    PathSplits(address);
    TextsPrefix(address, |segments|);
    assert Texts(address)[..|segments|] == segments;
  }

  lemma BelowLiteral(q: string, s: string) returns (rest: string)
    requires Literal(q) && Below(q, s)
    ensures s == q + ['/'] + rest
  {
    var k :| 0 <= k < |s| && s[k] == '/' && GlobMatches(q, true, s[..k]);
    LiteralLanguage(q, true, s[..k]);
    rest := s[k + 1..];
  }

  lemma LiteralSplits(path: string)
    requires '/' !in path
    ensures Split(Translate(path), '/') == Split(path, '.')
  {
    TranslatedIsJoined(path);
    JoinSplit(Split(path, '.'), '/');
  }

  lemma PathSplits(address: seq<Step>)
    requires Tidy(address)
    ensures Split(PathTo("", address), '/') == Texts(address) && |Texts(address)| == |address|
  {
    PathIsJoined(address);
    TextsAreTidy(address);
    TextsAt(address);
    JoinSplit(Texts(address), '/');
  }

  lemma UnderIsBelow(path: string, address: seq<Step>)
    requires LiteralPath(path) && Tidy(address) && Levels(path) < |address| && Under(path, address)
    ensures Below(Translate(path), PathTo("", address))
  {
    var q, s, n := Translate(path), PathTo("", address), Levels(path);
    TranslatedIsJoined(path);
    PathIsJoined(address);
    TextsPrefix(address, n);
    JoinedInTwo(Texts(address), n);
    LiteralLanguage(q, true, s[..|q|]);
    assert s[..|q|] == q && s[|q|] == '/';
  }

  /** Strictly beneath a literal path are the places whose names begin with its own. */
  lemma LiteralBelow(path: string, address: seq<Step>)
    requires LiteralPath(path) && Tidy(address)
    ensures Below(Translate(path), PathTo("", address)) <==> Levels(path) < |address| && Under(path, address)
  {
    if Below(Translate(path), PathTo("", address)) { BelowIsUnder(path, address); }
    if Levels(path) < |address| && Under(path, address) { UnderIsBelow(path, address); }
  }

  lemma {:induction false} JoinedInTwo(texts: seq<string>, n: nat)
    requires 0 < n < |texts|
    ensures JoinWith(texts, '/') == JoinWith(texts[..n], '/') + ['/'] + JoinWith(texts[n..], '/')
    decreases n
  {
    if n > 1 {
      JoinedInTwo(texts[1..], n - 1);
      assert texts[1..][..n - 1] == texts[..n][1..] && texts[1..][n - 1..] == texts[n..];
    } else {
      assert texts[..1] == [texts[0]];
    }
  }

  lemma TailFinds(path: string, address: seq<Step>)
    requires LiteralPath(path) && Tidy(address)
    ensures Masked([path + ".**"], PathTo("", address))
            <==> NamesNearly(path, address) || (Levels(path) < |address| && Under(path, address))
  {
    var q := Translate(path);
    TranslateConcat(path, ".**");
    assert Translate(".**") == "/**" by { TranslateTail(); }
    assert !EndsInTail(q) by { assert Literal(q); }
    TrailingLaw(q, PathTo("", address));
    LiteralFinds(path, address);
    LiteralBelow(path, address);
    PathNotEmpty(address);
    assert path + ".**" in [path + ".**"];
  }

  lemma TranslateTail()
    ensures Translate(".**") == "/**"
  {
    TranslateConcat(".", "**");
    DotFree("**");
    assert "." + "**" == ".**";
  }

  /**
   * A literal path followed by a dot and two stars masks the place it names, leaves nothing beneath it, and lets
   * every place that is neither look as before (a final newline in the last step of the name apart).
   */
  lemma TailMasksAllBeneath(path: string, arguments: Arguments, address: seq<Step>)
    requires LiteralPath(path) && Tidy(address)
    ensures var redacted := At(Obj(RedactArguments(arguments, [path + ".**"])), address);
            && (Names(path, address) && At(Obj(arguments), address).Some? ==> redacted == Some(REDACTED))
            && (Levels(path) < |address| && Under(path, address) ==> redacted.None?)
            && (!Under(path, address) && !Under(path + "\n", address) ==>
                  FaceOf(redacted) == FaceOf(At(Obj(arguments), address)))
  {
    var patterns := [path + ".**"];
    RedactArgumentsIsRedact(arguments, patterns);
    NewlineLevels(path);
    forall n | 0 < n <= |address|
      ensures Masked(patterns, PathTo("", address[..n])) ==>
                Under(path, address[..n]) || Under(path + "\n", address[..n])
      ensures n < Levels(path) ==> !Masked(patterns, PathTo("", address[..n]))
    {
      TidyPrefix(address, n);
      TailFinds(path, address[..n]);
      TextsAt(address[..n]);
      assert address[..n][..n] == address[..n];
    }
    assert address[..|address|] == address && !Masked(patterns, PathTo("", address[..0]));
    TextsAt(address);
    if Names(path, address) && At(Obj(arguments), address).Some? {
      TailFinds(path, address);
      MaskedIsMask(patterns, Obj(arguments), "", address);
    }
    if Levels(path) < |address| && Under(path, address) {
      TidyPrefix(address, Levels(path));
      TailFinds(path, address[..Levels(path)]);
      BeneathIsNothing(patterns, Obj(arguments), "", address, Levels(path));
    }
    if !Under(path, address) && !Under(path + "\n", address) {
      forall n | 0 < n <= |address| ensures !Masked(patterns, PathTo("", address[..n])) {
        UnderLonger(path, address, n);
        UnderLonger(path + "\n", address, n);
      }
      VisibleStays(patterns, Obj(arguments), "", address);
    }
  }

  lemma UnderLonger(name: string, address: seq<Step>, n: nat)
    requires n <= |address|
    ensures Under(name, address[..n]) ==> Under(name, address)
  {
    if Under(name, address[..n]) { assert address[..n][..Levels(name)] == address[..Levels(name)]; }
  }

  lemma {:induction false} NewlineLevels(name: string)
    ensures Levels(name + "\n") == Levels(name)
    decreases |name|
  {
    if name != "" {
      assert (name + "\n")[1..] == name[1..] + "\n";
      NewlineLevels(name[1..]);
    } else {
      assert name + "\n" == "\n" && "\n"[1..] == "";
    }
  }

  // ---- one key at every depth but the top ------------------------------------------------------------

  lemma OnlyLastSlash(parent: string, child: string, j: nat, key: string)
    requires '/' !in child && '/' !in key
    requires j <= |parent + "/" + child| && (parent + "/" + child)[j..] == "/" + key
    ensures j == |parent| && child == key
  {
    var path := parent + "/" + child;
    assert path[j] == path[j..][0] == '/' && path[|parent|] == '/';
    assert forall i | |parent| < i < |path| :: path[i] == child[i - |parent| - 1] && path[i] != '/';
    assert forall i | j < i < |path| :: path[i] == path[j..][i - j] == key[i - j - 1] && path[i] != '/';
    assert path[|parent| + 1..] == child && path[j..][1..] == key;
  }

  lemma AnyStarsFind(key: string, s: string)
    requires PlainKey(key)
    ensures GlobMatches("**/" + key, true, s) <==> exists j | 0 <= j <= |s| :: s[j..] == "/" + key
  {
    var pattern := "**/" + key;
    assert pattern[1..] == "*/" + key && pattern[2..] == "/" + key;
    assert StarRun(pattern) == 2 by { assert StarRun(pattern[1..]) == 1; }
    forall j | 0 <= j <= |s| ensures GlobMatches(pattern[2..], true, s[j..]) <==> s[j..] == "/" + key {
      LiteralLanguage("/" + key, true, s[j..]);
    }
    assert pattern[0] == '*' && pattern != "/**";
  }

  lemma AnyStarsFindChild(key: string, parent: string, child: string)
    requires PlainKey(key) && '/' !in child
    ensures GlobMatches("**/" + key, true, parent + "/" + child) <==> child == key
  {
    var s := parent + "/" + child;
    AnyStarsFind(key, s);
    assert s[|parent|..] == "/" + child;
    if j :| 0 <= j <= |s| && s[j..] == "/" + key { OnlyLastSlash(parent, child, j, key); }
  }

  lemma AnyStarsMatchChild(key: string, parent: string, child: string)
    requires PlainKey(key) && '/' !in child
    ensures MatchPath("**/" + key, parent + "/" + child) <==> child == key || child == key + "\n"
  {
    var path := parent + "/" + child;
    AnyStarsFindChild(key, parent, child);
    if child != "" {
      var less := child[..|child| - 1];
      assert path[..|path| - 1] == parent + "/" + less && path[|path| - 1] == child[|child| - 1];
      AnyStarsFindChild(key, parent, less);
      assert child == less + [child[|child| - 1]];
    } else {
      assert path[|path| - 1] == '/';
    }
  }

  /** Below the top, the place is this key. */
  predicate EndsInKey(key: string, address: seq<Step>) {
    |address| >= 2 && StepText(address[|address| - 1]) in {key, key + "\n"}
  }

  lemma LastStep(address: seq<Step>) returns (parent: string)
    requires Tidy(address) && |address| >= 2
    ensures PathTo("", address) == parent + "/" + StepText(address[|address| - 1])
    ensures '/' !in StepText(address[|address| - 1])
  {
    var texts, n := Texts(address), |address| - 1;
    PathIsJoined(address);
    TextsAt(address);
    JoinedInTwo(texts, n);
    assert texts[n..] == [texts[n]];
    assert address[n] in address;
    StepTextIsTidy(address[n]);
    parent := JoinWith(texts[..n], '/');
  }

  lemma TopStep(address: seq<Step>)
    requires Tidy(address) && |address| == 1
    ensures '/' !in PathTo("", address)
  {
    assert address[0] in address && PathTo("", address) == StepText(address[0]);
    StepTextIsTidy(address[0]);
  }

  lemma AnyStarsFindPlace(key: string, address: seq<Step>)
    requires PlainKey(key) && Tidy(address)
    ensures Masked(["**." + key], PathTo("", address)) <==> EndsInKey(key, address)
  {
    AnyStarsTranslate(key);
    PathNotEmpty(address);
    assert "**." + key in ["**." + key];
    if |address| == 1 {
      TopStep(address);
      AnyStarsNeedSlash(key, PathTo("", address));
    } else {
      var parent := LastStep(address);
      AnyStarsMatchChild(key, parent, StepText(address[|address| - 1]));
    }
  }

  lemma NoSlashNoKey(key: string, s: string)
    requires PlainKey(key) && '/' !in s
    ensures !GlobMatches("**/" + key, true, s)
  {
    AnyStarsFind(key, s);
    assert ("/" + key)[0] == '/' && '/' in "/" + key;
    forall j | 0 <= j <= |s| ensures s[j..] != "/" + key { assert '/' !in s[j..]; }
  }

  lemma AnyStarsNeedSlash(key: string, s: string)
    requires PlainKey(key) && '/' !in s
    ensures !MatchPath("**/" + key, s)
  {
    NoSlashNoKey(key, s);
    if s != "" { NoSlashNoKey(key, s[..|s| - 1]); }
  }

  lemma AnyStarsTranslate(key: string)
    requires PlainKey(key)
    ensures Translate("**." + key) == "**/" + key
  {
    DotFree(key);
    TranslateConcat("**.", key);
    assert Translate("**.") == "**/";
  }

  /** The place is beneath a nested key of this name. */
  ghost predicate BeneathKey(key: string, address: seq<Step>) {
    exists n | 0 < n < |address| :: EndsInKey(key, address[..n])
  }

  lemma AnyStarsMasked(key: string, address: seq<Step>, n: nat)
    requires PlainKey(key) && Tidy(address) && n <= |address|
    ensures Masked(["**." + key], PathTo("", address[..n])) <==> n > 0 && EndsInKey(key, address[..n])
  {
    if n > 0 {
      TidyPrefix(address, n);
      AnyStarsFindPlace(key, address[..n]);
    }
  }

  /**
   * Two stars and a key mask that key wherever it is nested, leave nothing beneath it, and let everything else
   * look as before: the same key at the top among it.
   */
  lemma AnyStarsMaskBelowTheTop(key: string, arguments: Arguments, address: seq<Step>)
    requires PlainKey(key) && Tidy(address)
    ensures var redacted := At(Obj(RedactArguments(arguments, ["**." + key])), address);
            if BeneathKey(key, address) then redacted.None?
            else if EndsInKey(key, address) && At(Obj(arguments), address).Some? then redacted == Some(REDACTED)
            else FaceOf(redacted) == FaceOf(At(Obj(arguments), address))
  {
    var patterns, v := ["**." + key], Obj(arguments);
    RedactArgumentsIsRedact(arguments, patterns);
    if BeneathKey(key, address) {
      var n :| 0 < n < |address| && EndsInKey(key, address[..n]);
      AnyStarsMasked(key, address, n);
      BeneathIsNothing(patterns, v, "", address, n);
    } else {
      NotBeneathKey(key, v, address);
    }
  }

  lemma NotBeneathKey(key: string, v: Json, address: seq<Step>)
    requires PlainKey(key) && Tidy(address) && !BeneathKey(key, address)
    ensures var redacted := At(Redact(["**." + key], v, ""), address);
            if EndsInKey(key, address) && At(v, address).Some? then redacted == Some(REDACTED)
            else FaceOf(redacted) == FaceOf(At(v, address))
  {
    var patterns := ["**." + key];
    forall n | 0 <= n < |address| ensures !Masked(patterns, PathTo("", address[..n])) {
      AnyStarsMasked(key, address, n);
    }
    AnyStarsFindPlace(key, address);
    AbsentStays(patterns, v, "", address);
    if At(v, address).Some? && EndsInKey(key, address) {
      MaskedIsMask(patterns, v, "", address);
    } else if !EndsInKey(key, address) {
      assert address[..|address|] == address;
      VisibleStays(patterns, v, "", address);
    }
  }

  // ---- where levels fail -------------------------------------------------------------------------------

  /** A slash in a key counts as a level: the pattern of a nested key masks a key at the top. */
  lemma SlashInKeyIsALevel(v: Json)
    ensures RedactArguments(map["a/b" := v], ["a.b"]) == map["a/b" := REDACTED]
  {
    var arguments: Arguments := map["a/b" := v];
    DottedIsSlashed();
    LiteralMatches("a/b", true, "a/b");
    assert "a.b" in ["a.b"] && Masked(["a.b"], Extend("", Key("a/b")));
    var redacted := Redact(["a.b"], Obj(arguments), "");
    assert redacted.Obj? && redacted.fields.Keys == {"a/b"};
    assert Redact(["a.b"], v, Extend("", Key("a/b"))) == REDACTED;
    assert redacted.fields == map["a/b" := Redact(["a.b"], v, Extend("", Key("a/b")))];
    RedactArgumentsIsRedact(arguments, ["a.b"]);
  }

  lemma DottedIsSlashed()
    ensures Translate("a.b") == "a/b"
  {
    var t := Translate("a.b");
    assert t[0] == 'a' && t[1] == '/' && t[2] == 'b';
  }
}
