/**
 * The glob compiler (policy/glob.py).
 *
 * A pattern is compiled, by an index loop over its characters, to a regular expression. The expression is
 * modelled as a small syntax tree with a language semantics, and the compiler is proved against a meaning
 * of patterns that never mentions tokens: a maximal run of stars stands for one arbitrary stretch of text.
 */
module Glob {

  /** The regular expressions the compiler emits, one constructor per construct it uses. */
  datatype Re =
    | Empty                        // the empty expression
    | Lit(c: char)                 // an escaped character, or "/"
    | Any                          // "." under DOTALL
    | NotSlash                     // "[^/]"
    | Star(body: Re)               // "...*"
    | Opt(body: Re)                // "(?:...)?"
    | Cat(first: Re, second: Re)   // juxtaposition

  /** Full-match membership: the text is in the language of the expression. */
  predicate InLang(re: Re, s: string)
    decreases re, |s|
  {
    match re
    case Empty => s == ""
    case Lit(c) => s == [c]
    case Any => |s| == 1
    case NotSlash => |s| == 1 && s[0] != '/'
    case Star(body) => s == "" || exists k | 0 < k <= |s| :: InLang(body, s[..k]) && InLang(re, s[k..])
    case Opt(body) => s == "" || InLang(body, s)
    case Cat(a, b) => exists k | 0 <= k <= |s| :: InLang(a, s[..k]) && InLang(b, s[k..])
  }

  /** `re.compile("^...$").match(v)`: "$" also accepts just before a final newline. */
  predicate Match(re: Re, v: string) {
    InLang(re, v) || (v != "" && v[|v| - 1] == '\n' && InLang(re, v[..|v| - 1]))
  }

  /** `''.join(out)`. */
  function Join(out: seq<Re>): Re {
    if out == [] then Empty else Cat(out[0], Join(out[1..]))
  }

  // ---- what the compiler emits for one character --------------------------

  function StarToken(sep: bool): Re { if sep then Star(NotSlash) else Star(Any) }

  function QuestionToken(sep: bool): Re { if sep then NotSlash else Any }

  const TAIL: Re := Opt(Cat(Lit('/'), Star(Any)))   // "(?:/.*)?"

  /** The tokens the index loop leaves in `out`, read off the pattern from the left. */
  function Tokens(p: string, sep: bool): seq<Re> {
    if p == "" then []
    else if sep && p == "/**" then [TAIL]
    else if sep && |p| >= 2 && p[0] == '*' && p[1] == '*' then [Star(Any)] + Tokens(p[2..], sep)
    else if p[0] == '*' then [StarToken(sep)] + Tokens(p[1..], sep)
    else if p[0] == '?' then [QuestionToken(sep)] + Tokens(p[1..], sep)
    else [Lit(p[0])] + Tokens(p[1..], sep)
  }

  // ---- the declarative meaning ---------------------------------------------

  /** Length of the run of stars a pattern starts with. */
  function StarRun(p: string): (n: nat)
    ensures n <= |p|
    ensures forall i | 0 <= i < n :: p[i] == '*'
    ensures n < |p| ==> p[n] != '*'
  {
    if p == "" || p[0] != '*' then 0 else 1 + StarRun(p[1..])
  }

  /**
   * The meaning of a pattern. A maximal run of stars stands for any text, except that where separators
   * count a lone star stands for text without '/'. A question mark stands for one character ('/' excluded
   * where separators count). Where separators count, a slash and two stars at the very end stand for nothing,
   * or for '/' and any text after it. Everything else stands for itself.
   */
  predicate GlobMatches(p: string, sep: bool, s: string)
    decreases |p|
  {
    if p == "" then s == ""
    else if sep && p == "/**" then s == "" || s[0] == '/'
    else if p[0] == '*' then
      exists k | 0 <= k <= |s| ::
        (sep && StarRun(p) == 1 ==> '/' !in s[..k]) && GlobMatches(p[StarRun(p)..], sep, s[k..])
    else if p[0] == '?' then s != "" && (sep ==> s[0] != '/') && GlobMatches(p[1..], sep, s[1..])
    else s != "" && s[0] == p[0] && GlobMatches(p[1..], sep, s[1..])
  }

  /** What `match_tool` (sep false) and `match_path` (sep true) answer. */
  predicate Accepts(p: string, sep: bool, v: string) {
    GlobMatches(p, sep, v) || (v != "" && v[|v| - 1] == '\n' && GlobMatches(p, sep, v[..|v| - 1]))
  }

  predicate MatchTool(pattern: string, name: string) { Accepts(pattern, false, name) }

  predicate MatchPath(pattern: string, value: string) { Accepts(pattern, true, value) }

  predicate EndsInTail(p: string) { |p| >= 3 && p[|p| - 3..] == "/**" }

  // ---- the languages of single tokens ---------------------------------------

  lemma {:induction false} StarAnyIsAll(s: string)
    ensures InLang(Star(Any), s)
    decreases |s|
  {
    if s != "" {
      StarAnyIsAll(s[1..]);
      assert InLang(Any, s[..1]) && InLang(Star(Any), s[1..]);
    }
  }

  lemma {:induction false} StarNotSlashIsSegment(s: string)
    ensures InLang(Star(NotSlash), s) <==> '/' !in s
    decreases |s|
  {
    if s != "" {
      StarNotSlashIsSegment(s[1..]);
      if '/' !in s {
        assert InLang(NotSlash, s[..1]) && InLang(Star(NotSlash), s[1..]);
      }
      if InLang(Star(NotSlash), s) {
        var k :| 0 < k <= |s| && InLang(NotSlash, s[..k]) && InLang(Star(NotSlash), s[k..]);
        assert k == 1 && s == [s[0]] + s[1..];
      }
    }
  }

  /** Concatenating with a token that takes exactly one character. */
  lemma OneCharFirst(t: Re, rest: Re, s: string)
    requires t.Lit? || t.Any? || t.NotSlash?
    ensures InLang(Cat(t, rest), s) <==> s != "" && InLang(t, s[..1]) && InLang(rest, s[1..])
  {
    if InLang(Cat(t, rest), s) {
      var k :| 0 <= k <= |s| && InLang(t, s[..k]) && InLang(rest, s[k..]);
      assert k == 1;
    }
  }

  lemma TailLanguage(s: string)
    ensures InLang(TAIL, s) <==> s == "" || s[0] == '/'
  {
    OneCharFirst(Lit('/'), Star(Any), s);
    if s != "" { StarAnyIsAll(s[1..]); }
  }

  // ---- runs of stars ---------------------------------------------------------

  /** A stretch of text (free of '/' if `bounded`), then a text the tokens of `q` accept. */
  ghost predicate StretchThen(bounded: bool, q: string, sep: bool, s: string) {
    exists k | 0 <= k <= |s| :: (bounded ==> '/' !in s[..k]) && InLang(Join(Tokens(q, sep)), s[k..])
  }

  /** One star token, or one doubled-star token, followed by the rest. */
  lemma StretchFirst(bounded: bool, q: string, sep: bool, s: string)
    ensures InLang(Cat(if bounded then Star(NotSlash) else Star(Any), Join(Tokens(q, sep))), s)
            <==> StretchThen(bounded, q, sep, s)
  {
    forall k | 0 <= k <= |s|
      ensures InLang(if bounded then Star(NotSlash) else Star(Any), s[..k]) <==> (bounded ==> '/' !in s[..k])
    {
      StarAnyIsAll(s[..k]);
      StarNotSlashIsSegment(s[..k]);
    }
  }

  /** An unrestricted stretch followed by any stretch is one unrestricted stretch. */
  lemma StretchesMerge(bounded: bool, q: string, sep: bool, s: string)
    ensures (exists k | 0 <= k <= |s| :: StretchThen(bounded, q, sep, s[k..])) <==> StretchThen(false, q, sep, s)
  {
    if k :| 0 <= k <= |s| && StretchThen(bounded, q, sep, s[k..]) {
      var j :| 0 <= j <= |s[k..]| && InLang(Join(Tokens(q, sep)), s[k..][j..]);
      assert s[k..][j..] == s[k + j..];
    }
    if StretchThen(false, q, sep, s) {
      var k :| 0 <= k <= |s| && InLang(Join(Tokens(q, sep)), s[k..]);
      assert s[k..][..0] == "" && s[k..][0..] == s[k..];
      assert StretchThen(bounded, q, sep, s[k..]);
    }
  }

  /** Left-to-right pairing of a run of stars means the same as the run. */
  lemma {:induction false} RunTokens(p: string, sep: bool, s: string)
    requires p != "" && p[0] == '*'
    ensures InLang(Join(Tokens(p, sep)), s) <==> StretchThen(sep && StarRun(p) == 1, p[StarRun(p)..], sep, s)
    decreases |p|
  {
    var n := StarRun(p);
    assert |p| >= 2 && p[1] == '*' ==> n >= 2;
    var step := if sep && n >= 2 then 2 else 1;
    var q := p[step..];
    FirstToken(p, sep);
    StretchFirst(sep && n == 1, q, sep, s);
    if n > step {
      StarRunSuffix(p, step);
      assert q[n - step..] == p[n..];
      forall k | 0 <= k <= |s|
        ensures InLang(Join(Tokens(q, sep)), s[k..]) <==> StretchThen(sep && n - step == 1, p[n..], sep, s[k..])
      {
        RunTokens(q, sep, s[k..]);
      }
      StretchesMerge(sep && n - step == 1, p[n..], sep, s);
    }
  }

  lemma FirstToken(p: string, sep: bool)
    requires p != "" && p[0] == '*'
    ensures var n := StarRun(p);
            var t := if sep && n == 1 then Star(NotSlash) else Star(Any);
            Join(Tokens(p, sep)) == Cat(t, Join(Tokens(p[if sep && n >= 2 then 2 else 1..], sep)))
  {
    var n := StarRun(p);
    var t := if sep && n == 1 then Star(NotSlash) else Star(Any);
    assert StarRun(p[1..]) + 1 == n;
    assert n >= 2 <==> |p| >= 2 && p[1] == '*';
    var rest := Tokens(p[if sep && n >= 2 then 2 else 1..], sep);
    assert Tokens(p, sep) == [t] + rest;
    assert ([t] + rest)[1..] == rest;
  }

  lemma {:induction false} StarRunSuffix(p: string, step: nat)
    requires step < StarRun(p)
    ensures StarRun(p[step..]) == StarRun(p) - step
  {
    if step > 0 {
      StarRunSuffix(p[1..], step - 1);
      assert p[1..][step - 1..] == p[step..];
    }
  }

  // ---- compilation preserves meaning -----------------------------------------

  lemma {:induction false} TokensMean(p: string, sep: bool, s: string)
    ensures InLang(Join(Tokens(p, sep)), s) <==> GlobMatches(p, sep, s)
    decreases |p|
  {
    if p == "" {
    } else if sep && p == "/**" {
      assert Join([TAIL]) == Cat(TAIL, Join([]));
      TailLanguage(s);
      if InLang(TAIL, s) { assert s[..|s|] == s && s[|s|..] == ""; }
      if InLang(Cat(TAIL, Empty), s) {
        var k :| 0 <= k <= |s| && InLang(TAIL, s[..k]) && InLang(Empty, s[k..]);
        assert s[..k] == s;
      }
    } else if p[0] == '*' {
      RunTokens(p, sep, s);
      forall k | 0 <= k <= |s| { TokensMean(p[StarRun(p)..], sep, s[k..]); }
    } else {
      var t := if p[0] == '?' then QuestionToken(sep) else Lit(p[0]);
      assert Tokens(p, sep) == [t] + Tokens(p[1..], sep);
      assert Join(Tokens(p, sep)) == Cat(t, Join(Tokens(p[1..], sep)));
      OneCharFirst(t, Join(Tokens(p[1..], sep)), s);
      if s != "" { TokensMean(p[1..], sep, s[1..]); }
    }
  }

  /** What the loop has emitted before reading index `i`: a slash before a final doubled star is provisional. */
  ghost predicate Emitted(p: string, sep: bool, i: nat, out: seq<Re>)
    requires i <= |p|
  {
    && (out != [] && out[|out| - 1] == Lit('/') <==> 0 < i && p[i - 1] == '/')
    && if sep && 0 < i && p[i - 1..] == "/**"
       then Tokens(p, sep) == out[..|out| - 1] + [TAIL]
       else Tokens(p, sep) == out + Tokens(p[i..], sep)
  }

  lemma EmitDoubleStar(p: string, i: nat, out: seq<Re>)
    requires i + 1 < |p| && p[i] == '*' && p[i + 1] == '*'
    requires Emitted(p, true, i, out)
    ensures out != [] && out[|out| - 1] == Lit('/') && i + 2 == |p| ==>
              Emitted(p, true, i + 2, out[..|out| - 1] + [TAIL])
    ensures !(out != [] && out[|out| - 1] == Lit('/') && i + 2 == |p|) ==>
              Emitted(p, true, i + 2, out + [Star(Any)])
  {
    assert p[i..][2..] == p[i + 2..];
    if 0 < i && p[i - 1] == '/' && i + 2 == |p| {
      assert p[i - 1..] == "/**";
    } else {
      assert !(0 < i && p[i - 1..] == "/**");
      assert Tokens(p[i..], true) == [Star(Any)] + Tokens(p[i + 2..], true);
    }
  }

  lemma EmitOne(p: string, sep: bool, i: nat, out: seq<Re>, t: Re)
    requires i < |p| && !(sep && i + 1 < |p| && p[i] == '*' && p[i + 1] == '*')
    requires t == if p[i] == '*' then StarToken(sep) else if p[i] == '?' then QuestionToken(sep) else Lit(p[i])
    requires Emitted(p, sep, i, out)
    ensures Emitted(p, sep, i + 1, out + [t])
  {
    assert p[i..][1..] == p[i + 1..] && p[i..][0] == p[i];
    if sep && p[i..] == "/**" {
      assert i + 3 == |p|;
    } else {
      assert i + 1 < |p| ==> p[i..][1] == p[i + 1];
      assert Tokens(p[i..], sep) == [t] + Tokens(p[i + 1..], sep);
      assert out + [t] + Tokens(p[i + 1..], sep) == out + ([t] + Tokens(p[i + 1..], sep));
    }
  }

  /** `_compile`: the index loop, with its in-place rewrite of the last token. */
  method Compile(pattern: string, sep: bool) returns (re: Re)
    ensures forall s :: InLang(re, s) <==> GlobMatches(pattern, sep, s)
  {
    var out: seq<Re> := [];
    var i := 0;
    var end := |pattern|;
    while i < end
      invariant 0 <= i <= end
      invariant Emitted(pattern, sep, i, out)
    {
      var c := pattern[i];
      if c == '*' {
        if sep && i + 1 < end && pattern[i + 1] == '*' {
          EmitDoubleStar(pattern, i, out);
          if out != [] && out[|out| - 1] == Lit('/') && i + 2 == end {
            out := out[..|out| - 1] + [TAIL];
          } else {
            out := out + [Star(Any)];
          }
          i := i + 2;
          continue;
        }
        EmitOne(pattern, sep, i, out, StarToken(sep));
        out := out + [StarToken(sep)];
      } else if c == '?' {
        EmitOne(pattern, sep, i, out, QuestionToken(sep));
        out := out + [QuestionToken(sep)];
      } else if c == '/' {
        EmitOne(pattern, sep, i, out, Lit('/'));
        out := out + [Lit('/')];
      } else {
        EmitOne(pattern, sep, i, out, Lit(c));
        out := out + [Lit(c)];
      }
      i := i + 1;
    }
    re := Join(out);
    assert out == Tokens(pattern, sep);
    forall s ensures InLang(re, s) <==> GlobMatches(pattern, sep, s) { TokensMean(pattern, sep, s); }
  }

  /** `match_tool` and `match_path` as written: compile, then match with the "$" allowance. */
  method CompiledMatch(pattern: string, sep: bool, v: string) returns (b: bool)
    ensures b <==> Accepts(pattern, sep, v)
  {
    var re := Compile(pattern, sep);
    b := Match(re, v);
  }
}
