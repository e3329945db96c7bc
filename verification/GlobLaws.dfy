/** What pattern authors rely on: the trailing-slash-star-star law, mode inclusion and segment counting. */
module GlobLaws {
  import opened Glob

  function Slashes(s: string): nat {
    if s == "" then 0 else (if s[0] == '/' then 1 else 0) + Slashes(s[1..])
  }

  predicate AdjacentStars(p: string) { exists i | 0 <= i < |p| - 1 :: p[i] == '*' && p[i + 1] == '*' }

  lemma {:induction false} SlashesSplit(s: string, k: nat)
    requires k <= |s|
    ensures Slashes(s) == Slashes(s[..k]) + Slashes(s[k..])
  {
    if k == 0 {
      assert s[..0] == "" && s[0..] == s;
    } else {
      SlashesSplit(s[1..], k - 1);
      assert s[..k][1..] == s[1..][..k - 1] && s[1..][k - 1..] == s[k..];
    }
  }

  lemma {:induction false} NoSlashes(s: string)
    requires '/' !in s
    ensures Slashes(s) == 0
  {
    if s != "" { NoSlashes(s[1..]); }
  }

  lemma SlashesFirst(s: string)
    requires s != ""
    ensures Slashes(s) == (if s[0] == '/' then 1 else 0) + Slashes(s[1..])
  {
  }

  lemma {:induction false} RunHasNoSlash(p: string)
    ensures Slashes(p) == Slashes(p[StarRun(p)..])
  {
    SlashesSplit(p, StarRun(p));
    assert '/' !in p[..StarRun(p)];
    NoSlashes(p[..StarRun(p)]);
  }

  /** Dropping a final newline from a value never changes its slashes. */
  lemma {:induction false} SlashesBeforeNewline(v: string)
    requires v != "" && v[|v| - 1] == '\n'
    ensures Slashes(v[..|v| - 1]) == Slashes(v)
  {
    SlashesSplit(v, |v| - 1);
    assert '/' !in v[|v| - 1..];
    NoSlashes(v[|v| - 1..]);
  }

  lemma TailSuffix(p: string, k: nat)
    requires k <= |p| - 3
    ensures EndsInTail(p[k..]) <==> EndsInTail(p)
  {
    assert p[k..][|p| - k - 3..] == p[|p| - 3..];
  }

  /** A run of stars never reaches into a final slash and two stars. */
  lemma TailAfterRun(p: string)
    requires p != "" && p[0] == '*'
    ensures EndsInTail(p[StarRun(p)..]) <==> EndsInTail(p)
  {
    if EndsInTail(p) {
      assert p[|p| - 3] == p[|p| - 3..][0] == '/';
      TailSuffix(p, StarRun(p));
    } else if EndsInTail(p[StarRun(p)..]) {
      TailSuffix(p, StarRun(p));
    }
  }

  lemma TailAfterOne(p: string)
    requires p != "" && p[0] != '*' && p != "/**"
    ensures EndsInTail(p[1..]) <==> EndsInTail(p)
  {
    if |p| >= 4 { TailSuffix(p, 1); }
    if |p| == 3 { assert p[0..] == p; }
  }

  // ---- the trailing law --------------------------------------------------------

  /** The text is a path strictly below one that the pattern matches. */
  ghost predicate Below(p: string, s: string) {
    exists k | 0 <= k < |s| :: s[k] == '/' && GlobMatches(p, true, s[..k])
  }

  /** Appending slash, star, star to a pattern that lacks it: the languages, without the newline allowance. */
  lemma {:induction false} AppendTail(p: string, s: string)
    requires !EndsInTail(p)
    ensures GlobMatches(p + "/**", true, s) <==> GlobMatches(p, true, s) || Below(p, s)
    decreases |p|
  {
    var q := p + "/**";
    if p == "" {
      assert q == "/**";
      if s != "" && s[0] == '/' { assert GlobMatches(p, true, s[..0]); }
    } else if p[0] == '*' {
      var n := StarRun(p);
      AppendedRun(p);
      TailAfterRun(p);
      assert q[n..] == p[n..] + "/**";
      forall j | 0 <= j <= |s|
        ensures GlobMatches(q[n..], true, s[j..]) <==> GlobMatches(p[n..], true, s[j..]) || Below(p[n..], s[j..])
      {
        AppendTail(p[n..], s[j..]);
      }
      AppendTailRun(p, s);
    } else {
      assert q[0] == p[0] && q[1..] == p[1..] + "/**" && q != "/**" && p != "/**";
      TailAfterOne(p);
      if s != "" {
        AppendTail(p[1..], s[1..]);
        BelowOne(p, s);
      }
    }
  }

  lemma {:induction false} AppendedRun(p: string)
    ensures StarRun(p + "/**") == StarRun(p)
  {
    if p != "" && p[0] == '*' {
      AppendedRun(p[1..]);
      assert (p + "/**")[1..] == p[1..] + "/**";
    }
  }

  lemma BelowOne(p: string, s: string)
    requires p != "" && p[0] != '*' && p != "/**" && s != ""
    ensures Below(p, s) <==> Below(p[1..], s[1..]) && (p[0] == s[0] || (p[0] == '?' && s[0] != '/'))
  {
    if Below(p[1..], s[1..]) {
      var k :| 0 <= k < |s[1..]| && s[1..][k] == '/' && GlobMatches(p[1..], true, s[1..][..k]);
      assert s[..k + 1][1..] == s[1..][..k] && s[k + 1] == '/';
    }
    if Below(p, s) {
      var k :| 0 <= k < |s| && s[k] == '/' && GlobMatches(p, true, s[..k]);
      assert k > 0;
      assert s[..k][1..] == s[1..][..k - 1] && s[1..][k - 1] == '/';
    }
  }

  lemma AppendTailRun(p: string, s: string)
    requires p != "" && p[0] == '*'
    requires StarRun(p + "/**") == StarRun(p)
    requires forall j | 0 <= j <= |s| ::
               GlobMatches((p + "/**")[StarRun(p)..], true, s[j..])
               <==> GlobMatches(p[StarRun(p)..], true, s[j..]) || Below(p[StarRun(p)..], s[j..])
    ensures GlobMatches(p + "/**", true, s) <==> GlobMatches(p, true, s) || Below(p, s)
  {
    var n, q := StarRun(p), p + "/**";
    if GlobMatches(q, true, s) {
      var j :| 0 <= j <= |s| && (n == 1 ==> '/' !in s[..j]) && GlobMatches(q[n..], true, s[j..]);
      if !GlobMatches(p[n..], true, s[j..]) { RunThenBelow(p, s, j); }
    }
    if Below(p, s) {
      var j := BelowThenRun(p, s);
      assert GlobMatches(q[n..], true, s[j..]);
    }
  }

  lemma BelowThenRun(p: string, s: string) returns (j: nat)
    requires p != "" && p[0] == '*' && Below(p, s)
    ensures j <= |s| && (StarRun(p) == 1 ==> '/' !in s[..j]) && Below(p[StarRun(p)..], s[j..])
  {
    var n := StarRun(p);
    var k :| 0 <= k < |s| && s[k] == '/' && GlobMatches(p, true, s[..k]);
    j :| 0 <= j <= |s[..k]| && (n == 1 ==> '/' !in s[..k][..j]) && GlobMatches(p[n..], true, s[..k][j..]);
    assert s[..k][..j] == s[..j] && s[..k][j..] == s[j..][..k - j] && s[j..][k - j] == '/';
  }

  lemma RunThenBelow(p: string, s: string, j: nat)
    requires p != "" && p[0] == '*' && j <= |s|
    requires StarRun(p) == 1 ==> '/' !in s[..j]
    requires Below(p[StarRun(p)..], s[j..])
    ensures Below(p, s)
  {
    var n := StarRun(p);
    var k :| 0 <= k < |s[j..]| && s[j..][k] == '/' && GlobMatches(p[n..], true, s[j..][..k]);
    assert s[..j + k][..j] == s[..j] && s[..j + k][j..] == s[j..][..k] && s[j + k] == '/';
    assert GlobMatches(p, true, s[..j + k]);
  }

  /** A pattern with a slash and two stars appended guards the path it names and everything below it. */
  lemma TrailingLaw(p: string, v: string)
    requires !EndsInTail(p)
    ensures MatchPath(p + "/**", v)
            <==> MatchPath(p, v) || Below(p, v)
  {
    AppendTail(p, v);
    if v != "" && v[|v| - 1] == '\n' {
      var w := v[..|v| - 1];
      AppendTail(p, w);
      if Below(p, w) {
        var k :| 0 <= k < |w| && w[k] == '/' && GlobMatches(p, true, w[..k]);
        assert v[..k] == w[..k] && v[k] == '/';
      }
    }
  }

  // ---- mode inclusion -------------------------------------------------------------

  lemma {:induction false} PathIntoTool(p: string, s: string)
    requires !EndsInTail(p)
    requires GlobMatches(p, true, s)
    ensures GlobMatches(p, false, s)
    decreases |p|
  {
    if p == "" {
    } else if p[0] == '*' {
      var n := StarRun(p);
      TailAfterRun(p);
      var k :| 0 <= k <= |s| && (n == 1 ==> '/' !in s[..k]) && GlobMatches(p[n..], true, s[k..]);
      PathIntoTool(p[n..], s[k..]);
    } else {
      assert "/**"[0..] == "/**";
      TailAfterOne(p);
      PathIntoTool(p[1..], s[1..]);
    }
  }

  /** A tool match never has fewer slashes than its pattern. */
  lemma {:induction false} ToolKeepsSlashes(p: string, s: string)
    requires GlobMatches(p, false, s)
    ensures Slashes(s) >= Slashes(p)
    decreases |p|
  {
    if p == "" {
    } else if p[0] == '*' {
      var n := StarRun(p);
      var k :| 0 <= k <= |s| && GlobMatches(p[n..], false, s[k..]);
      ToolKeepsSlashes(p[n..], s[k..]);
      SlashesSplit(s, k);
      RunHasNoSlash(p);
    } else {
      ToolKeepsSlashes(p[1..], s[1..]);
    }
  }

  /** A text a path pattern accepts, with as few slashes as its literal part has. */
  ghost function Sample(p: string): (s: string)
    ensures GlobMatches(p, true, s)
    ensures Slashes(s) == Slashes(p) - (if EndsInTail(p) then 1 else 0)
    decreases |p|
  {
    if p == "" then ""
    else if p == "/**" then
      assert Slashes(p) == 1 + Slashes(p[1..]) && Slashes(p[1..]) == 0 by { NoSlashes(p[1..]); }
      assert p[0..] == p;
      ""
    else if p[0] == '*' then
      RunHasNoSlash(p); TailAfterRun(p);
      var s := Sample(p[StarRun(p)..]);
      assert s[..0] == "" && s[0..] == s;
      s
    else
      TailAfterOne(p);
      var c := if p[0] == '?' then 'a' else p[0];
      var rest := Sample(p[1..]);
      assert ([c] + rest)[1..] == rest;
      [c] + rest
  }

  /** Path mode accepts no more than tool mode, for exactly the patterns without a final slash and two stars. */
  lemma ModeInclusion(p: string)
    ensures (forall v :: MatchPath(p, v) ==> MatchTool(p, v)) <==> !EndsInTail(p)
  {
    if !EndsInTail(p) {
      forall v | MatchPath(p, v) ensures MatchTool(p, v) {
        if GlobMatches(p, true, v) { PathIntoTool(p, v); } else { PathIntoTool(p, v[..|v| - 1]); }
      }
    } else {
      var v := Sample(p);
      if MatchTool(p, v) {
        if GlobMatches(p, false, v) {
          ToolKeepsSlashes(p, v);
        } else {
          ToolKeepsSlashes(p, v[..|v| - 1]);
          SlashesBeforeNewline(v);
        }
      }
      assert MatchPath(p, v) && !MatchTool(p, v);
    }
  }

  // ---- where the trailing law holds -------------------------------------------------

  /** A path match has at most one slash fewer than its pattern, and none fewer without a final tail. */
  lemma {:induction false} PathKeepsSlashes(p: string, s: string)
    requires GlobMatches(p, true, s)
    ensures Slashes(s) >= Slashes(p) - (if EndsInTail(p) then 1 else 0)
    decreases |p|
  {
    if p == "" {
    } else if p == "/**" {
      assert p[0..] == p && '/' !in p[1..];
      NoSlashes(p[1..]);
    } else if p[0] == '*' {
      var n := StarRun(p);
      var k :| 0 <= k <= |s| && GlobMatches(p[n..], true, s[k..]);
      PathKeepsSlashes(p[n..], s[k..]);
      SlashesSplit(s, k);
      RunHasNoSlash(p);
      TailAfterRun(p);
    } else {
      TailAfterOne(p);
      PathKeepsSlashes(p[1..], s[1..]);
    }
  }

  /** The trailing law holds of exactly the patterns that do not end in a slash and two stars already. */
  lemma TrailingLawDomain(p: string)
    ensures (forall v :: MatchPath(p + "/**", v) <==> MatchPath(p, v) || Below(p, v)) <==> !EndsInTail(p)
  {
    if !EndsInTail(p) {
      forall v ensures MatchPath(p + "/**", v) <==> MatchPath(p, v) || Below(p, v) { TrailingLaw(p, v); }
    } else {
      var v, q := Sample(p), p + "/**";
      assert q[..|p|] == p && q[|p|..] == "/**" && "/**"[1..] == "**";
      SlashesSplit(q, |p|);
      NoSlashes("**");
      if GlobMatches(q, true, v) { PathKeepsSlashes(q, v); }
      if v != "" && v[|v| - 1] == '\n' && GlobMatches(q, true, v[..|v| - 1]) {
        PathKeepsSlashes(q, v[..|v| - 1]);
        SlashesBeforeNewline(v);
      }
      assert MatchPath(p, v) && !MatchPath(q, v);
    }
  }

  // ---- segment conservation ---------------------------------------------------------

  lemma RunOfTwo(p: string)
    ensures StarRun(p) >= 2 <==> |p| >= 2 && p[0] == '*' && p[0 + 1] == '*'
  {
    if |p| >= 2 && p[0] == '*' && p[0 + 1] == '*' {
      assert StarRun(p) == 1 + StarRun(p[1..]) && p[1..][0] == '*';
    }
  }

  /** Where two stars are adjacent for sure: after the first character, in a run of two, in the tail. */
  lemma StarsAdjoin(p: string)
    requires p != ""
    ensures AdjacentStars(p[1..]) || StarRun(p) >= 2 || p == "/**" ==> AdjacentStars(p)
  {
    RunOfTwo(p);
    if p == "/**" { assert p[1] == '*' && p[1 + 1] == '*'; }
    if AdjacentStars(p[1..]) {
      var i :| 0 <= i < |p[1..]| - 1 && p[1..][i] == '*' && p[1..][i + 1] == '*';
      assert p[i + 1] == '*' && p[i + 1 + 1] == '*';
    }
  }

  lemma {:induction false} SingleStarsKeepSlashes(p: string, s: string)
    requires !AdjacentStars(p)
    requires GlobMatches(p, true, s)
    ensures Slashes(s) == Slashes(p)
    decreases |p|
  {
    if p == "" { return; }
    StarsAdjoin(p);
    if p[0] == '*' {
      var k :| 0 <= k <= |s| && '/' !in s[..k] && GlobMatches(p[1..], true, s[k..]);
      SingleStarsKeepSlashes(p[1..], s[k..]);
      SlashesSplit(s, k);
      NoSlashes(s[..k]);
    } else {
      SingleStarsKeepSlashes(p[1..], s[1..]);
    }
  }

  /** A text with more slashes than a pattern that has two adjacent stars. */
  ghost function Excess(p: string): (s: string)
    requires AdjacentStars(p)
    ensures GlobMatches(p, true, s)
    ensures Slashes(s) > Slashes(p)
    decreases |p|
  {
    if p == "/**" then
      assert Slashes(p) == 1 by { assert Slashes(p) == 1 + Slashes(p[1..]); NoSlashes(p[1..]); }
      assert Slashes("//") == 2 by { assert "//"[1..] == "/" && "/"[1..] == ""; SlashesFirst("/"); SlashesFirst("//"); }
      "//"
    else if p[0] == '*' && StarRun(p) >= 2 then
      RunHasNoSlash(p);
      var rest := Sample(p[StarRun(p)..]);
      var s := "//" + rest;
      assert s[..2] == "//" && s[2..] == rest;
      assert s[1..] == "/" + rest && ("/" + rest)[1..] == rest;
      SlashesFirst(s); SlashesFirst("/" + rest);
      s
    else
      assert AdjacentStars(p[1..]) by {
        var i :| 0 <= i < |p| - 1 && p[i] == '*' && p[i + 1] == '*';
        RunOfTwo(p);
        assert p[1..][i - 1] == '*' && p[1..][i - 1 + 1] == '*';
      }
      var rest := Excess(p[1..]);
      if p[0] == '*' then
        assert StarRun(p) == 1;
        assert rest[..0] == "" && rest[0..] == rest;
        rest
      else
        var c := if p[0] == '?' then 'a' else p[0];
        assert ([c] + rest)[1..] == rest;
        [c] + rest
  }

  /** Every value a path pattern accepts has the pattern's slashes, exactly when no two stars are adjacent. */
  lemma SegmentConservation(p: string)
    ensures (forall v :: MatchPath(p, v) ==> Slashes(v) == Slashes(p)) <==> !AdjacentStars(p)
  {
    if AdjacentStars(p) {
      assert MatchPath(p, Excess(p));
    } else {
      forall v | MatchPath(p, v) ensures Slashes(v) == Slashes(p) {
        if GlobMatches(p, true, v) {
          SingleStarsKeepSlashes(p, v);
        } else {
          SingleStarsKeepSlashes(p, v[..|v| - 1]);
          SlashesBeforeNewline(v);
        }
      }
    }
  }

  // ---- literal patterns ----------------------------------------------------------------

  predicate Literal(p: string) { '*' !in p && '?' !in p }

  /** A pattern without wildcards matches itself, and itself with a newline appended, and nothing else. */
  lemma {:induction false} LiteralMatches(p: string, sep: bool, v: string)
    requires Literal(p)
    ensures Accepts(p, sep, v) <==> v == p || v == p + "\n"
  {
    LiteralLanguage(p, sep, v);
    if v != "" && v[|v| - 1] == '\n' {
      LiteralLanguage(p, sep, v[..|v| - 1]);
      assert v == v[..|v| - 1] + "\n";
    }
    assert v == p + "\n" ==> v[..|v| - 1] == p;
  }

  lemma {:induction false} LiteralLanguage(p: string, sep: bool, s: string)
    requires Literal(p)
    ensures GlobMatches(p, sep, s) <==> s == p
    decreases |p|
  {
    if p != "" {
      assert "/**"[1] == '*';
      assert p[0] in p;
      if s != "" {
        LiteralLanguage(p[1..], sep, s[1..]);
        assert s == [s[0]] + s[1..] && p == [p[0]] + p[1..];
      }
    }
  }
}
