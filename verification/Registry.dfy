/** Tool namespacing and the registry built from it (proxy/registry.py). */
module Registry {
  import opened Wrappers
  import opened Engine
  import opened ConfigModels

  // ---- names -----------------------------------------------------------------

  function Namespace(upstream: string, tool: string): string { upstream + SEPARATOR + tool }

  /** Index of the first separator. */
  function FindSeparator(s: string): (found: Option<nat>)
    ensures found.None? <==> !HasSeparator(s)
    ensures found.Some? ==> SeparatorAt(s, found.value) && forall i | 0 <= i < found.value :: !SeparatorAt(s, i)
  {
    if |s| < 2 then None
    else if s[0] == '_' && s[1] == '_' then
      assert SeparatorAt(s, 0);
      Some(0)
    else
      var rest := FindSeparator(s[1..]);
      assert forall i | 0 < i < |s| :: SeparatorAt(s, i) <==> SeparatorAt(s[1..], i - 1);
      assert rest.Some? ==> SeparatorAt(s, rest.value + 1);
      if rest.None? then None else Some(rest.value + 1)
  }

  /** `split_namespace`: partition at the first separator; both parts must be non-empty. */
  function SplitNamespace(name: string): Option<(string, string)> {
    match FindSeparator(name)
    case None => None
    case Some(k) => if k == 0 || k + 2 == |name| then None else Some((name[..k], name[k + 2..]))
  }

  predicate EndsInUnderscore(s: string) { s != "" && s[|s| - 1] == '_' }

  /** Splitting undoes namespacing exactly when the upstream's name does not end in an underscore. */
  lemma SplitUndoesNamespace(upstream: string, tool: string)
    requires upstream != "" && !HasSeparator(upstream) && tool != ""
    ensures SplitNamespace(Namespace(upstream, tool)) == Some((upstream, tool)) <==> !EndsInUnderscore(upstream)
  {
    var name := Namespace(upstream, tool);
    var n := |upstream|;
    assert SeparatorAt(name, n);
    var k := FindSeparator(name).value;
    assert forall i | 0 <= i < n - 1 :: SeparatorAt(name, i) <==> SeparatorAt(upstream, i);
    assert SeparatorAt(name, n - 1) <==> EndsInUnderscore(upstream);
    assert name[..n] == upstream && name[n + 2..] == tool;
  }

  /** So for the names the configuration lets through. */
  lemma ValidNameSplits(upstream: string, tool: string, alnum: char -> bool)
    requires ValidName(upstream, alnum) && tool != ""
    ensures SplitNamespace(Namespace(upstream, tool)) == Some((upstream, tool)) <==> !EndsInUnderscore(upstream)
  {
    SplitUndoesNamespace(upstream, tool);
  }

  /** Whatever splits is the namespaced form of what it splits into, and lies in the domain above. */
  lemma NamespaceUndoesSplit(name: string)
    requires SplitNamespace(name).Some?
    ensures var (upstream, tool) := SplitNamespace(name).value;
            && Namespace(upstream, tool) == name
            && upstream != "" && tool != "" && !HasSeparator(upstream) && !EndsInUnderscore(upstream)
  {
    var k := FindSeparator(name).value;
    var (upstream, tool) := SplitNamespace(name).value;
    assert name == upstream + SEPARATOR + tool;
    assert forall i | 0 <= i < k - 1 :: SeparatorAt(upstream, i) <==> SeparatorAt(name, i);
    assert EndsInUnderscore(upstream) <==> SeparatorAt(name, k - 1);
  }

  /** The validator lets through a name that breaks the round trip: `fs_` with the tool `x` reads back as `fs`, `_x`. */
  lemma UnderscoreNameMisreads(alnum: char -> bool)
    requires alnum('f') && alnum('s')
    ensures ValidName("fs_", alnum)
    ensures SplitNamespace(Namespace("fs_", "x")) == Some(("fs", "_x"))
  {
    var name := Namespace("fs_", "x");
    assert name == "fs___x";
    assert SeparatorAt(name, 2) && !SeparatorAt(name, 0) && !SeparatorAt(name, 1);
    assert FindSeparator(name) == Some(2);
    assert name[..2] == "fs" && name[4..] == "_x";
  }

  /** One tool of `u` starts with the underscore by which the other upstream's name is longer. */
  predicate Clash(u: string, t: string, u': string, t': string) { u' == u + "_" && t == "_" + t' }

  /** Among upstream names without a separator, two namespaced names coincide only by a clash. */
  lemma NamesCoincide(u: string, t: string, u': string, t': string)
    requires !HasSeparator(u) && !HasSeparator(u')
    ensures Namespace(u, t) == Namespace(u', t')
            <==> (u == u' && t == t') || Clash(u, t, u', t') || Clash(u', t', u, t)
  {
    if Namespace(u, t) == Namespace(u', t') {
      if |u| <= |u'| { ShorterUpstream(u, t, u', t'); } else { ShorterUpstream(u', t', u, t); }
    }
    if Clash(u, t, u', t') { assert Namespace(u, t) == Namespace(u', t'); }
    if Clash(u', t', u, t) { assert Namespace(u, t) == Namespace(u', t'); }
  }

  lemma ShorterUpstream(u: string, t: string, u': string, t': string)
    requires !HasSeparator(u') && |u| <= |u'|
    requires Namespace(u, t) == Namespace(u', t')
    ensures (u == u' && t == t') || Clash(u, t, u', t')
  {
    var name, n := Namespace(u, t), |u|;
    assert name[..n] == u && name[n] == '_' && name[n + 1] == '_' && name[n + 2..] == t;
    assert name[..|u'|] == u' && name[|u'|] == '_' && name[|u'| + 1] == '_' && name[|u'| + 2..] == t';
    assert |u'| >= n + 2 <==> SeparatorAt(u', n);
    if |u'| == n + 1 {
      assert u' == name[..n] + [name[n]];
      assert t == [name[n + 2]] + name[n + 3..];
    }
  }

  // ---- the registry -------------------------------------------------------------

  /** An upstream tool; `definition` stands for every field the proxy copies without reading. */
  datatype Tool = Tool(name: string, annotations: Option<AnnotationView>, definition: string)

  datatype NamespacedTool = NamespacedTool(upstream: string, remoteName: string, tool: Tool)
  {
    /** `annotation_view`: a tool without annotations states nothing. */
    function Annotations(): AnnotationView {
      if tool.annotations.None? then AnnotationView(None, None, None, None) else tool.annotations.value
    }
  }

  type ToolRegistry = map<string, NamespacedTool>

  function Entry(upstream: string, tool: Tool): NamespacedTool {
    NamespacedTool(upstream, tool.name, tool.(name := Namespace(upstream, tool.name)))
  }

  /** The entry is a copy of the upstream's tool under its new name, with the hints that tool states or none. */
  ghost predicate Copies(entry: NamespacedTool, upstream: string, tool: Tool, name: string) {
    && entry.upstream == upstream && entry.remoteName == tool.name
    && entry.tool.name == name && entry.tool.definition == tool.definition
    && entry.tool.annotations == tool.annotations
    && match tool.annotations
       case Some(view) => entry.Annotations() == view
       case None =>
         && entry.Annotations().readOnly.None? && entry.Annotations().destructive.None?
         && entry.Annotations().idempotent.None? && entry.Annotations().openWorld.None?
  }

  /** What one upstream advertises. A registry is built from a list of these with distinct upstreams. */
  datatype Listing = Listing(upstream: string, tools: seq<Tool>)

  /** Listing `i` advertises its tool `j` under the given name. */
  ghost predicate Advertises(listings: seq<Listing>, i: nat, j: nat, name: string) {
    && i < |listings| && j < |listings[i].tools|
    && Namespace(listings[i].upstream, listings[i].tools[j].name) == name
  }

  ghost predicate Before(i: nat, j: nat, i': nat, j': nat) { i < i' || (i == i' && j < j') }

  /** The registry holds, for every advertised name, the last tool advertised under it (before `(m, n)`). */
  ghost predicate HoldsLast(registry: ToolRegistry, listings: seq<Listing>, m: nat, n: nat) {
    && (forall i, j, name | Advertises(listings, i, j, name) && Before(i, j, m, n) :: name in registry)
    && (forall name | name in registry ::
          exists i: nat, j: nat ::
            && Advertises(listings, i, j, name) && Before(i, j, m, n)
            && Copies(registry[name], listings[i].upstream, listings[i].tools[j], name)
            && forall i': nat, j': nat | Advertises(listings, i', j', name) && Before(i', j', m, n) ::
                 !Before(i, j, i', j'))
  }

  /** `ToolRegistry.build`: later tools overwrite earlier ones of the same namespaced name. */
  method Build(listings: seq<Listing>) returns (registry: ToolRegistry)
    ensures HoldsLast(registry, listings, |listings|, 0)
  {
    registry := map[];
    for m := 0 to |listings|
      invariant HoldsLast(registry, listings, m, 0)
    {
      var listing := listings[m];
      for n := 0 to |listing.tools|
        invariant HoldsLast(registry, listings, m, n)
      {
        var tool := listing.tools[n];
        var newName := Namespace(listing.upstream, tool.name);
        HoldsLastStep(registry, listings, m, n, newName);
        registry := registry[newName := Entry(listing.upstream, tool)];
      }
      HoldsLastNext(registry, listings, m);
    }
  }

  lemma HoldsLastStep(registry: ToolRegistry, listings: seq<Listing>, m: nat, n: nat, newName: string)
    requires Advertises(listings, m, n, newName)
    requires HoldsLast(registry, listings, m, n)
    ensures HoldsLast(registry[newName := Entry(listings[m].upstream, listings[m].tools[n])], listings, m, n + 1)
  {
    var registry' := registry[newName := Entry(listings[m].upstream, listings[m].tools[n])];
    forall name | name in registry'
      ensures exists i: nat, j: nat ::
                && Advertises(listings, i, j, name) && Before(i, j, m, n + 1)
                && Copies(registry'[name], listings[i].upstream, listings[i].tools[j], name)
                && forall i': nat, j': nat | Advertises(listings, i', j', name) && Before(i', j', m, n + 1) ::
                     !Before(i, j, i', j')
    {
      if name == newName {
        assert Advertises(listings, m, n, name) && Before(m, n, m, n + 1);
      } else {
        var i: nat, j: nat :|
          && Advertises(listings, i, j, name) && Before(i, j, m, n)
          && Copies(registry[name], listings[i].upstream, listings[i].tools[j], name)
          && forall i': nat, j': nat | Advertises(listings, i', j', name) && Before(i', j', m, n) ::
               !Before(i, j, i', j');
        assert Before(i, j, m, n + 1);
      }
    }
    forall i, j, name | Advertises(listings, i, j, name) && Before(i, j, m, n + 1) ensures name in registry' {
      if i == m && j == n { assert name == newName; } else { assert Before(i, j, m, n); }
    }
  }

  lemma HoldsLastNext(registry: ToolRegistry, listings: seq<Listing>, m: nat)
    requires m < |listings| && HoldsLast(registry, listings, m, |listings[m].tools|)
    ensures HoldsLast(registry, listings, m + 1, 0)
  {
    forall i: nat, j: nat, name | Advertises(listings, i, j, name)
      ensures Before(i, j, m + 1, 0) <==> Before(i, j, m, |listings[m].tools|)
    {
    }
    forall name | name in registry
      ensures exists i: nat, j: nat ::
                && Advertises(listings, i, j, name) && Before(i, j, m + 1, 0)
                && Copies(registry[name], listings[i].upstream, listings[i].tools[j], name)
                && forall i': nat, j': nat | Advertises(listings, i', j', name) && Before(i', j', m + 1, 0) ::
                     !Before(i, j, i', j')
    {
      var i: nat, j: nat :|
        && Advertises(listings, i, j, name) && Before(i, j, m, |listings[m].tools|)
        && Copies(registry[name], listings[i].upstream, listings[i].tools[j], name)
        && forall i': nat, j': nat | Advertises(listings, i', j', name) && Before(i', j', m, |listings[m].tools|) ::
             !Before(i, j, i', j');
      assert Before(i, j, m + 1, 0);
    }
  }

  /** What the configuration and the upstreams give: distinct names without separators, distinct tools in each. */
  ghost predicate WellFormed(listings: seq<Listing>) {
    && (forall i | 0 <= i < |listings| :: !HasSeparator(listings[i].upstream))
    && (forall i, j | 0 <= i < j < |listings| :: listings[i].upstream != listings[j].upstream)
    && (forall i, j, k | 0 <= i < |listings| && 0 <= j < k < |listings[i].tools| ::
          listings[i].tools[j].name != listings[i].tools[k].name)
  }

  /** Every advertised tool is found under its own name, as itself. */
  ghost predicate LosesNothing(registry: ToolRegistry, listings: seq<Listing>) {
    forall i: nat, j: nat, name | Advertises(listings, i, j, name) ::
      name in registry && Copies(registry[name], listings[i].upstream, listings[i].tools[j], name)
  }

  ghost predicate HasClash(listings: seq<Listing>) {
    exists i: nat, j: nat, i': nat, j': nat ::
      && i < |listings| && j < |listings[i].tools| && i' < |listings| && j' < |listings[i'].tools|
      && Clash(listings[i].upstream, listings[i].tools[j].name, listings[i'].upstream, listings[i'].tools[j'].name)
  }

  /** Without a clash a name is advertised once. */
  lemma OneAdvertises(listings: seq<Listing>, i: nat, j: nat, i': nat, j': nat, name: string)
    requires WellFormed(listings) && !HasClash(listings)
    requires Advertises(listings, i, j, name) && Advertises(listings, i', j', name)
    ensures i == i' && j == j'
  {
    NamesCoincide(listings[i].upstream, listings[i].tools[j].name,
                  listings[i'].upstream, listings[i'].tools[j'].name);
    assert listings[i].upstream == listings[i'].upstream;
  }

  /** The registry loses no tool exactly when no two tools clash. */
  lemma BuildLosesNothing(registry: ToolRegistry, listings: seq<Listing>)
    requires WellFormed(listings)
    requires HoldsLast(registry, listings, |listings|, 0)
    ensures LosesNothing(registry, listings) <==> !HasClash(listings)
  {
    if HasClash(listings) {
      var i: nat, j: nat, i': nat, j': nat :|
        && i < |listings| && j < |listings[i].tools| && i' < |listings| && j' < |listings[i'].tools|
        && Clash(listings[i].upstream, listings[i].tools[j].name,
                 listings[i'].upstream, listings[i'].tools[j'].name);
      var u, t, u', t' := listings[i].upstream, listings[i].tools[j].name,
                          listings[i'].upstream, listings[i'].tools[j'].name;
      NamesCoincide(u, t, u', t');
      assert Advertises(listings, i, j, Namespace(u, t)) && Advertises(listings, i', j', Namespace(u, t));
      assert u != u';
    } else {
      forall i: nat, j: nat, name | Advertises(listings, i, j, name)
        ensures name in registry && Copies(registry[name], listings[i].upstream, listings[i].tools[j], name)
      {
        assert Before(i, j, |listings|, 0);
        var i': nat, j': nat :|
          Advertises(listings, i', j', name)
          && Copies(registry[name], listings[i'].upstream, listings[i'].tools[j'], name);
        OneAdvertises(listings, i, j, i', j', name);
      }
    }
  }

  /** In particular when no upstream's name ends in an underscore; and then every entry also splits back. */
  lemma TidyNamesLoseNothing(registry: ToolRegistry, listings: seq<Listing>)
    requires WellFormed(listings)
    requires forall listing <- listings :: listing.upstream != "" && !EndsInUnderscore(listing.upstream)
    requires forall listing <- listings, tool <- listing.tools :: tool.name != ""
    requires HoldsLast(registry, listings, |listings|, 0)
    ensures LosesNothing(registry, listings)
    ensures forall name | name in registry ::
              SplitNamespace(name) == Some((registry[name].upstream, registry[name].remoteName))
  {
    if HasClash(listings) {
      var i: nat, j: nat, i': nat, j': nat :|
        && i < |listings| && j < |listings[i].tools| && i' < |listings| && j' < |listings[i'].tools|
        && Clash(listings[i].upstream, listings[i].tools[j].name,
                 listings[i'].upstream, listings[i'].tools[j'].name);
      assert listings[i'] in listings && EndsInUnderscore(listings[i'].upstream);
      assert false;
    }
    BuildLosesNothing(registry, listings);
    forall name | name in registry
      ensures SplitNamespace(name) == Some((registry[name].upstream, registry[name].remoteName))
    {
      var i: nat, j: nat :|
        Advertises(listings, i, j, name) && Copies(registry[name], listings[i].upstream, listings[i].tools[j], name);
      assert listings[i] in listings && listings[i].tools[j] in listings[i].tools;
      SplitUndoesNamespace(listings[i].upstream, listings[i].tools[j].name);
    }
  }
}
