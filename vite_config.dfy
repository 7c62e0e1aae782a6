/**
 * The build configuration of vite.config.ts: the `manualChunks` classifier that
 * assigns third-party modules to named chunks, the mode-dependent plugin list and
 * the `@` import alias.
 */
module ViteConfig {
  import opened Options

  /** `sub` occurs in `s` starting at position `i`. */
  ghost predicate OccursAt(s: string, sub: string, i: nat)
  {
    i + |sub| <= |s| && s[i..i + |sub|] == sub
  }

  /** JavaScript's `s.includes(sub)`, computed by sliding a window over `s`. */
  function Includes(s: string, sub: string): (b: bool)
    ensures b <==> exists i: nat :: OccursAt(s, sub, i)
    decreases |s|
  {
    if |sub| > |s| then
      false
    else if s[..|sub|] == sub then
      assert OccursAt(s, sub, 0);
      true
    else
      var rest := Includes(s[1..], sub);
      assert forall i: nat :: OccursAt(s[1..], sub, i) <==> OccursAt(s, sub, i + 1) by {
        forall i: nat ensures OccursAt(s[1..], sub, i) <==> OccursAt(s, sub, i + 1) {
          if i + |sub| <= |s[1..]| {
            assert s[1..][i..i + |sub|] == s[i + 1..i + 1 + |sub|];
          }
        }
      }
      assert !OccursAt(s, sub, 0);
      assert (exists i: nat :: OccursAt(s, sub, i)) ==> exists i: nat :: OccursAt(s[1..], sub, i) by {
        if exists i: nat :: OccursAt(s, sub, i) {
          var i: nat :| OccursAt(s, sub, i);
          assert i > 0;
          assert OccursAt(s[1..], sub, i - 1);
        }
      }
      rest
  }

  /** The chunk names `manualChunks` can return. */
  const ReactVendor := "react-vendor"
  const FramerMotion := "framer-motion"
  const Icons := "icons"
  const RadixUi := "radix-ui"
  const Router := "router"

  /**
   * `manualChunks(id)`: a chain of substring tests tried in source order; the first
   * one that holds names the chunk, and `None` (JavaScript `undefined`) leaves the
   * module to Rollup's default chunking.
   */
  function ManualChunks(id: string): Option<string>
  {
    if Includes(id, "node_modules/react/") || Includes(id, "node_modules/react-dom/") then
      Some(ReactVendor)
    else if Includes(id, "node_modules/framer-motion/") then
      Some(FramerMotion)
    else if Includes(id, "node_modules/react-icons/") || Includes(id, "node_modules/lucide-react/") then
      Some(Icons)
    else if Includes(id, "node_modules/@radix-ui/") then
      Some(RadixUi)
    else if Includes(id, "node_modules/react-router-dom/") || Includes(id, "node_modules/react-router/") then
      Some(Router)
    else
      None
  }

  /** A classification rule as a table entry: any of the path fragments selects the chunk. */
  datatype Rule = Rule(fragments: seq<string>, chunk: string)

  /** The classifier's rules as data, in the order the source tests them. */
  const ChunkRules: seq<Rule> := [
    Rule(["node_modules/react/", "node_modules/react-dom/"], ReactVendor),
    Rule(["node_modules/framer-motion/"], FramerMotion),
    Rule(["node_modules/react-icons/", "node_modules/lucide-react/"], Icons),
    Rule(["node_modules/@radix-ui/"], RadixUi),
    Rule(["node_modules/react-router-dom/", "node_modules/react-router/"], Router)
  ]

  predicate Matches(rule: Rule, id: string)
  {
    exists k :: 0 <= k < |rule.fragments| && Includes(id, rule.fragments[k])
  }

  /** Reference first-match semantics over a rule table. */
  function FirstMatch(rules: seq<Rule>, id: string): (r: Option<string>)
    ensures r.None? <==> forall k :: 0 <= k < |rules| ==> !Matches(rules[k], id)
    ensures r.Some? ==>
      exists k :: 0 <= k < |rules| && Matches(rules[k], id) && r.value == rules[k].chunk &&
        forall j :: 0 <= j < k ==> !Matches(rules[j], id)
  {
    if rules == [] then
      None
    else if Matches(rules[0], id) then
      Some(rules[0].chunk)
    else
      var r := FirstMatch(rules[1..], id);
      assert forall k :: 1 <= k < |rules| ==> rules[k] == rules[1..][k - 1];
      if r.Some? then
        var k :| 0 <= k < |rules[1..]| && Matches(rules[1..][k], id) && r.value == rules[1..][k].chunk &&
          forall j :: 0 <= j < k ==> !Matches(rules[1..][j], id);
        assert Matches(rules[k + 1], id) && forall j :: 0 <= j < k + 1 ==> !Matches(rules[j], id);
        r
      else
        r
  }

  lemma MatchesPair(rule: Rule, id: string, a: string, b: string)
    requires rule.fragments == [a, b]
    ensures Matches(rule, id) <==> Includes(id, a) || Includes(id, b)
  {
    if Includes(id, a) {
      assert Includes(id, rule.fragments[0]);
    }
    if Includes(id, b) {
      assert Includes(id, rule.fragments[1]);
    }
  }

  lemma MatchesSingle(rule: Rule, id: string, a: string)
    requires rule.fragments == [a]
    ensures Matches(rule, id) <==> Includes(id, a)
  {
    if Includes(id, a) {
      assert Includes(id, rule.fragments[0]);
    }
  }

  /** The if-chain of `manualChunks` is first-match over the rule table, in the table's order. */
  lemma ManualChunksIsFirstMatch(id: string)
    ensures ManualChunks(id) == FirstMatch(ChunkRules, id)
  {
    var rs := ChunkRules;
    MatchesPair(rs[0], id, "node_modules/react/", "node_modules/react-dom/");
    MatchesSingle(rs[1], id, "node_modules/framer-motion/");
    MatchesPair(rs[2], id, "node_modules/react-icons/", "node_modules/lucide-react/");
    MatchesSingle(rs[3], id, "node_modules/@radix-ui/");
    MatchesPair(rs[4], id, "node_modules/react-router-dom/", "node_modules/react-router/");
    assert rs[1..][1..][1..][1..][1..] == [];
    assert rs[1..][0] == rs[1];
    assert rs[1..][1..][0] == rs[2];
    assert rs[1..][1..][1..][0] == rs[3];
    assert rs[1..][1..][1..][1..][0] == rs[4];
  }

  /** A React module goes to the vendor chunk whatever else its path contains. */
  lemma ReactGoesToVendor(id: string)
    requires Includes(id, "node_modules/react/") || Includes(id, "node_modules/react-dom/")
    ensures ManualChunks(id) == Some(ReactVendor)
  {
  }

  /** `react-router` does not contain `react/`: a router module lands in the router chunk. */
  lemma ReactRouterIsNotVendor(id: string)
    requires id == "node_modules/react-router/index.js"
    ensures ManualChunks(id) == Some(Router)
  {
    NoReactFragment(id);
    NoFramerFragment(id);
    NoReactIconsFragment(id);
    NoLucideFragment(id);
    NoRadixFragment(id);
    assert OccursAt(id, "node_modules/react-router/", 0);
    RouterChunkWhenOnlyRouterMatches(id);
  }

  /** The router rule decides when no earlier fragment occurs and `react-router/` does. */
  lemma RouterChunkWhenOnlyRouterMatches(id: string)
    requires !Includes(id, "node_modules/react/") && !Includes(id, "node_modules/react-dom/")
    requires !Includes(id, "node_modules/framer-motion/")
    requires !Includes(id, "node_modules/react-icons/") && !Includes(id, "node_modules/lucide-react/")
    requires !Includes(id, "node_modules/@radix-ui/")
    requires Includes(id, "node_modules/react-router/")
    ensures ManualChunks(id) == Some(Router)
  {
  }

  /*
   * One lemma per fragment of the earlier rules: each applies `NotIncludedBeyondFirst`
   * to the router id once, which keeps each proof obligation small.
   */

  lemma NoReactFragment(id: string)
    requires id == "node_modules/react-router/index.js"
    ensures !Includes(id, "node_modules/react/") && !Includes(id, "node_modules/react-dom/")
  {
    NotIncludedBeyondFirst(id, "node_modules/react/", 18);
    NotIncludedBeyondFirst(id, "node_modules/react-dom/", 19);
  }

  lemma NoFramerFragment(id: string)
    requires id == "node_modules/react-router/index.js"
    ensures !Includes(id, "node_modules/framer-motion/")
  {
    NotIncludedBeyondFirst(id, "node_modules/framer-motion/", 13);
  }

  lemma NoReactIconsFragment(id: string)
    requires id == "node_modules/react-router/index.js"
    ensures !Includes(id, "node_modules/react-icons/")
  {
    NotIncludedBeyondFirst(id, "node_modules/react-icons/", 19);
  }

  lemma NoLucideFragment(id: string)
    requires id == "node_modules/react-router/index.js"
    ensures !Includes(id, "node_modules/lucide-react/")
  {
    NotIncludedBeyondFirst(id, "node_modules/lucide-react/", 13);
  }

  lemma NoRadixFragment(id: string)
    requires id == "node_modules/react-router/index.js"
    ensures !Includes(id, "node_modules/@radix-ui/")
  {
    NotIncludedBeyondFirst(id, "node_modules/@radix-ui/", 13);
  }

  /**
   * In the id above, a fragment that starts with `n` and is longer than 13 characters
   * can only occur at position 0, and it does not occur there when it differs from
   * the id at some position `d`.
   */
  lemma NotIncludedBeyondFirst(id: string, frag: string, d: nat)
    requires id == "node_modules/react-router/index.js"
    requires |frag| > 13 && frag[0] == 'n'
    requires d < |frag| && d < |id| && id[d] != frag[d]
    ensures !Includes(id, frag)
  {
    forall i: nat ensures !OccursAt(id, frag, i) {
      if i == 0 {
        NotAtStart(id, frag, d);
      } else {
        NotAfterStart(id, frag, i);
      }
    }
  }

  lemma NotAtStart(id: string, frag: string, d: nat)
    requires d < |frag| && d < |id| && id[d] != frag[d]
    ensures !OccursAt(id, frag, 0)
  {
  }

  lemma NotAfterStart(id: string, frag: string, i: nat)
    requires id == "node_modules/react-router/index.js"
    requires |frag| > 13 && frag[0] == 'n'
    requires 0 < i
    ensures !OccursAt(id, frag, i)
  {
    if i + |frag| <= |id| {
      assert id[i..i + |frag|][0] == id[i] != 'n';
    }
  }

  /** Build plugins: `react()` always, `componentTagger()` only in development mode. */
  datatype Plugin = React | ComponentTagger

  /** The plugin array before `.filter(Boolean)`: `mode === 'development' && componentTagger()` is `false` otherwise. */
  function PluginEntries(mode: string): seq<Option<Plugin>>
  {
    [Some(React), if mode == "development" then Some(ComponentTagger) else None]
  }

  /** `.filter(Boolean)`: keeps the present entries, in order. */
  function Present(xs: seq<Option<Plugin>>): (r: seq<Plugin>)
    ensures |r| <= |xs|
    ensures forall x :: x in r <==> Some(x) in xs
    ensures xs != [] && xs[0].Some? ==> r != [] && r[0] == xs[0].value
  {
    if xs == [] then []
    else if xs[0].Some? then [xs[0].value] + Present(xs[1..])
    else Present(xs[1..])
  }

  function Plugins(mode: string): seq<Plugin>
  {
    Present(PluginEntries(mode))
  }

  /** The tagger is built in exactly in development mode, and the React plugin always comes first. */
  lemma TaggerOnlyInDevelopment(mode: string)
    ensures ComponentTagger in Plugins(mode) <==> mode == "development"
    ensures Plugins(mode)[0] == React
  {
    var es := PluginEntries(mode);
    assert es[1..][1..] == [];
  }

  /**
   * The `@` alias: an import path `@` or `@/rest` resolves to the project's `src`
   * directory (`path.resolve(__dirname, "./src")`, given here as `srcDir`).
   */
  function ResolveAlias(importPath: string, srcDir: string): string
  {
    if |importPath| > 0 && importPath[0] == '@' && (|importPath| == 1 || importPath[1] == '/') then
      srcDir + importPath[1..]
    else
      importPath
  }

  /** `@/rest` lands under the source directory; a path that does not start with `@` is left alone. */
  lemma AliasResolvesIntoSrc(rest: string, other: string, srcDir: string)
    requires |other| == 0 || other[0] != '@' || (|other| >= 2 && other[1] != '/')
    ensures ResolveAlias("@/" + rest, srcDir) == srcDir + "/" + rest
    ensures ResolveAlias("@", srcDir) == srcDir
    ensures ResolveAlias(other, srcDir) == other
  {
    assert ("@/" + rest)[1..] == "/" + rest;
    assert "@"[1..] == [];
  }
}
