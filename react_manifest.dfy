/**
 * The React package manifest, lib/templates/react/vite.config.js (an EJS
 * template for `package.json` despite its name). The rendered text is
 * modelled as the record it denotes: scalar fields, and the `scripts`,
 * `dependencies` and `devDependencies` objects as ordered lists of entries.
 */
module ReactManifest {
  import opened Common
  import Validators
  import Config

  /** A `"key": "value"` member of a JSON object. */
  datatype Entry = Entry(key: string, value: string)

  datatype Manifest = Manifest(
    name: string, isPrivate: bool, version: string,
    scripts: seq<Entry>, dependencies: seq<Entry>, devDependencies: seq<Entry>)

  /** EJS's `<%= %>` escaping of one character. */
  function EscapeChar(c: char): string
  {
    if c == '&' then "&amp;"
    else if c == '<' then "&lt;"
    else if c == '>' then "&gt;"
    else if c == '"' then "&#34;"
    else if c == '\'' then "&#39;"
    else [c]
  }

  /** EJS's `<%= %>` escaping of a string, character by character. */
  function Escape(s: string): string
  {
    if s == [] then [] else EscapeChar(s[0]) + Escape(s[1..])
  }

  /** The template rendered with `projectName`, `jest` and `typescript`. */
  function Render(projectName: string, jest: bool, typescript: bool): Manifest
  {
    Manifest(
      Escape(projectName), true, "1.0.0",
      [Entry("dev", "vite"), Entry("build", "vite build"), Entry("preview", "vite preview")]
        + (if jest then [Entry("test", "jest")] else []),
      [Entry("react", "^18.2.0"), Entry("react-dom", "^18.2.0")],
      [Entry("@vitejs/plugin-react", "^4.2.1"), Entry("vite", "^5.0.8")]
        + (if typescript then [Entry("typescript", "^5.3.0")] else [])
        + (if jest then [Entry("jest", "^29.7.0")] else []))
  }

  /** The keys of an object, in order. The ensures only spell out the
      comprehension for the solver's benefit. */
  function Keys(es: seq<Entry>): (ks: seq<string>)
    ensures |ks| == |es|
    ensures forall i :: 0 <= i < |es| ==> ks[i] == es[i].key
  {
    seq(|es|, i requires 0 <= i < |es| => es[i].key)
  }

  /** The value of a key, the first member with that key winning. */
  function Lookup(es: seq<Entry>, key: string): Option<string>
  {
    if es == [] then None
    else if es[0].key == key then Some(es[0].value)
    else Lookup(es[1..], key)
  }

  /** No key occurs twice. */
  predicate DistinctKeys(es: seq<Entry>)
  {
    forall i, j :: 0 <= i < j < |es| ==> es[i].key != es[j].key
  }

  /** A key is found exactly when it occurs, and then with the value of a member
      that has it. */
  lemma {:induction false} LookupFinds(es: seq<Entry>, key: string)
    ensures Lookup(es, key).Some? <==> key in Keys(es)
    ensures Lookup(es, key).Some? ==> Entry(key, Lookup(es, key).value) in es
  {
    if es != [] {
      LookupFinds(es[1..], key);
      assert Keys(es) == [es[0].key] + Keys(es[1..]);
    }
  }

  /** Looking up in a concatenation looks in the first part, then the second. */
  lemma {:induction false} LookupAppend(xs: seq<Entry>, ys: seq<Entry>, key: string)
    ensures Lookup(xs + ys, key) == if key in Keys(xs) then Lookup(xs, key) else Lookup(ys, key)
  {
    if xs == [] {
      assert xs + ys == ys;
    } else {
      assert (xs + ys)[1..] == xs[1..] + ys;
      assert Keys(xs) == [xs[0].key] + Keys(xs[1..]);
      LookupAppend(xs[1..], ys, key);
      LookupFinds(xs, key);
    }
  }

  /** Characters that EJS escapes are left alone when absent. */
  lemma {:induction false} EscapeIdentity(s: string)
    requires forall i :: 0 <= i < |s| ==> s[i] !in "&<>\"'"
    ensures Escape(s) == s
  {
    if s != [] {
      assert s[0] !in "&<>\"'";
      EscapeIdentity(s[1..]);
    }
  }

  /** The manifest is private and at version 1.0.0, whatever the inputs. */
  lemma PrivateAndVersion(projectName: string, jest: bool, typescript: bool)
    ensures Render(projectName, jest, typescript).isPrivate
    ensures Render(projectName, jest, typescript).version == "1.0.0"
  {
  }

  /** For every name the validator accepts, the manifest's name is the project
      name itself. */
  lemma ManifestHeader(projectName: string, jest: bool, typescript: bool)
    requires Validators.ValidateProjectName(projectName) == Common.Ok
    ensures Render(projectName, jest, typescript).name == projectName
  {
    forall i | 0 <= i < |projectName| ensures projectName[i] !in "&<>\"'" {
      Validators.AcceptedNameIsAscii(projectName, i);
    }
    EscapeIdentity(projectName);
  }

  /** A name with an HTML-special character is not copied verbatim. */
  lemma EscapedName()
    ensures Render("a&b", false, false).name == "a&amp;b"
  {
  }

  /** dev, build and preview are always there, a test script exactly when jest
      is on, and nothing else. */
  lemma Scripts(projectName: string, jest: bool, typescript: bool)
    ensures var s := Render(projectName, jest, typescript).scripts;
            && Keys(s) == ["dev", "build", "preview"] + (if jest then ["test"] else [])
            && DistinctKeys(s)
            && Lookup(s, "dev") == Some("vite")
            && Lookup(s, "build") == Some("vite build")
            && Lookup(s, "preview") == Some("vite preview")
            && (Lookup(s, "test").Some? <==> jest)
            && (jest ==> Lookup(s, "test") == Some("jest"))
  {
    var base := [Entry("dev", "vite"), Entry("build", "vite build"), Entry("preview", "vite preview")];
    var extra := if jest then [Entry("test", "jest")] else [];
    assert Keys(base) == ["dev", "build", "preview"];
    LookupAppend(base, extra, "dev");
    LookupAppend(base, extra, "build");
    LookupAppend(base, extra, "preview");
    LookupAppend(base, extra, "test");
    LookupFinds(base, "test");
  }

  /** The typescript flag never changes the scripts. */
  lemma ScriptsIgnoreTypescript(projectName: string, jest: bool)
    ensures Render(projectName, jest, true).scripts == Render(projectName, jest, false).scripts
  {
  }

  /** The dependencies are react and react-dom at ^18.2.0 whatever the flags,
      the same names, in the same order, as the react entry of the template
      table. */
  lemma Dependencies(projectName: string, jest: bool, typescript: bool)
    ensures Render(projectName, jest, typescript).dependencies ==
              [Entry("react", "^18.2.0"), Entry("react-dom", "^18.2.0")]
    ensures Keys(Render(projectName, jest, typescript).dependencies) == Config.TemplateConfigs["react"].dependencies
  {
  }

  /** The development dependencies: plugin-react and vite always, then
      typescript exactly when the typescript flag is on, then jest exactly when
      the jest flag is on, each key once. */
  lemma DevDependencyKeys(projectName: string, jest: bool, typescript: bool)
    ensures var dd := Render(projectName, jest, typescript).devDependencies;
            && Keys(dd) == ["@vitejs/plugin-react", "vite"]
                             + (if typescript then ["typescript"] else [])
                             + (if jest then ["jest"] else [])
            && DistinctKeys(dd)
  {
  }

  /** The versions the development dependencies are pinned to, and which of
      them are present. */
  lemma DevDependencyVersions(projectName: string, jest: bool, typescript: bool)
    ensures var dd := Render(projectName, jest, typescript).devDependencies;
            && Lookup(dd, "@vitejs/plugin-react") == Some("^4.2.1")
            && Lookup(dd, "vite") == Some("^5.0.8")
            && (Lookup(dd, "typescript").Some? <==> typescript)
            && (typescript ==> Lookup(dd, "typescript") == Some("^5.3.0"))
            && (Lookup(dd, "jest").Some? <==> jest)
            && (jest ==> Lookup(dd, "jest") == Some("^29.7.0"))
  {
    var base := [Entry("@vitejs/plugin-react", "^4.2.1"), Entry("vite", "^5.0.8")];
    var ts := if typescript then [Entry("typescript", "^5.3.0")] else [];
    var js := if jest then [Entry("jest", "^29.7.0")] else [];
    assert Keys(base) == ["@vitejs/plugin-react", "vite"];
    LookupFinds(js, "typescript");
    LookupFinds(ts, "jest");
    LookupFinds(base, "typescript");
    LookupFinds(base, "jest");
    assert Keys(base + ts) == Keys(base) + Keys(ts);
    forall k | k in ["@vitejs/plugin-react", "vite", "typescript", "jest"]
      ensures Lookup(base + ts + js, k) == if k in Keys(base + ts) then Lookup(base + ts, k) else Lookup(js, k)
      ensures Lookup(base + ts, k) == if k in Keys(base) then Lookup(base, k) else Lookup(ts, k)
    {
      LookupAppend(base + ts, js, k);
      LookupAppend(base, ts, k);
    }
  }

  /** Without the optional ones, the development dependencies are the react
      table entry's, listed in the other order. */
  lemma DevDependenciesMatchTable(projectName: string)
    ensures var base := Keys(Render(projectName, false, false).devDependencies);
            && multiset(base) == multiset(Config.TemplateConfigs["react"].devDependencies)
            && base != Config.TemplateConfigs["react"].devDependencies
  {
    var base := Keys(Render(projectName, false, false).devDependencies);
    assert base == ["@vitejs/plugin-react", "vite"];
    assert base[0] != Config.TemplateConfigs["react"].devDependencies[0];
  }
}
