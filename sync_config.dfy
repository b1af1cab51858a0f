/** scripts/sync-config.ts: each app's `deno.json` is its base template with the shared sections
    of the root `deno.json` laid over it and the two import maps merged. Files are parameters:
    the parsed root config, and a reader that gives an app's parsed base template or `None`
    when it cannot be read or parsed. */
module SyncConfig {
  import opened Wrappers

  /** A JSON value. */
  datatype Json = JNull | JBool(b: bool) | JNum(n: int) | JStr(s: string) | JArr(items: seq<Json>) | JObj(fields: map<string, Json>)

  type Config = map<string, Json>

  /** JavaScript truthiness of a JSON value. */
  predicate Truthy(v: Json) {
    match v
    case JNull => false
    case JBool(b) => b
    case JNum(n) => n != 0
    case JStr(s) => s != ""
    case _ => true
  }

  /** `config[key]` is present and truthy. */
  predicate Has(c: Config, key: string) { key in c && Truthy(c[key]) }

  const Sections := ["fmt", "lint", "compilerOptions"]
  const ImportsKey := "imports"
  const AppPaths := ["apps/worker", "apps/api-fresh"]

  /** mergeImports: `{...shared, ...base}`, an absent argument counting as `{}`. */
  function MergeImports(base: Option<map<string, Json>>, shared: Option<map<string, Json>>): (m: map<string, Json>)
    ensures m.Keys == base.GetOr(map[]).Keys + shared.GetOr(map[]).Keys
    ensures forall k :: k in base.GetOr(map[]) ==> m[k] == base.GetOr(map[])[k]
    ensures forall k :: k in shared.GetOr(map[]) && k !in base.GetOr(map[]) ==> m[k] == shared.GetOr(map[])[k]
  {
    shared.GetOr(map[]) + base.GetOr(map[])
  }

  /** Merging is the identity on both sides once the other is absent. */
  lemma MergeWithAbsent(m: map<string, Json>)
    ensures MergeImports(Some(m), None) == m && MergeImports(None, Some(m)) == m
    ensures MergeImports(None, None) == map[]
  {
  }

  /** A config's import map as mergeImports receives it: an object, or absent. */
  function ImportsOf(c: Config): Option<map<string, Json>> {
    if ImportsKey in c && c[ImportsKey].JObj? then Some(c[ImportsKey].fields) else None
  }

  /** Overlay the first `n` shared sections of `root` onto `config`. */
  function OverlaySections(root: Config, config: Config, n: nat): Config
    requires n <= |Sections|
  {
    if n == 0 then config
    else
      var c := OverlaySections(root, config, n - 1);
      if Has(root, Sections[n - 1]) then c[Sections[n - 1] := root[Sections[n - 1]]] else c
  }

  lemma {:induction false} OverlayFacts(root: Config, base: Config, n: nat)
    requires n <= |Sections|
    ensures OverlaySections(root, base, n).Keys == base.Keys + (set i | 0 <= i < n && Has(root, Sections[i]) :: Sections[i])
    ensures forall i :: 0 <= i < n && Has(root, Sections[i]) ==> OverlaySections(root, base, n)[Sections[i]] == root[Sections[i]]
    ensures forall k :: k in base && (forall i :: 0 <= i < n ==> k != Sections[i] || !Has(root, k)) ==>
              OverlaySections(root, base, n)[k] == base[k]
  {
    if n > 0 {
      OverlayFacts(root, base, n - 1);
      var before := set i | 0 <= i < n - 1 && Has(root, Sections[i]) :: Sections[i];
      var after := set i | 0 <= i < n && Has(root, Sections[i]) :: Sections[i];
      assert after == before + (if Has(root, Sections[n - 1]) then {Sections[n - 1]} else {});
    }
  }

  /** `finalConfig` for one app:
      - a shared section comes from the root when the root's is truthy, and otherwise stays as
        in the base (or absent);
      - `imports` is the merge when either side has truthy imports, and otherwise as in the base;
      - every other base key survives unchanged and no other root key is copied. */
  function AppConfig(root: Config, base: Config): (f: Config)
    ensures forall s :: s in Sections && Has(root, s) ==> s in f && f[s] == root[s]
    ensures forall s :: s in Sections && !Has(root, s) ==> (s in f <==> s in base) && (s in base ==> f[s] == base[s])
    ensures Has(root, ImportsKey) || Has(base, ImportsKey) ==>
              ImportsKey in f && f[ImportsKey] == JObj(MergeImports(ImportsOf(base), ImportsOf(root)))
    ensures !(Has(root, ImportsKey) || Has(base, ImportsKey)) ==>
              (ImportsKey in f <==> ImportsKey in base) && (ImportsKey in base ==> f[ImportsKey] == base[ImportsKey])
    ensures forall k :: k !in Sections && k != ImportsKey ==> (k in f <==> k in base) && (k in base ==> f[k] == base[k])
  {
    OverlayFacts(root, base, |Sections|);
    assert forall k :: k in Sections <==> k == Sections[0] || k == Sections[1] || k == Sections[2];
    assert ImportsKey !in Sections;
    var c := OverlaySections(root, base, |Sections|);
    if Has(root, ImportsKey) || Has(base, ImportsKey)
    then c[ImportsKey := JObj(MergeImports(ImportsOf(base), ImportsOf(root)))]
    else c
  }

  /** The loop that builds `finalConfig`: copy the base, overlay each shared section the root
      has, then merge the imports. */
  method ComposeAppConfig(root: Config, base: Config) returns (finalConfig: Config)
    ensures finalConfig == AppConfig(root, base)
  {
    finalConfig := base;
    for i := 0 to |Sections|
      invariant finalConfig == OverlaySections(root, base, i)
    {
      var section := Sections[i];
      if Has(root, section) {
        finalConfig := finalConfig[section := root[section]];
      }
    }
    if Has(root, ImportsKey) || Has(base, ImportsKey) {
      finalConfig := finalConfig[ImportsKey := JObj(MergeImports(ImportsOf(base), ImportsOf(root)))];
    }
  }

  /** missingSharedSections: the shared sections the root lacks (or has falsy), in order. */
  function MissingSharedSections(root: Config): (missing: seq<string>)
    ensures forall s :: s in missing <==> s in Sections && !Has(root, s)
    ensures |missing| <= |Sections|
  {
    MissingAmong(root, Sections)
  }

  function MissingAmong(root: Config, sections: seq<string>): (missing: seq<string>)
    ensures forall s :: s in missing <==> s in sections && !Has(root, s)
    ensures |missing| <= |sections|
  {
    if sections == [] then []
    else (if Has(root, sections[0]) then [] else [sections[0]]) + MissingAmong(root, sections[1..])
  }

  /** A root with every shared section is reported complete, and one that lacks all three reports
      them in the order fmt, lint, compilerOptions. */
  lemma MissingSectionsOrder(root: Config)
    ensures (forall s :: s in Sections ==> Has(root, s)) ==> MissingSharedSections(root) == []
    ensures (forall s :: s in Sections ==> !Has(root, s)) ==> MissingSharedSections(root) == Sections
  {
    MissingAmongExtremes(root, Sections);
  }

  lemma {:induction false} MissingAmongExtremes(root: Config, sections: seq<string>)
    ensures (forall i :: 0 <= i < |sections| ==> Has(root, sections[i])) ==> MissingAmong(root, sections) == []
    ensures (forall i :: 0 <= i < |sections| ==> !Has(root, sections[i])) ==> MissingAmong(root, sections) == sections
  {
    if sections != [] {
      MissingAmongExtremes(root, sections[1..]);
      assert [sections[0]] + sections[1..] == sections;
    }
  }

  /** The report keeps the order of the sections: it filters each part of the list in turn. */
  lemma {:induction false} MissingAmongAppend(root: Config, a: seq<string>, b: seq<string>)
    ensures MissingAmong(root, a + b) == MissingAmong(root, a) + MissingAmong(root, b)
  {
    if a != [] {
      assert (a + b)[1..] == a[1..] + b;
      MissingAmongAppend(root, a[1..], b);
    } else {
      assert a + b == b;
    }
  }

  /** The file written for one app. */
  datatype Written = Written(path: string, config: Config)

  /** The files the script writes, in the order of `AppPaths`; an app whose base cannot be read
      is skipped. */
  function Outputs(root: Config, readBase: string -> Option<Config>, paths: seq<string>): seq<Written> {
    if paths == [] then []
    else
      var rest := Outputs(root, readBase, paths[1..]);
      match readBase(paths[0] + "/base-deno.json")
      case None => rest
      case Some(base) => [Written(paths[0] + "/deno.json", AppConfig(root, base))] + rest
  }

  /** syncSharedConfig's loop over the apps; the warning list it prints comes first. */
  method SyncSharedConfig(root: Config, readBase: string -> Option<Config>)
    returns (missing: seq<string>, written: seq<Written>)
    ensures missing == MissingSharedSections(root)
    ensures written == Outputs(root, readBase, AppPaths)
  {
    missing := MissingSharedSections(root);
    written := [];
    for i := 0 to |AppPaths|
      invariant written + Outputs(root, readBase, AppPaths[i..]) == Outputs(root, readBase, AppPaths)
    {
      var appPath := AppPaths[i];
      assert AppPaths[i..][1..] == AppPaths[i + 1..];
      var base := readBase(appPath + "/base-deno.json");
      if base.Some? {
        var finalConfig := ComposeAppConfig(root, base.value);
        written := written + [Written(appPath + "/deno.json", finalConfig)];
      }
    }
  }

  /** Every written file is a merge of a readable base, and each readable app gets one, in order. */
  lemma OutputsFacts(root: Config, readBase: string -> Option<Config>, paths: seq<string>)
    ensures |Outputs(root, readBase, paths)| <= |paths|
    ensures (forall i :: 0 <= i < |paths| ==> readBase(paths[i] + "/base-deno.json").Some?) ==>
              |Outputs(root, readBase, paths)| == |paths| &&
              forall i :: 0 <= i < |paths| ==>
                Outputs(root, readBase, paths)[i] == Written(paths[i] + "/deno.json", AppConfig(root, readBase(paths[i] + "/base-deno.json").value))
  {
    if paths != [] {
      OutputsFacts(root, readBase, paths[1..]);
    }
  }
}
