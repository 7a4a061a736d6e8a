/** The two readers of the plugin directory: the strict loader that starts
    plugins and the best-effort inspector that shows them. Both see one snapshot
    of the directory, sorted by path. */
module Manifests {
  import opened Wrappers
  import opened Text

  datatype Definition = Definition(
    id: Option<string>,
    sourceName: Option<string>,
    argv: seq<string>,
    env: map<string, string>,
    envFrom: seq<string>)

  datatype Contents = Unreadable | NotAManifest | Manifest(definition: Definition)

  datatype File = File(isJson: bool, stem: Option<string>, contents: Contents)

  datatype LoadError = Io | Json | Discovery

  datatype Plugin = Plugin(id: string, argv: seq<string>, env: map<string, string>)

  datatype EnvError = InvalidName(name: string) | Repeated(name: string) | InBoth(name: string)

  datatype Problem = ReadFailed | BadJson | EmptyArgv | Environment(error: EnvError) | EmptyId | MissingId | DuplicateId

  datatype Status = Valid | Invalid

  datatype Inspection = Inspection(id: Option<string>, status: Status, errors: seq<Problem>)

  // ---------------------------------------------------------------------
  // Environment declarations
  // ---------------------------------------------------------------------

  predicate Letter(c: char) {
    'a' <= c <= 'z' || 'A' <= c <= 'Z'
  }

  predicate ValidName(s: string) {
    && s != "" && (Letter(s[0]) || s[0] == '_')
    && forall i :: 0 <= i < |s| ==> Letter(s[i]) || '0' <= s[i] <= '9' || s[i] == '_'
  }

  predicate DeclaredBefore(inherited: seq<string>, i: nat)
    requires i < |inherited|
  {
    exists j :: 0 <= j < i && Upper(inherited[j]) == Upper(inherited[i])
  }

  predicate DeclaredLiterally(literal: map<string, string>, key: string) {
    exists k :: k in literal && Upper(k) == Upper(key)
  }

  /** What is wrong with the `i`-th inherited name. */
  function EnvErrorsAt(literal: map<string, string>, inherited: seq<string>, i: nat): seq<EnvError>
    requires i < |inherited|
  {
    (if ValidName(inherited[i]) then [] else [InvalidName(inherited[i])])
    + (if DeclaredBefore(inherited, i) then [Repeated(inherited[i])] else [])
    + (if DeclaredLiterally(literal, inherited[i]) then [InBoth(inherited[i])] else [])
  }

  function EnvErrors(literal: map<string, string>, inherited: seq<string>, n: nat): seq<EnvError>
    requires n <= |inherited|
  {
    if n == 0 then [] else EnvErrors(literal, inherited, n - 1) + EnvErrorsAt(literal, inherited, n - 1)
  }

  /** `environment_declaration_errors`. */
  method EnvironmentDeclarationErrors(literal: map<string, string>, inherited: seq<string>)
    returns (errors: seq<EnvError>)
    ensures errors == EnvErrors(literal, inherited, |inherited|)
  {
    errors := [];
    var literalNames := set k | k in literal :: Upper(k);
    var seen: set<string> := {};
    for i := 0 to |inherited|
      invariant errors == EnvErrors(literal, inherited, i)
      invariant seen == set j | 0 <= j < i :: Upper(inherited[j])
    {
      var key := inherited[i];
      var normalized := Upper(key);
      assert normalized in seen <==> DeclaredBefore(inherited, i);
      assert normalized in literalNames <==> DeclaredLiterally(literal, key);
      ghost var before := errors;
      if !ValidName(key) {
        errors := errors + [InvalidName(key)];
      }
      if normalized in seen {
        errors := errors + [Repeated(key)];
      }
      seen := seen + {normalized};
      if normalized in literalNames {
        errors := errors + [InBoth(key)];
      }
      assert errors == before + EnvErrorsAt(literal, inherited, i);
    }
  }

  /** Every inherited name is valid, and no two declarations of either kind
      name one variable, letter case aside. */
  predicate EnvironmentSound(literal: map<string, string>, inherited: seq<string>) {
    && (forall i :: 0 <= i < |inherited| ==> ValidName(inherited[i]))
    && (forall i, j :: 0 <= i < j < |inherited| ==> Upper(inherited[i]) != Upper(inherited[j]))
    && (forall i, k :: 0 <= i < |inherited| && k in literal ==> Upper(k) != Upper(inherited[i]))
  }

  lemma {:induction false} EnvErrorsEmpty(literal: map<string, string>, inherited: seq<string>, n: nat)
    requires n <= |inherited|
    ensures EnvErrors(literal, inherited, n) == [] <==>
              forall i :: 0 <= i < n ==> EnvErrorsAt(literal, inherited, i) == []
  {
    if n > 0 {
      EnvErrorsEmpty(literal, inherited, n - 1);
    }
  }

  lemma EnvironmentErrorsExactly(literal: map<string, string>, inherited: seq<string>)
    ensures EnvErrors(literal, inherited, |inherited|) == [] <==> EnvironmentSound(literal, inherited)
  {
    EnvErrorsEmpty(literal, inherited, |inherited|);
    if EnvironmentSound(literal, inherited) {
      forall i | 0 <= i < |inherited|
        ensures EnvErrorsAt(literal, inherited, i) == []
      {
      }
    } else if forall i :: 0 <= i < |inherited| ==> EnvErrorsAt(literal, inherited, i) == [] {
      forall i | 0 <= i < |inherited|
        ensures ValidName(inherited[i]) && !DeclaredBefore(inherited, i) && !DeclaredLiterally(literal, inherited[i])
      {
        assert EnvErrorsAt(literal, inherited, i) == [];
      }
    }
  }

  // ---------------------------------------------------------------------
  // One manifest
  // ---------------------------------------------------------------------

  function IdOf(f: File): Option<string> {
    if !f.contents.Manifest? then None
    else
      var d := f.contents.definition;
      if d.id.Some? then d.id else if d.sourceName.Some? then d.sourceName else f.stem
  }

  /** Sound by itself, duplicates aside. */
  predicate FileSound(f: File) {
    && f.contents.Manifest?
    && f.contents.definition.argv != []
    && EnvironmentSound(f.contents.definition.env, f.contents.definition.envFrom)
    && IdOf(f).Some? && Trim(IdOf(f).value) != ""
  }

  function EnvironmentProblems(errors: seq<EnvError>): (r: seq<Problem>)
    ensures r == [] <==> errors == []
  {
    seq(|errors|, i requires 0 <= i < |errors| => Environment(errors[i]))
  }

  function IdProblems(id: Option<string>): seq<Problem> {
    if id.None? then [MissingId] else if Trim(id.value) == "" then [EmptyId] else []
  }

  /** What the inspector finds in one file. */
  function OwnProblems(f: File): seq<Problem> {
    match f.contents
    case Unreadable => [ReadFailed]
    case NotAManifest => [BadJson]
    case Manifest(d) =>
      (if d.argv == [] then [EmptyArgv] else [])
      + EnvironmentProblems(EnvErrors(d.env, d.envFrom, |d.envFrom|)) + IdProblems(IdOf(f))
  }

  lemma OwnProblemsEmpty(f: File)
    ensures OwnProblems(f) == [] <==> FileSound(f)
  {
    if f.contents.Manifest? {
      EnvironmentErrorsExactly(f.contents.definition.env, f.contents.definition.envFrom);
    }
  }

  // ---------------------------------------------------------------------
  // The strict loader
  // ---------------------------------------------------------------------

  predicate DistinctIds(files: seq<File>) {
    forall i, j :: 0 <= i < j < |files| ==> IdOf(files[i]) != IdOf(files[j])
  }

  /** What the loader asks of the directory. */
  predicate Loadable(files: seq<File>) {
    (forall i :: 0 <= i < |files| ==> FileSound(files[i])) && DistinctIds(files)
  }

  function JsonFiles(files: seq<File>): seq<File> {
    if files == [] then []
    else
      var last := files[|files| - 1];
      JsonFiles(files[..|files| - 1]) + if last.isJson then [last] else []
  }

  /** The literal variables, and the inherited ones that the process has. */
  ghost predicate Merged(
    env: map<string, string>, envFrom: seq<string>, process: map<string, string>, merged: map<string, string>)
  {
    && (forall k :: k in merged <==> k in env || (k in envFrom && k in process))
    && (forall k :: k in merged ==> merged[k] == if k in envFrom && k in process then process[k] else env[k])
  }

  method InheritEnvironment(env: map<string, string>, envFrom: seq<string>, process: map<string, string>)
    returns (merged: map<string, string>)
    ensures Merged(env, envFrom, process, merged)
  {
    merged := env;
    for i := 0 to |envFrom|
      invariant Merged(env, envFrom[..i], process, merged)
    {
      assert envFrom[..i + 1] == envFrom[..i] + [envFrom[i]];
      if envFrom[i] in process {
        merged := merged[envFrom[i] := process[envFrom[i]]];
      }
    }
    assert envFrom[..|envFrom|] == envFrom;
  }

  ghost predicate Loads(f: File, process: map<string, string>, plugin: Plugin) {
    && FileSound(f) && IdOf(f) == Some(plugin.id) && plugin.argv == f.contents.definition.argv
    && Merged(f.contents.definition.env, f.contents.definition.envFrom, process, plugin.env)
  }

  /** The loader's checks of one file, before ids are compared. */
  method LoadFile(f: File, process: map<string, string>) returns (r: Result<Plugin, LoadError>)
    ensures r.Ok? <==> FileSound(f)
    ensures r.Ok? ==> Loads(f, process, r.value)
  {
    match f.contents
    case Unreadable => r := Err(Io);
    case NotAManifest => r := Err(Json);
    case Manifest(d) =>
      if d.argv == [] {
        return Err(Discovery);
      }
      var errors := EnvironmentDeclarationErrors(d.env, d.envFrom);
      EnvironmentErrorsExactly(d.env, d.envFrom);
      if errors != [] {
        return Err(Discovery);
      }
      var env := InheritEnvironment(d.env, d.envFrom, process);
      var id := IdOf(f);
      if id.None? || Trim(id.value) == "" {
        return Err(Discovery);
      }
      r := Ok(Plugin(id.value, d.argv, env));
  }

  ghost predicate AllLoad(files: seq<File>, process: map<string, string>, plugins: seq<Plugin>) {
    |plugins| == |files| && forall i :: 0 <= i < |files| ==> Loads(files[i], process, plugins[i])
  }

  ghost predicate Seen(files: seq<File>, seen: set<string>) {
    forall id :: id in seen <==> exists j :: 0 <= j < |files| && IdOf(files[j]) == Some(id)
  }

  lemma SeenNext(
    files: seq<File>, i: nat, process: map<string, string>, plugins: seq<Plugin>, plugin: Plugin, seen: set<string>)
    requires i < |files| && DistinctIds(files[..i]) && AllLoad(files[..i], process, plugins) && Seen(files[..i], seen)
    requires Loads(files[i], process, plugin)
    ensures AllLoad(files[..i + 1], process, plugins + [plugin]) && Seen(files[..i + 1], seen + {plugin.id})
    ensures plugin.id !in seen <==> DistinctIds(files[..i + 1])
  {
    assert files[..i + 1] == files[..i] + [files[i]];
    assert files[..i + 1][i] == files[i];
    if plugin.id in seen {
      var j :| 0 <= j < i && IdOf(files[..i][j]) == Some(plugin.id);
      assert IdOf(files[..i + 1][j]) == IdOf(files[..i + 1][i]);
    }
  }

  /** `discover_plugins`: an id seen before is an error when it is inserted. */
  method DiscoverPlugins(dir: Option<seq<File>>, process: map<string, string>)
    returns (r: Result<seq<Plugin>, LoadError>)
    ensures r.Ok? <==> dir.Some? && Loadable(JsonFiles(dir.value))
    ensures r.Ok? ==> AllLoad(JsonFiles(dir.value), process, r.value)
  {
    if dir.None? {
      return Err(Io);
    }
    var files := JsonFiles(dir.value);
    var plugins: seq<Plugin> := [];
    var seen: set<string> := {};
    for i := 0 to |files|
      invariant AllLoad(files[..i], process, plugins) && DistinctIds(files[..i]) && Seen(files[..i], seen)
    {
      var plugin :- LoadFile(files[i], process);
      SeenNext(files, i, process, plugins, plugin, seen);
      if plugin.id in seen {
        assert !DistinctIds(files);
        return Err(Discovery);
      }
      seen := seen + {plugin.id};
      plugins := plugins + [plugin];
    }
    assert files[..|files|] == files;
    r := Ok(plugins);
  }

  // ---------------------------------------------------------------------
  // The inspector
  // ---------------------------------------------------------------------

  predicate Counted(f: File, id: string) {
    IdOf(f) == Some(id) && Trim(id) != ""
  }

  /** How often a manifest declares this id, sound or not. */
  function IdCount(files: seq<File>, id: string): nat {
    if files == [] then 0
    else IdCount(files[..|files| - 1], id) + if Counted(files[|files| - 1], id) then 1 else 0
  }

  function FinalProblems(files: seq<File>, i: nat): seq<Problem>
    requires i < |files|
  {
    OwnProblems(files[i])
    + if IdOf(files[i]).Some? && IdCount(files, IdOf(files[i]).value) > 1 then [DuplicateId] else []
  }

  function Inspected(files: seq<File>, i: nat): Inspection
    requires i < |files|
  {
    var errors := FinalProblems(files, i);
    Inspection(IdOf(files[i]), if errors == [] then Valid else Invalid, errors)
  }

  function Count(counts: map<string, nat>, id: string): nat {
    if id in counts then counts[id] else 0
  }

  method InspectFile(f: File) returns (errors: seq<Problem>)
    ensures errors == OwnProblems(f)
  {
    match f.contents
    case Unreadable => errors := [ReadFailed];
    case NotAManifest => errors := [BadJson];
    case Manifest(d) =>
      errors := [];
      if d.argv == [] {
        errors := errors + [EmptyArgv];
      }
      var environment := EnvironmentDeclarationErrors(d.env, d.envFrom);
      errors := errors + EnvironmentProblems(environment);
      errors := errors + IdProblems(IdOf(f));
  }

  function FirstLook(f: File): Inspection {
    Inspection(IdOf(f), if f.contents.Manifest? then Valid else Invalid, OwnProblems(f))
  }

  ghost predicate CountsAre(counts: map<string, nat>, files: seq<File>) {
    forall id :: Count(counts, id) == IdCount(files, id)
  }

  /** `*id_counts.entry(id).or_default() += 1`, unless the id is missing or
      blank. */
  function Recounted(counts: map<string, nat>, id: Option<string>): map<string, nat> {
    if id.Some? && Trim(id.value) != "" then counts[id.value := Count(counts, id.value) + 1] else counts
  }

  lemma CountsNext(counts: map<string, nat>, files: seq<File>, i: nat)
    requires i < |files| && CountsAre(counts, files[..i])
    ensures CountsAre(Recounted(counts, IdOf(files[i])), files[..i + 1])
  {
    assert files[..i + 1][..i] == files[..i];
    var next := Recounted(counts, IdOf(files[i]));
    forall id
      ensures Count(next, id) == IdCount(files[..i + 1], id)
    {
      assert Count(counts, id) == IdCount(files[..i], id);
    }
  }

  lemma CountsAll(counts: map<string, nat>, files: seq<File>)
    requires CountsAre(counts, files[..|files|])
    ensures CountsAre(counts, files)
  {
    assert files[..|files|] == files;
  }

  ghost predicate FirstLooks(files: seq<File>, inspections: seq<Inspection>) {
    |inspections| == |files| && forall i :: 0 <= i < |files| ==> inspections[i] == FirstLook(files[i])
  }

  lemma LooksNext(files: seq<File>, i: nat, inspections: seq<Inspection>, next: Inspection)
    requires i < |files| && FirstLooks(files[..i], inspections) && next == FirstLook(files[i])
    ensures FirstLooks(files[..i + 1], inspections + [next])
  {
  }

  /** The first pass: inspect each file and count its id. */
  method InspectEach(files: seq<File>) returns (inspections: seq<Inspection>, counts: map<string, nat>)
    ensures FirstLooks(files, inspections) && CountsAre(counts, files)
  {
    inspections, counts := [], map[];
    for i := 0 to |files|
      invariant FirstLooks(files[..i], inspections) && CountsAre(counts, files[..i])
    {
      var errors := InspectFile(files[i]);
      CountsNext(counts, files, i);
      counts := Recounted(counts, IdOf(files[i]));
      var next := Inspection(IdOf(files[i]), if files[i].contents.Manifest? then Valid else Invalid, errors);
      LooksNext(files, i, inspections, next);
      inspections := inspections + [next];
    }
    CountsAll(counts, files);
    assert files[..|files|] == files;
  }

  /** The second pass, for one entry. */
  function Marked(inspection: Inspection, counts: map<string, nat>): Inspection {
    var errors := inspection.errors
                + if inspection.id.Some? && Count(counts, inspection.id.value) > 1 then [DuplicateId] else [];
    Inspection(inspection.id, if errors != [] then Invalid else inspection.status, errors)
  }

  lemma MarkedIsInspected(files: seq<File>, i: nat, counts: map<string, nat>)
    requires i < |files| && CountsAre(counts, files)
    ensures Marked(FirstLook(files[i]), counts) == Inspected(files, i)
  {
  }

  /** `inspect_plugin_manifests`: count the ids in one pass, mark duplicates in
      a second. */
  method InspectPluginManifests(dir: Option<seq<File>>) returns (r: Result<seq<Inspection>, LoadError>)
    ensures r.Ok? <==> dir.Some?
    ensures r.Ok? ==>
              var files := JsonFiles(dir.value);
              |r.value| == |files| && forall i :: 0 <= i < |files| ==> r.value[i] == Inspected(files, i)
  {
    if dir.None? {
      return Err(Io);
    }
    var files := JsonFiles(dir.value);
    var inspections, counts := InspectEach(files);
    for i := 0 to |files|
      invariant |inspections| == |files|
      invariant forall j :: 0 <= j < i ==> inspections[j] == Inspected(files, j)
      invariant forall j :: i <= j < |files| ==> inspections[j] == FirstLook(files[j])
    {
      MarkedIsInspected(files, i, counts);
      var inspection := inspections[i];
      if inspection.id.Some? && Count(counts, inspection.id.value) > 1 {
        inspection := inspection.(errors := inspection.errors + [DuplicateId]);
      }
      if inspection.errors != [] {
        inspection := inspection.(status := Invalid);
      }
      assert inspection.errors == Marked(inspections[i], counts).errors;
      inspections := inspections[i := inspection];
    }
    r := Ok(inspections);
  }

  // ---------------------------------------------------------------------
  // They agree
  // ---------------------------------------------------------------------

  lemma {:induction false} CountBounds(files: seq<File>, id: string, i: nat)
    requires i < |files| && Counted(files[i], id)
    ensures IdCount(files, id) >= 1
  {
    if i < |files| - 1 {
      CountBounds(files[..|files| - 1], id, i);
    }
  }

  lemma {:induction false} TwoCounted(files: seq<File>, id: string, i: nat, j: nat)
    requires i < j < |files| && Counted(files[i], id) && Counted(files[j], id)
    ensures IdCount(files, id) >= 2
  {
    if j < |files| - 1 {
      TwoCounted(files[..|files| - 1], id, i, j);
    } else {
      CountBounds(files[..|files| - 1], id, i);
    }
  }

  lemma {:induction false} NoneCounted(files: seq<File>, id: string)
    requires forall i :: 0 <= i < |files| ==> !Counted(files[i], id)
    ensures IdCount(files, id) == 0
  {
    if files != [] {
      NoneCounted(files[..|files| - 1], id);
    }
  }

  lemma {:induction false} DistinctCountedOnce(files: seq<File>, id: string)
    requires DistinctIds(files)
    ensures IdCount(files, id) <= 1
  {
    if files != [] {
      var n := |files| - 1;
      if Counted(files[n], id) {
        NoneCounted(files[..n], id);
      } else {
        DistinctCountedOnce(files[..n], id);
      }
    }
  }

  /** The loader accepts a directory exactly when the inspector marks every
      manifest valid; both then list the same ids in the same order, since each
      lists `IdOf` file by file. Refusing an id at its second insertion and
      counting ids beforehand come to the same. */
  lemma LoadersAgree(files: seq<File>)
    ensures Loadable(files) <==> forall i :: 0 <= i < |files| ==> Inspected(files, i).status == Valid
  {
    forall i | 0 <= i < |files|
      ensures OwnProblems(files[i]) == [] <==> FileSound(files[i])
    {
      OwnProblemsEmpty(files[i]);
    }
    if Loadable(files) {
      forall i | 0 <= i < |files|
        ensures Inspected(files, i).status == Valid
      {
        DistinctCountedOnce(files, IdOf(files[i]).value);
      }
    }
    if forall i :: 0 <= i < |files| ==> Inspected(files, i).status == Valid {
      forall i, j | 0 <= i < j < |files|
        ensures IdOf(files[i]) != IdOf(files[j])
      {
        assert Inspected(files, i).status == Valid && Inspected(files, j).status == Valid;
        if IdOf(files[i]) == IdOf(files[j]) {
          TwoCounted(files, IdOf(files[i]).value, i, j);
        }
      }
      forall i | 0 <= i < |files|
        ensures FileSound(files[i])
      {
        assert Inspected(files, i).status == Valid;
      }
    }
  }

  /** Both readers on one snapshot. */
  method ReadBoth(dir: Option<seq<File>>, process: map<string, string>)
    returns (loaded: Result<seq<Plugin>, LoadError>, shown: Result<seq<Inspection>, LoadError>)
    ensures loaded.Ok? <==> shown.Ok? && forall i :: 0 <= i < |shown.value| ==> shown.value[i].status == Valid
    ensures loaded.Ok? ==>
              && |loaded.value| == |shown.value|
              && forall i :: 0 <= i < |loaded.value| ==> shown.value[i].id == Some(loaded.value[i].id)
  {
    loaded := DiscoverPlugins(dir, process);
    shown := InspectPluginManifests(dir);
    if dir.Some? {
      LoadersAgree(JsonFiles(dir.value));
    }
  }
}
