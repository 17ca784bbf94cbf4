/**
 * The simplified scaffolder, `express-quick-setup`: three answers, five directories created
 * in a loop, and up to six files written at the project root. Nothing is validated, and
 * every failure ends in the `.catch(console.error)` of the last line, so the process exits
 * with status 0 whatever happens.
 */
module ExpressQuickSetup {
  import opened Wrappers
  import opened JsStrings
  import opened Paths
  import opened Artifacts
  import opened NodeFs
  import Full = CreateExpressProject

  /** The answers to the three questions, in the order they are asked. */
  datatype QuickAnswers = QuickAnswers(projectName: string, useTypeScript: string, packageManager: string)

  datatype QuickSpec = QuickSpec(name: string, useTypeScript: bool, packageManager: string)

  /** Both outcomes exit with status 0: a thrown error is only logged. */
  datatype QuickOutcome =
    | QuickCreated(nextSteps: seq<string>)
    | QuickFailed  // an `fs` call threw; the rest of the run is skipped

  // ---------------------------------------------------------------- answers

  /**
   * `toLowerCase() === 'y'` for the language, `|| 'npm'` for the manager. The name is used as
   * typed, and any non-empty manager answer is kept verbatim.
   */
  function QuickResolve(a: QuickAnswers): (s: QuickSpec)
    ensures s.name == a.projectName
    ensures s.useTypeScript <==> a.useTypeScript == "y" || a.useTypeScript == "Y"
    ensures s.packageManager != ""
    ensures a.packageManager != "" ==> s.packageManager == a.packageManager
  {
    LowerIsLetter(a.useTypeScript, 'y');
    QuickSpec(
      a.projectName,
      Lower(a.useTypeScript) == "y",
      if a.packageManager == "" then "npm" else a.packageManager)
  }

  /**
   * The two scaffolders read the TypeScript answer in opposite ways: an empty answer or
   * `yes` means TypeScript to the full generator and JavaScript here, and only `y` and `Y`
   * mean TypeScript to both.
   */
  lemma TypeScriptDefaultsDiffer(a: QuickAnswers)
    ensures QuickResolve(a).useTypeScript ==> Full.YesByDefault(a.useTypeScript)
    ensures a.useTypeScript == "" || a.useTypeScript == "yes" ==>
              !QuickResolve(a).useTypeScript && Full.YesByDefault(a.useTypeScript)
  {
  }

  /** An empty name is not rejected: the project is scaffolded into the working directory itself. */
  lemma QuickRootPlacement(cwd: Path, projectName: string)
    ensures projectName == "" ==> Join(cwd, projectName) == cwd
    ensures IsPlainSegment(projectName) ==> Join(cwd, projectName) == cwd + [projectName]
  {
    if projectName == "" {
      JoinEmpty(cwd);
    }
    if IsPlainSegment(projectName) {
      JoinPlainName(cwd, projectName);
    }
  }

  // -------------------------------------------------------------- directories

  /** The directories the loop creates: the strings handed to `path.join`, as their segments. */
  const QuickDirs: seq<Path> := [["src"], ["src", "routes"], ["src", "controllers"], ["src", "models"], ["public"]]

  /** Written with separators, they are the strings of the source's array. */
  lemma QuickDirsAsWritten()
    ensures |QuickDirs| == 5
    ensures Slashed(QuickDirs[0]) == "src" && Slashed(QuickDirs[1]) == "src/routes"
    ensures Slashed(QuickDirs[2]) == "src/controllers" && Slashed(QuickDirs[3]) == "src/models"
    ensures Slashed(QuickDirs[4]) == "public"
  {
  }

  lemma QuickDirsPlain()
    ensures forall k | 0 <= k < |QuickDirs| :: |QuickDirs[k]| > 0 && IsNormal(QuickDirs[k])
  {
  }

  /** The same directories below the project root. */
  function QuickLayout(root: Path): set<Path> {
    {root + ["src"], root + ["src", "routes"], root + ["src", "controllers"], root + ["src", "models"], root + ["public"]}
  }

  /** The directories that exist after `mkdirSync` with `recursive` for each of `dirs` below `root`. */
  function MadeDirs(root: Path, dirs: seq<Path>): set<Path>
    decreases |dirs|
  {
    if dirs == [] then {}
    else MadeDirs(root, dirs[..|dirs| - 1]) + Ancestors(root + dirs[|dirs| - 1])
  }

  /** One more `mkdirSync` adds the ancestors of its directory. */
  lemma MadeDirsStep(root: Path, dirs: seq<Path>, n: nat)
    requires 0 < n <= |dirs|
    ensures MadeDirs(root, dirs[..n]) == MadeDirs(root, dirs[..n - 1]) + Ancestors(root + dirs[n - 1])
  {
    assert dirs[..n][..n - 1] == dirs[..n - 1];
  }

  /** The ancestors of a directory two levels below the root. */
  lemma AncestorsTwoDown(root: Path, dir: string, sub: string)
    ensures Ancestors(root + [dir, sub]) == Ancestors(root) + {root + [dir], root + [dir, sub]}
  {
    AncestorsOfChild(root, dir);
    AncestorsOfChild(root + [dir], sub);
    assert root + [dir] + [sub] == root + [dir, sub];
  }

  /** The set algebra of the five steps below, on any element type. */
  lemma FiveSteps<T>(anc: set<T>, top: T, ab: T, ac: T, ad: T, e: T,
                     x1: set<T>, x2: set<T>, x3: set<T>, x4: set<T>, x5: set<T>)
    requires x1 == anc + {top} && x2 == anc + {top, ab} && x3 == anc + {top, ac}
    requires x4 == anc + {top, ad} && x5 == anc + {e}
    ensures {} + x1 + x2 + x3 + x4 + x5 == anc + {top, ab, ac, ad, e}
  {
  }

  /** Making `a`, `a/b`, `a/c`, `a/d` and `e` in turn creates exactly those and the root's ancestors. */
  lemma MadeFolderAndSiblings(root: Path, a: string, b: string, c: string, d: string, e: string)
    ensures MadeDirs(root, [[a], [a, b], [a, c], [a, d], [e]])
            == Ancestors(root) + {root + [a], root + [a, b], root + [a, c], root + [a, d], root + [e]}
  {
    var dirs := [[a], [a, b], [a, c], [a, d], [e]];
    MadeDirsStep(root, dirs, 1);
    MadeDirsStep(root, dirs, 2);
    MadeDirsStep(root, dirs, 3);
    MadeDirsStep(root, dirs, 4);
    assert dirs[..0] == [];
    AncestorsOfChild(root, a);
    AncestorsTwoDown(root, a, b);
    AncestorsTwoDown(root, a, c);
    AncestorsTwoDown(root, a, d);
    AncestorsOfChild(root, e);
    FiveSteps(Ancestors(root), root + [a], root + [a, b], root + [a, c], root + [a, d], root + [e],
              Ancestors(root + [a]), Ancestors(root + [a, b]), Ancestors(root + [a, c]),
              Ancestors(root + [a, d]), Ancestors(root + [e]));
  }

  /** The loop creates the project root, everything above it, and the layout. */
  lemma QuickDirsMade(root: Path)
    ensures MadeDirs(root, QuickDirs) == Ancestors(root) + QuickLayout(root)
  {
    MadeFolderAndSiblings(root, "src", "routes", "controllers", "models", "public");
  }

  /** Every directory of the list is among those made, with all its ancestors. */
  lemma {:induction false} MadeDirsCover(root: Path, dirs: seq<Path>, k: nat)
    requires k < |dirs|
    ensures Ancestors(root + dirs[k]) <= MadeDirs(root, dirs)
    decreases |dirs|
  {
    if k < |dirs| - 1 {
      var init := dirs[..|dirs| - 1];
      assert init[k] == dirs[k];
      MadeDirsCover(root, init, k);
    }
  }

  /** With no file on the root's way or in the layout, none stands on the way to any directory of the loop. */
  lemma QuickDirsClear(files: map<Path, Content>, root: Path)
    requires (Ancestors(root) + QuickLayout(root)) !! files.Keys
    ensures forall k | 0 <= k < |QuickDirs| :: NoFileAlong(files, root + QuickDirs[k])
  {
    QuickDirsMade(root);
    forall k | 0 <= k < |QuickDirs| ensures NoFileAlong(files, root + QuickDirs[k]) {
      MadeDirsCover(root, QuickDirs, k);
      var p := root + QuickDirs[k];
      forall i | 0 <= i <= |p| ensures p[..i] !in files {
        assert p[..i] in Ancestors(p);
      }
    }
  }

  /** `fs.mkdirSync(path.join(root, dir), { recursive: true })` for a `dir` written as its segments. */
  method MakeJoinedDir(fs: FileSystem, root: Path, dir: Path) returns (ok: bool)
    requires fs.Valid() && |dir| > 0 && IsNormal(dir)
    modifies fs
    ensures fs.Valid() && fs.files == old(fs.files)
    ensures ok == NoFileAlong(old(fs.files), root + dir)
    ensures fs.dirs == if ok then old(fs.dirs) + Ancestors(root + dir) else old(fs.dirs)
  {
    JoinSlashed(root, dir);
    ok := fs.MakeDirectory(Join(root, Slashed(dir)));
  }

  /** The directories found clear so far, and one more. */
  lemma ClearOneMore(files: map<Path, Content>, root: Path, dirs: seq<Path>, i: nat)
    requires i < |dirs|
    requires forall k | 0 <= k < i :: NoFileAlong(files, root + dirs[k])
    requires NoFileAlong(files, root + dirs[i])
    ensures forall k | 0 <= k < i + 1 :: NoFileAlong(files, root + dirs[k])
  {
  }

  /**
   * How many of `dirs`, from the first, can be created under `root`: the loop in
   * `MakeEachDir` stops at the first one with a file in its way.
   */
  function ClearPrefix(files: map<Path, Content>, root: Path, dirs: seq<Path>): (n: nat)
    ensures n <= |dirs|
    ensures forall k | 0 <= k < n :: NoFileAlong(files, root + dirs[k])
    ensures n < |dirs| ==> !NoFileAlong(files, root + dirs[n])
  {
    if dirs == [] || !NoFileAlong(files, root + dirs[0]) then 0
    else 1 + ClearPrefix(files, root, dirs[1..])
  }

  /** The directories made by a prefix of the loop are among those the whole loop makes. */
  lemma {:induction false} MadeDirsPrefix(root: Path, dirs: seq<Path>, n: nat)
    requires n <= |dirs|
    ensures MadeDirs(root, dirs[..n]) <= MadeDirs(root, dirs)
    decreases |dirs| - n
  {
    if n == |dirs| {
      assert dirs[..n] == dirs;
    } else {
      MadeDirsStep(root, dirs, n + 1);
      MadeDirsPrefix(root, dirs, n + 1);
    }
  }

  /**
   * `dirs.forEach(dir => fs.mkdirSync(path.join(root, dir), { recursive: true }))`, with each
   * `dir` given by its segments. `mkdirSync` throws at the first directory with a file on its
   * way, which ends the loop.
   */
  method MakeEachDir(fs: FileSystem, root: Path, dirs: seq<Path>) returns (ok: bool)
    requires fs.Valid()
    requires forall k | 0 <= k < |dirs| :: |dirs[k]| > 0 && IsNormal(dirs[k])
    modifies fs
    ensures fs.Valid() && fs.files == old(fs.files)
    ensures ok <==> forall k | 0 <= k < |dirs| :: NoFileAlong(old(fs.files), root + dirs[k])
    ensures ok ==> fs.dirs == old(fs.dirs) + MadeDirs(root, dirs)
    ensures fs.dirs == old(fs.dirs) + MadeDirs(root, dirs[..ClearPrefix(old(fs.files), root, dirs)])
  {
    var i := 0;
    while i < |dirs|
      invariant 0 <= i <= ClearPrefix(old(fs.files), root, dirs)
      invariant fs.Valid() && fs.files == old(fs.files)
      invariant forall k | 0 <= k < i :: NoFileAlong(old(fs.files), root + dirs[k])
      invariant fs.dirs == old(fs.dirs) + MadeDirs(root, dirs[..i])
    {
      ok := MakeJoinedDir(fs, root, dirs[i]);
      if !ok {
        return;
      }
      ClearOneMore(old(fs.files), root, dirs, i);
      MadeDirsStep(root, dirs, i + 1);
      i := i + 1;
    }
    ok := true;
    assert dirs[..i] == dirs;
  }

  /** The directory step of `quickSetup`: the loop over the five directories below `root`. */
  method MakeQuickDirs(fs: FileSystem, root: Path) returns (ok: bool)
    requires fs.Valid()
    modifies fs
    ensures fs.Valid() && fs.files == old(fs.files)
    ensures ok ==> root in fs.dirs && fs.dirs == old(fs.dirs) + Ancestors(root) + QuickLayout(root)
    ensures (Ancestors(root) + QuickLayout(root)) !! old(fs.files).Keys ==> ok
    ensures fs.dirs == old(fs.dirs) + MadeDirs(root, QuickDirs[..ClearPrefix(old(fs.files), root, QuickDirs)])
    ensures old(fs.dirs) <= fs.dirs <= old(fs.dirs) + Ancestors(root) + QuickLayout(root)
  {
    if (Ancestors(root) + QuickLayout(root)) !! fs.files.Keys {
      QuickDirsClear(fs.files, root);
    }
    QuickDirsMade(root);
    QuickDirsPlain();
    ok := MakeEachDir(fs, root, QuickDirs);
    MadeDirsPrefix(root, QuickDirs, ClearPrefix(old(fs.files), root, QuickDirs));
  }

  // ------------------------------------------------------------------ files

  const QuickDependencies := map[
    "express" := "^5.1.0",
    "cors" := "^2.8.5",
    "dotenv" := "^17.2.1"]

  const QuickDevDependencies := map[
    "@types/express" := "^5.0.3",
    "@types/cors" := "^2.8.19",
    "@types/node" := "^24.1.0",
    "nodemon" := "^3.1.10",
    "ts-node" := "^10.9.2",
    "typescript" := "^5.9.2"]

  /** The `pkg` object written to `package.json`: no metadata, and development dependencies only for TypeScript. */
  function QuickPackageJson(projectName: string, useTypeScript: bool): (r: PackageJson)
    ensures r.name == projectName && r.version == "1.0.0"
    ensures r.description.None? && r.keywords.None? && r.author.None? && r.license.None?
    ensures r.main == "dist/index.js" <==> useTypeScript
    ensures !useTypeScript ==> r.main == EntryName(false)
    ensures r.scripts.Keys == {"start", "dev"} + (if useTypeScript then {"build"} else {})
    ensures r.scripts["start"] == "node " + r.main
    ensures useTypeScript ==> r.scripts["dev"] == "nodemon" && r.scripts["build"] == "tsc"
    ensures !useTypeScript ==> r.scripts["dev"] == "nodemon " + r.main
    ensures r.dependencies.Keys == {"express", "cors", "dotenv"}
    ensures r.devDependencies.Some? <==> useTypeScript
    ensures useTypeScript ==>
              r.devDependencies.value.Keys == {"@types/express", "@types/cors", "@types/node", "nodemon", "ts-node", "typescript"}
  {
    Full.EntryNames();
    assert "node " + "dist/index.js" == "node dist/index.js";
    assert "node " + "index.js" == "node index.js";
    assert "nodemon " + "index.js" == "nodemon index.js";
    var scripts := map[
      "start" := if useTypeScript then "node dist/index.js" else "node index.js",
      "dev" := if useTypeScript then "nodemon" else "nodemon index.js"];
    PackageJson(
      projectName,
      "1.0.0",
      None,
      if useTypeScript then "dist/index.js" else "index.js",
      if useTypeScript then scripts["build" := "tsc"] else scripts,
      None,
      None,
      None,
      QuickDependencies,
      if useTypeScript then Some(QuickDevDependencies) else None)
  }

  /**
   * Against `templates.packageJson` of the full generator for the same name and language:
   * the same name, version, entry point, and scripts but `test`.
   */
  lemma QuickManifestScriptsLikeFull(projectName: string, useTypeScript: bool)
    ensures var quick := QuickPackageJson(projectName, useTypeScript);
            var full := Full.PackageJsonTemplate(projectName, useTypeScript, !useTypeScript);
            && quick.name == full.name && quick.version == full.version && quick.main == full.main
            && quick.scripts == full.scripts - {"test"}
  {
    var quick := QuickPackageJson(projectName, useTypeScript);
    var full := Full.PackageJsonTemplate(projectName, useTypeScript, !useTypeScript);
    assert quick.scripts == full.scripts - {"test"};
  }

  /** The quick manifest's dependencies are a strict subset of the full generator's, at the same versions. */
  lemma QuickDependenciesWithinFull(projectName: string, useTypeScript: bool)
    ensures var quick := QuickPackageJson(projectName, useTypeScript);
            var full := Full.PackageJsonTemplate(projectName, useTypeScript, !useTypeScript);
            && quick.dependencies.Keys < full.dependencies.Keys
            && forall d | d in quick.dependencies :: full.dependencies[d] == quick.dependencies[d]
  {
    var full := Full.PackageJsonTemplate(projectName, useTypeScript, !useTypeScript);
    assert "jsonwebtoken" in full.dependencies && "jsonwebtoken" !in QuickDependencies;
  }

  /**
   * For TypeScript, so are its development dependencies: the full generator adds the type
   * definitions of `jsonwebtoken` and `bcryptjs`.
   */
  lemma QuickDevDependenciesWithinFull(projectName: string)
    ensures var quick := QuickPackageJson(projectName, true);
            var full := Full.PackageJsonTemplate(projectName, true, false);
            && quick.devDependencies.value.Keys < full.devDependencies.value.Keys
            && forall d | d in quick.devDependencies.value ::
                 full.devDependencies.value[d] == quick.devDependencies.value[d]
  {
    var full := Full.PackageJsonTemplate(projectName, true, false);
    assert "@types/jsonwebtoken" in full.devDependencies.value && "@types/jsonwebtoken" !in QuickDevDependencies;
  }

  /**
   * Without TypeScript the `dev` script runs `nodemon`, yet the manifest lists nodemon
   * nowhere: unlike the full generator's JavaScript manifest, it has no development dependencies.
   */
  lemma JavaScriptDevNeedsGlobalNodemon(projectName: string)
    ensures var quick := QuickPackageJson(projectName, false);
            && quick.scripts["dev"][..7] == "nodemon"
            && "nodemon" !in quick.dependencies && quick.devDependencies.None?
    ensures var full := Full.PackageJsonTemplate(projectName, false, true);
            full.devDependencies.Some? && "nodemon" in full.devDependencies.value
  {
    Full.EntryNames();
  }

  /** The `nodemonConfig` object, written only for TypeScript. */
  function QuickNodemonJson(): (r: NodemonConfig)
    ensures r.watch == ["src", EntryName(true)] && r.ext == Ext(true)
    ensures r.exec == "ts-node " + EntryName(true)
    ensures r.ignore.None?
  {
    Full.EntryNames();
    NodemonConfig(["src", "index.ts"], "ts", None, "ts-node index.ts")
  }

  /** It is the full generator's TypeScript variant without the `ignore` list. */
  lemma QuickNodemonLikeFull()
    ensures QuickNodemonJson() == Full.NodemonTemplate(true).(ignore := None)
  {
  }

  const QuickEnvText := "PORT=3000\nNODE_ENV=development\n"
  const QuickGitignoreText := "node_modules/\n.env\ndist/\n*.log\n"

  /** Every file `quickSetup` writes, by path, in write order. */
  function QuickFiles(spec: QuickSpec, root: Path): map<Path, Content> {
    var ts := spec.useTypeScript;
    var head := map[root + ["package.json"] := QuickManifest(spec.name, ts), root + [EntryName(ts)] := QuickEntry(ts)];
    var configured := if ts then head[root + ["tsconfig.json"] := QuickTsConfig][root + ["nodemon.json"] := QuickNodemon] else head;
    configured[root + [".env"] := Text(QuickEnvText)][root + [".gitignore"] := Text(QuickGitignoreText)]
  }

  /** The names of the files written at the project root. */
  function QuickRootNames(useTypeScript: bool): set<string> {
    {"package.json", EntryName(useTypeScript), ".env", ".gitignore"}
    + (if useTypeScript then {"tsconfig.json", "nodemon.json"} else {})
  }

  /** The files written are exactly those named by `QuickRootNames`, at the project root. */
  lemma QuickFilesAtRoot(spec: QuickSpec, root: Path, name: string)
    ensures root + [name] in QuickFiles(spec, root) <==> name in QuickRootNames(spec.useTypeScript)
  {
    ChildrenInjective(root, name, "package.json");
    ChildrenInjective(root, name, EntryName(spec.useTypeScript));
    ChildrenInjective(root, name, "tsconfig.json");
    ChildrenInjective(root, name, "nodemon.json");
    ChildrenInjective(root, name, ".env");
    ChildrenInjective(root, name, ".gitignore");
  }

  /** Nothing is written anywhere but directly in the project root. */
  lemma QuickFilesOnlyAtRoot(spec: QuickSpec, root: Path)
    ensures forall p | p in QuickFiles(spec, root) :: |p| == |root| + 1 && Parent(p) == root
  {
    var ts := spec.useTypeScript;
    forall p | p in QuickFiles(spec, root) ensures |p| == |root| + 1 && Parent(p) == root {
      var n :| n in QuickRootNames(ts) && p == root + [n];
      ParentOfChild(root, n);
    }
  }

  /** `tsconfig.json` and `nodemon.json` exactly for TypeScript; the entry point in the chosen language only. */
  lemma QuickFilesFollowLanguage(spec: QuickSpec, root: Path)
    ensures root + ["tsconfig.json"] in QuickFiles(spec, root) <==> spec.useTypeScript
    ensures root + ["nodemon.json"] in QuickFiles(spec, root) <==> spec.useTypeScript
    ensures root + [EntryName(spec.useTypeScript)] in QuickFiles(spec, root)
    ensures root + [EntryName(!spec.useTypeScript)] !in QuickFiles(spec, root)
  {
    Full.EntryNames();
    assert "index.ts"[6] != "index.js"[6];
    QuickFilesAtRoot(spec, root, "tsconfig.json");
    QuickFilesAtRoot(spec, root, "nodemon.json");
    QuickFilesAtRoot(spec, root, EntryName(!spec.useTypeScript));
  }

  /** `.env` and `.gitignore` are always written, with fixed text; the manifest carries the name as typed. */
  lemma QuickFixedFiles(spec: QuickSpec, root: Path)
    ensures QuickFiles(spec, root)[root + ["package.json"]] == QuickManifest(spec.name, spec.useTypeScript)
    ensures QuickFiles(spec, root)[root + [".env"]] == Text("PORT=3000\nNODE_ENV=development\n")
    ensures QuickFiles(spec, root)[root + [".gitignore"]] == Text("node_modules/\n.env\ndist/\n*.log\n")
  {
    ChildrenInjective(root, "package.json", EntryName(spec.useTypeScript));
    ChildrenInjective(root, "package.json", "tsconfig.json");
    ChildrenInjective(root, "package.json", "nodemon.json");
    ChildrenInjective(root, "package.json", ".env");
    ChildrenInjective(root, "package.json", ".gitignore");
    ChildrenInjective(root, ".env", ".gitignore");
  }

  /**
   * The quick setup writes a subset of the root files of the full generator for the same
   * language: `nodemon.json` is missing for JavaScript, and there is never a README.
   */
  lemma QuickRootFilesWithinFull(spec: Full.ProjectSpec)
    ensures QuickRootNames(spec.useTypeScript) <= Full.RootNames(spec)
    ensures Full.RootNames(spec) - QuickRootNames(spec.useTypeScript)
              == (if spec.useTypeScript then {} else {"nodemon.json"}) + (if spec.includeReadme then {"README.md"} else {})
  {
    Full.EntryNames();
  }

  /** No directory stands where one of the files must go. */
  lemma QuickNamesFree(spec: QuickSpec, root: Path, dirs: set<Path>)
    requires QuickFiles(spec, root).Keys !! dirs
    ensures root + ["package.json"] !in dirs && root + [EntryName(spec.useTypeScript)] !in dirs
    ensures spec.useTypeScript ==> root + ["tsconfig.json"] !in dirs && root + ["nodemon.json"] !in dirs
    ensures root + [".env"] !in dirs && root + [".gitignore"] !in dirs
  {
    assert root + ["package.json"] in QuickFiles(spec, root);
    assert root + [EntryName(spec.useTypeScript)] in QuickFiles(spec, root);
    assert root + [".env"] in QuickFiles(spec, root);
    assert root + [".gitignore"] in QuickFiles(spec, root);
    if spec.useTypeScript {
      assert root + ["tsconfig.json"] in QuickFiles(spec, root);
      assert root + ["nodemon.json"] in QuickFiles(spec, root);
    }
  }

  /** Where each `writeFileSync` of `quickSetup` lands in `QuickFiles`: the six paths are different. */
  lemma QuickEntries(spec: QuickSpec, root: Path)
    ensures var ts := spec.useTypeScript;
            var files := QuickFiles(spec, root);
      && root + ["package.json"] in files && files[root + ["package.json"]] == QuickManifest(spec.name, ts)
      && root + [EntryName(ts)] in files && files[root + [EntryName(ts)]] == QuickEntry(ts)
      && (ts ==> root + ["tsconfig.json"] in files && files[root + ["tsconfig.json"]] == QuickTsConfig)
      && (ts ==> root + ["nodemon.json"] in files && files[root + ["nodemon.json"]] == QuickNodemon)
      && root + [".env"] in files && files[root + [".env"]] == Text(QuickEnvText)
      && root + [".gitignore"] in files && files[root + [".gitignore"]] == Text(QuickGitignoreText)
  {
    var ts := spec.useTypeScript;
    Full.EntryNames();
    ChildrenInjective(root, "package.json", EntryName(ts));
    ChildrenInjective(root, "package.json", "tsconfig.json");
    ChildrenInjective(root, "package.json", "nodemon.json");
    ChildrenInjective(root, "package.json", ".env");
    ChildrenInjective(root, "package.json", ".gitignore");
    ChildrenInjective(root, EntryName(ts), "tsconfig.json");
    ChildrenInjective(root, EntryName(ts), "nodemon.json");
    ChildrenInjective(root, EntryName(ts), ".env");
    ChildrenInjective(root, EntryName(ts), ".gitignore");
    ChildrenInjective(root, "tsconfig.json", "nodemon.json");
    ChildrenInjective(root, "tsconfig.json", ".env");
    ChildrenInjective(root, "tsconfig.json", ".gitignore");
    ChildrenInjective(root, "nodemon.json", ".env");
    ChildrenInjective(root, "nodemon.json", ".gitignore");
    ChildrenInjective(root, ".env", ".gitignore");
  }

  /** The `writeFileSync` calls, in order; the first one that throws ends the run. */
  method WriteQuickFiles(fs: FileSystem, spec: QuickSpec, root: Path) returns (ok: bool)
    requires fs.Valid()
    modifies fs
    ensures fs.Valid() && fs.dirs == old(fs.dirs)
    ensures ok ==> fs.files == old(fs.files) + QuickFiles(spec, root)
    ensures PartlyWritten(old(fs.files), fs.files, QuickFiles(spec, root))
    ensures root in old(fs.dirs) && QuickFiles(spec, root).Keys !! old(fs.dirs) ==> ok
  {
    var ts := spec.useTypeScript;
    ghost var written: map<Path, Content> := map[];
    assert fs.files == old(fs.files) + written;
    if QuickFiles(spec, root).Keys !! fs.dirs {
      QuickNamesFree(spec, root, fs.dirs);
    }
    QuickEntries(spec, root);
    ghost var target := QuickFiles(spec, root);
    ok := WriteInto(fs, root, "package.json", QuickManifest(spec.name, ts), old(fs.files), written, target);
    if !ok { return; }
    written := written[root + ["package.json"] := QuickManifest(spec.name, ts)];
    ok := WriteInto(fs, root, EntryName(ts), QuickEntry(ts), old(fs.files), written, target);
    if !ok { return; }
    written := written[root + [EntryName(ts)] := QuickEntry(ts)];
    if ts {
      ok := WriteInto(fs, root, "tsconfig.json", QuickTsConfig, old(fs.files), written, target);
      if !ok { return; }
      written := written[root + ["tsconfig.json"] := QuickTsConfig];
      ok := WriteInto(fs, root, "nodemon.json", QuickNodemon, old(fs.files), written, target);
      if !ok { return; }
      written := written[root + ["nodemon.json"] := QuickNodemon];
    }
    ok := WriteInto(fs, root, ".env", Text(QuickEnvText), old(fs.files), written, target);
    if !ok { return; }
    written := written[root + [".env"] := Text(QuickEnvText)];
    ok := WriteInto(fs, root, ".gitignore", Text(QuickGitignoreText), old(fs.files), written, target);
    if !ok { return; }
    written := written[root + [".gitignore"] := Text(QuickGitignoreText)];
    assert written == QuickFiles(spec, root);
  }

  // ------------------------------------------------------------------- run

  /** The three lines printed after "Project created!". */
  function QuickNextSteps(spec: QuickSpec): seq<string> {
    ["cd " + spec.name, spec.packageManager + " install", spec.packageManager + " run dev"]
  }

  /**
   * The quick setup never installs, so its steps are those of a full run that skipped the
   * installation, without the numbering.
   */
  lemma QuickNextStepsLikeFull(quick: QuickSpec, full: Full.ProjectSpec)
    requires quick.name == full.name && quick.packageManager == Full.ManagerName(full.packageManager)
    requires !full.installDeps
    ensures var steps := QuickNextSteps(quick);
            Full.NextSteps(full) == ["1. " + steps[0], "2. " + steps[1], "3. " + steps[2]]
  {
    var pm := quick.packageManager;
    assert "1. cd " + quick.name == "1. " + ("cd " + quick.name);
    assert "2. " + pm + " install" == "2. " + (pm + " install");
    assert "3. " + pm + " run dev" == "3. " + (pm + " run dev");
  }

  /** Nothing on disk is in the way: no file where a directory must go, no directory where a file must go. */
  predicate QuickReady(dirs: set<Path>, files: map<Path, Content>, spec: QuickSpec, root: Path) {
    && (Ancestors(root) + QuickLayout(root)) !! files.Keys
    && QuickFiles(spec, root).Keys !! dirs + Ancestors(root) + QuickLayout(root)
  }

  /**
   * `quickSetup` after the prompts: creates the directories, writes the files and reports
   * the next steps. A thrown error stops it where it happens.
   */
  method QuickSetup(fs: FileSystem, cwd: Path, answers: QuickAnswers) returns (outcome: QuickOutcome)
    requires fs.Valid()
    modifies fs
    ensures fs.Valid()
    ensures outcome.QuickCreated? ==>
              var spec := QuickResolve(answers);
              var root := Join(cwd, answers.projectName);
              && fs.dirs == old(fs.dirs) + Ancestors(root) + QuickLayout(root)
              && fs.files == old(fs.files) + QuickFiles(spec, root)
              && outcome.nextSteps == QuickNextSteps(spec)
    ensures var root := Join(cwd, answers.projectName);
            && old(fs.dirs) <= fs.dirs <= old(fs.dirs) + Ancestors(root) + QuickLayout(root)
            && PartlyWritten(old(fs.files), fs.files, QuickFiles(QuickResolve(answers), root))
    ensures QuickReady(old(fs.dirs), old(fs.files), QuickResolve(answers), Join(cwd, answers.projectName)) ==>
              outcome.QuickCreated?
  {
    var spec := QuickResolve(answers);
    var root := Join(cwd, answers.projectName);
    var ok := MakeQuickDirs(fs, root);
    if !ok {
      PartOfBatch(fs.files, map[], QuickFiles(spec, root));
      return QuickFailed;
    }
    ok := WriteQuickFiles(fs, spec, root);
    if !ok {
      return QuickFailed;
    }
    outcome := QuickCreated(QuickNextSteps(spec));
  }
}
