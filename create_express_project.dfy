/**
 * The full generator, `create-express-project`: seven answers become a project
 * specification, and the specification decides which directories are created and which
 * files are written, in a fixed order, before git and the package manager are run.
 */
module CreateExpressProject {
  import opened Wrappers
  import opened JsStrings
  import opened Paths
  import opened Artifacts
  import opened NodeFs

  datatype PackageManager = Npm | Yarn | Pnpm

  function ManagerName(pm: PackageManager): (name: string)
    ensures forall i | 0 <= i < |name| :: IsLowerAsciiLetter(name[i])
  {
    match pm
    case Npm => "npm"
    case Yarn => "yarn"
    case Pnpm => "pnpm"
  }

  /** The answer names the manager `m`, in any mix of letter cases. */
  predicate NamesManager(answer: string, m: PackageManager) {
    EqualsIgnoringCase(answer, ManagerName(m))
  }

  /** The answers to the seven questions, in the order they are asked. */
  datatype Answers = Answers(
    projectName: string,
    useTypeScript: string,
    packageManager: string,
    includeReadme: string,
    includeExamples: string,
    installDeps: string,
    initGit: string)

  /** The resolved choices that drive the rest of the run. */
  datatype ProjectSpec = ProjectSpec(
    name: string,
    useTypeScript: bool,
    packageManager: PackageManager,
    includeReadme: bool,
    includeExamples: bool,
    installDeps: bool,
    initGit: bool)

  /** Why a run ends with exit status 1. */
  datatype Abort =
    | NameRequired     // `process.exit(1)` after "Project name is required!"
    | ConstAssignment  // the TypeError thrown by assigning to the `const packageManager`
    | FileSystemError  // an `fs` call that throws, caught by the same handler

  /** A run that is `Aborted` exits with status 1; one that is `Created` returns normally, with status 0. */
  datatype Outcome =
    | Aborted(reason: Abort)
    | Created(commands: seq<string>, installed: bool, nextSteps: seq<string>)

  // ---------------------------------------------------------------- answers

  /** `answer.toLowerCase() !== 'n'`: every answer but `n` and `N` means yes, the empty one included. */
  function YesByDefault(answer: string): (yes: bool)
    ensures yes <==> answer != "n" && answer != "N"
  {
    LowerIsLetter(answer, 'n');
    Lower(answer) != "n"
  }

  /**
   * `(answer || 'npm').toLowerCase()`, then the membership test against npm, yarn and pnpm.
   * `None` is an answer the source rejects.
   */
  function ParsePackageManager(answer: string): (r: Option<PackageManager>)
    ensures answer == "" ==> r == Some(Npm)
    ensures r.Some? <==> answer == "" || exists m :: NamesManager(answer, m)
    ensures answer != "" && r.Some? ==> NamesManager(answer, r.value)
  {
    var chosen := if answer == "" then "npm" else answer;
    LowerMatches(chosen, "npm");
    LowerMatches(chosen, "yarn");
    LowerMatches(chosen, "pnpm");
    assert NamesManager(answer, Npm) ==> Lower(chosen) == "npm";
    assert NamesManager(answer, Yarn) ==> Lower(chosen) == "yarn";
    assert NamesManager(answer, Pnpm) ==> Lower(chosen) == "pnpm";
    var lowered := Lower(chosen);
    if lowered == "npm" then Some(Npm)
    else if lowered == "yarn" then Some(Yarn)
    else if lowered == "pnpm" then Some(Pnpm)
    else None
  }

  /**
   * The prompt phase of `main`. A blank name stops the run first; an unrecognised package
   * manager then reaches the assignment to a `const`, which throws.
   */
  function Resolve(a: Answers): (r: Result<ProjectSpec, Abort>)
    ensures AllWhitespace(a.projectName) ==> r == Failure(NameRequired)
    ensures r == Failure(ConstAssignment) <==> !AllWhitespace(a.projectName) && ParsePackageManager(a.packageManager).None?
    ensures r.Success? <==> !AllWhitespace(a.projectName) && ParsePackageManager(a.packageManager).Some?
    ensures r.Success? ==>
              && r.value.name == a.projectName
              && r.value.packageManager == ParsePackageManager(a.packageManager).value
              && (r.value.useTypeScript <==> a.useTypeScript != "n" && a.useTypeScript != "N")
              && (r.value.includeReadme <==> a.includeReadme != "n" && a.includeReadme != "N")
              && (r.value.includeExamples <==> a.includeExamples != "n" && a.includeExamples != "N")
              && (r.value.installDeps <==> a.installDeps != "n" && a.installDeps != "N")
              && (r.value.initGit <==> a.initGit != "n" && a.initGit != "N")
  {
    TrimEmptyIffAllWhitespace(a.projectName);
    if Trim(a.projectName) == "" then Failure(NameRequired)
    else
      match ParsePackageManager(a.packageManager)
      case None => Failure(ConstAssignment)
      case Some(pm) =>
        Success(ProjectSpec(
          a.projectName,
          YesByDefault(a.useTypeScript),
          pm,
          YesByDefault(a.includeReadme),
          YesByDefault(a.includeExamples),
          YesByDefault(a.installDeps),
          YesByDefault(a.initGit)))
  }

  /** An answer such as `bun` does not fall back to npm: the run aborts instead. */
  lemma UnknownManagerAborts()
    ensures Resolve(Answers("api", "", "bun", "", "", "", "")) == Failure(ConstAssignment)
  {
    var r := ParsePackageManager("bun");
    assert !NamesManager("bun", Npm) && !NamesManager("bun", Yarn) && !NamesManager("bun", Pnpm);
    assert !AllWhitespace("api") by { assert !IsWhitespace("api"[0]); }
  }

  // -------------------------------------------------------------- templates

  lemma EntryNames()
    ensures EntryName(true) == "index.ts" && EntryName(false) == "index.js"
  {
  }

  const TestScript := "echo \"Error: no test specified\" && exit 1"

  const Dependencies := map[
    "express" := "^5.1.0",
    "cors" := "^2.8.5",
    "dotenv" := "^17.2.1",
    "jsonwebtoken" := "^9.0.0",
    "bcryptjs" := "^2.4.3"]

  const TypeScriptDevDependencies := map[
    "@types/express" := "^5.0.3",
    "@types/cors" := "^2.8.19",
    "@types/node" := "^24.1.0",
    "@types/jsonwebtoken" := "^9.0.0",
    "@types/bcryptjs" := "^2.4.0",
    "nodemon" := "^3.1.10",
    "ts-node" := "^10.9.2",
    "typescript" := "^5.9.2"]

  /**
   * `templates.packageJson`: the manifest with empty description, keywords and author, the
   * ISC licence, and scripts and development dependencies according to the language.
   */
  function PackageJsonTemplate(projectName: string, useTypeScript: bool, includeDevDeps: bool): (r: PackageJson)
    ensures r.name == projectName && r.version == "1.0.0" && r.license == Some("ISC")
    ensures r.main == "dist/index.js" <==> useTypeScript
    ensures !useTypeScript ==> r.main == EntryName(false)
    ensures r.scripts.Keys == {"test", "start", "dev"} + (if useTypeScript then {"build"} else {})
    ensures r.scripts["start"] == "node " + r.main
    ensures useTypeScript ==> r.scripts["dev"] == "nodemon" && r.scripts["build"] == "tsc"
    ensures !useTypeScript ==> r.scripts["dev"] == "nodemon " + r.main
    ensures r.dependencies.Keys == {"express", "cors", "dotenv", "jsonwebtoken", "bcryptjs"}
    ensures r.devDependencies.Some? <==> useTypeScript || includeDevDeps
    ensures useTypeScript ==>
              r.devDependencies.value.Keys == {"@types/express", "@types/cors", "@types/node", "@types/jsonwebtoken",
                                               "@types/bcryptjs", "nodemon", "ts-node", "typescript"}
    ensures !useTypeScript && includeDevDeps ==> r.devDependencies == Some(map["nodemon" := "^3.1.10"])
  {
    EntryNames();
    assert "node " + "dist/index.js" == "node dist/index.js";
    assert "node " + "index.js" == "node index.js";
    assert "nodemon " + "index.js" == "nodemon index.js";
    if useTypeScript then
      PackageJson(
        projectName, "1.0.0", Some(""), "dist/index.js",
        map["test" := TestScript, "start" := "node dist/index.js", "dev" := "nodemon", "build" := "tsc"],
        Some([]), Some(""), Some("ISC"),
        Dependencies, Some(TypeScriptDevDependencies))
    else
      PackageJson(
        projectName, "1.0.0", Some(""), "index.js",
        map["test" := TestScript, "start" := "node index.js", "dev" := "nodemon index.js"],
        Some([]), Some(""), Some("ISC"),
        Dependencies, if includeDevDeps then Some(map["nodemon" := "^3.1.10"]) else None)
  }

  function NodemonTemplate(useTypeScript: bool): (r: NodemonConfig)
    ensures r.ext == Ext(useTypeScript)
    ensures r.watch == ["src", EntryName(useTypeScript)]
    ensures r.exec == (if useTypeScript then "ts-node " else "node ") + EntryName(useTypeScript)
    ensures r.ignore.Some? && ("dist" in r.ignore.value <==> useTypeScript)
    ensures r.ignore == Some(if useTypeScript then ["dist"] else ["node_modules"])
  {
    EntryNames();
    if useTypeScript then
      NodemonConfig(["src", "index.ts"], "ts", Some(["dist"]), "ts-node index.ts")
    else
      NodemonConfig(["src", "index.js"], "js", Some(["node_modules"]), "node index.js")
  }

  /** In a JavaScript project, nodemon's command and the manifest's start script run the same file. */
  lemma DevServerRunsStartScript(projectName: string)
    ensures NodemonTemplate(false).exec == PackageJsonTemplate(projectName, false, true).scripts["start"]
  {
  }

  // ---------------------------------------------------------------- layout

  /** The directories created before any file is written: the root, `src` and five folders in it. */
  function LayoutDirs(root: Path): set<Path> {
    var src := root + ["src"];
    {root, src, src + ["config"], src + ["controllers"], src + ["middlewares"], src + ["routes"], src + ["utils"]}
  }

  /** `path.join(projectPath, 'src/<folder>')`, as `main` names the layout folders. */
  lemma FolderIsJoin(root: Path, folder: string)
    requires IsPlainSegment(folder)
    ensures Join(root, "src/" + folder) == root + ["src"] + [folder]
  {
    assert "src/" + folder == "src" + "/" + folder;
    JoinNested(root, "src", folder);
  }

  lemma SourceNamePlain(stem: string, useTypeScript: bool)
    requires IsPlainSegment(stem)
    ensures IsPlainSegment(SourceName(stem, useTypeScript))
  {
    var name := SourceName(stem, useTypeScript);
    assert name == stem + ("." + Ext(useTypeScript));
    assert forall k | 0 <= k < |name| :: name[k] != '/' by {
      forall k | 0 <= k < |name| ensures name[k] != '/' {
        if k < |stem| {
          assert name[k] == stem[k];
        }
      }
    }
  }

  /**
   * `path.join(projectPath, 'src/<folder>/<stem>.' + ext)`, as `main` names the modules:
   * the same path as the folder's entry `stem.ext`.
   */
  lemma ModuleIsJoin(root: Path, folder: string, stem: string, useTypeScript: bool)
    requires IsPlainSegment(folder) && IsPlainSegment(stem)
    ensures Join(root, "src/" + folder + "/" + stem + "." + Ext(useTypeScript))
            == root + ["src"] + [folder] + [SourceName(stem, useTypeScript)]
  {
    SourceNamePlain(stem, useTypeScript);
    var name := SourceName(stem, useTypeScript);
    assert "src/" + folder + "/" + stem + "." + Ext(useTypeScript) == "src" + "/" + folder + "/" + name;
    JoinNested3(root, "src", folder, name);
  }

  /** Every directory `main` creates under the project root; `src/models` only for the examples. */
  function ProjectDirs(root: Path, includeExamples: bool): set<Path> {
    LayoutDirs(root) + (if includeExamples then {root + ["src"] + ["models"]} else {})
  }

  /** The layout phase followed by the file phase keeps the directories within the project. */
  lemma DirsWithinProject(base: set<Path>, middle: set<Path>, after: set<Path>, root: Path, includeExamples: bool)
    requires base <= middle <= base + Ancestors(root) + LayoutDirs(root)
    requires after == middle || (includeExamples && after == middle + Ancestors(root + ["src"] + ["models"]))
    ensures base <= after <= base + Ancestors(root) + ProjectDirs(root, includeExamples)
  {
    AncestorsOfChild(root, "src");
    AncestorsOfChild(root + ["src"], "models");
  }

  /** The manifest, the entry point, the application and, for TypeScript, `tsconfig.json`, in write order. */
  function HeadFiles(spec: ProjectSpec, root: Path): map<Path, Content> {
    var ts := spec.useTypeScript;
    var first := map[
      root + ["package.json"] := Manifest(spec.name, ts, !ts),
      root + [EntryName(ts)] := Source(Entry, ts),
      root + ["src"] + [SourceName("app", ts)] := Source(App, ts)];
    if ts then first[root + ["tsconfig.json"] := TsConfig] else first
  }

  /** The nodemon configuration and the modules under `src`, in write order. */
  function ModuleFiles(useTypeScript: bool, root: Path): map<Path, Content> {
    var ts := useTypeScript;
    var src := root + ["src"];
    map[
      root + ["nodemon.json"] := Nodemon(ts),
      src + ["config"] + [SourceName("database", ts)] := Source(DatabaseConfig, ts),
      src + ["middlewares"] + [SourceName("auth", ts)] := Source(AuthMiddleware, ts),
      src + ["middlewares"] + [SourceName("errorHandler", ts)] := Source(ErrorHandler, ts),
      src + ["utils"] + [SourceName("logger", ts)] := Source(Logger, ts),
      src + ["routes"] + [SourceName("index", ts)] := Source(RoutesIndex, ts),
      src + ["routes"] + [SourceName("auth", ts)] := Source(AuthRoutes, ts)]
  }

  /** Everything the second phase writes. */
  function SourceFiles(spec: ProjectSpec, root: Path): map<Path, Content> {
    HeadFiles(spec, root) + ModuleFiles(spec.useTypeScript, root)
  }

  /** The example controller and model. */
  function ExampleFiles(useTypeScript: bool, root: Path): map<Path, Content> {
    var src := root + ["src"];
    map[
      src + ["controllers"] + [SourceName("userController", useTypeScript)] := Source(UserController, useTypeScript),
      src + ["models"] + [SourceName("User", useTypeScript)] := Source(UserModel, useTypeScript)]
  }

  /** `.env`, `.gitignore` and, when asked for, the README, in write order. */
  function ExtraFiles(spec: ProjectSpec, root: Path): map<Path, Content> {
    var always := map[root + [".env"] := EnvFile, root + [".gitignore"] := Gitignore];
    if spec.includeReadme then
      always[root + ["README.md"] := Readme(spec.name, spec.useTypeScript, ManagerName(spec.packageManager))]
    else always
  }

  /** Every file `main` writes, by path, with what is written there. */
  function ProjectFiles(spec: ProjectSpec, root: Path): map<Path, Content> {
    if spec.includeExamples then
      SourceFiles(spec, root) + ExampleFiles(spec.useTypeScript, root) + ExtraFiles(spec, root)
    else
      SourceFiles(spec, root) + ExtraFiles(spec, root)
  }

  /** No file stands on the way to the project root or where one of the given directories must go. */
  predicate DirsClear(files: map<Path, Content>, root: Path, dirs: set<Path>) {
    && (forall i | 0 <= i <= |root| :: root[..i] !in files)
    && (forall d | d in dirs :: d !in files)
  }

  /**
   * Nothing on disk is in the way of the run: no file where a directory must go, no
   * directory where a file must go.
   */
  predicate Ready(dirs: set<Path>, files: map<Path, Content>, spec: ProjectSpec, root: Path) {
    && DirsClear(files, root, ProjectDirs(root, spec.includeExamples))
    && ProjectFiles(spec, root).Keys !! dirs
  }

  // ------------------------------------------------------------------ steps

  /** `createDirectory`: `mkdirSync` with `recursive` only when nothing exists at the path yet. */
  method CreateDirectory(fs: FileSystem, p: Path) returns (ok: bool)
    requires fs.Valid()
    modifies fs
    ensures fs.Valid()
    ensures fs.files == old(fs.files)
    ensures old(fs.Exists(p)) ==> ok && fs.dirs == old(fs.dirs)
    ensures !old(fs.Exists(p)) ==> ok == old(fs.NoFileOnPath(p))
    ensures !old(fs.Exists(p)) ==> fs.dirs == if ok then old(fs.dirs) + Ancestors(p) else old(fs.dirs)
    ensures old(fs.NoFileOnPath(p)) ==> ok && fs.dirs == old(fs.dirs) + Ancestors(p)
    ensures old(fs.dirs) <= fs.dirs <= old(fs.dirs) + Ancestors(p)
  {
    if !fs.Exists(p) {
      ok := fs.MakeDirectory(p);
    } else {
      ok := true;
      assert fs.NoFileOnPath(p) ==> Ancestors(p) <= fs.dirs by {
        if fs.NoFileOnPath(p) {
          assert p[..|p|] == p;
          assert p in fs.dirs;
        }
      }
    }
  }

  /** Creating a directory inside an existing one adds exactly that directory. */
  lemma CreatingChild(fs: FileSystem, parent: Path, name: string)
    requires fs.Valid() && parent in fs.dirs && parent + [name] !in fs.files
    ensures fs.NoFileOnPath(parent + [name])
    ensures fs.dirs + Ancestors(parent + [name]) == fs.dirs + {parent + [name]}
  {
    AncestorsOfChild(parent, name);
    fs.NoFileBelowDirectory(parent + [name]);
    forall a | a in Ancestors(parent) ensures a in fs.dirs {
      var i :| 0 <= i <= |parent| && a == parent[..i];
    }
  }

  /** `executeCommand`: whether the command exited with status 0; a failure is reported, not thrown. */
  function ExecuteCommand(command: string, exitsZero: string -> bool): bool {
    exitsZero(command)
  }

  /** The command run to install dependencies. */
  function InstallCommand(pm: PackageManager): (command: string)
    ensures command == ManagerName(pm) + " install"
  {
    if pm == Npm then "npm install" else if pm == Yarn then "yarn install" else "pnpm install"
  }

  const GitCommands := ["git init", "git add .", "git commit -m \"Initial commit\""]

  /** The commands run after the files are written, in order. */
  function Commands(spec: ProjectSpec): (r: seq<string>)
    ensures |r| == (if spec.initGit then |GitCommands| else 0) + (if spec.installDeps then 1 else 0)
    ensures spec.initGit ==> r[..|GitCommands|] == GitCommands
    ensures spec.installDeps ==> r[|r| - 1] == InstallCommand(spec.packageManager)
    ensures InstallCommand(spec.packageManager) in r <==> spec.installDeps
  {
    (if spec.initGit then GitCommands else [])
    + (if spec.installDeps then [InstallCommand(spec.packageManager)] else [])
  }

  /** The "Next steps" lines printed at the end of a successful run. */
  function NextSteps(spec: ProjectSpec): (r: seq<string>)
    ensures |r| == if spec.installDeps then 2 else 3
    ensures r[0] == "1. cd " + spec.name
    ensures r[|r| - 1] == (if spec.installDeps then "2. " else "3. ") + ManagerName(spec.packageManager) + " run dev"
    ensures "2. " + ManagerName(spec.packageManager) + " install" in r <==> !spec.installDeps
  {
    var pm := ManagerName(spec.packageManager);
    var install := "2. " + pm + " install";
    assert ("1. cd " + spec.name)[0] != install[0];
    assert ("2. " + pm + " run dev")[|pm| + 4] != install[|pm| + 4];
    if spec.installDeps then ["1. cd " + spec.name, "2. " + pm + " run dev"]
    else ["1. cd " + spec.name, "2. " + pm + " install", "3. " + pm + " run dev"]
  }

  // ------------------------------------------------------------------- main

  /** Adding the layout directories one at a time, after the root's ancestors, adds the layout. */
  lemma LayoutOneByOne(dirs: set<Path>, root: Path)
    ensures var src := root + ["src"];
            dirs + Ancestors(root) + {src} + {src + ["config"]} + {src + ["controllers"]}
              + {src + ["middlewares"]} + {src + ["routes"]} + {src + ["utils"]}
            == dirs + Ancestors(root) + LayoutDirs(root)
  {
  }

  /** The directories above a layout folder are the root's ancestors and layout folders. */
  lemma LayoutClosed(root: Path, p: Path)
    requires p in LayoutDirs(root)
    ensures Ancestors(p) <= Ancestors(root) + LayoutDirs(root)
  {
    var src := root + ["src"];
    AncestorsOfChild(root, "src");
    if p != root && p != src {
      assert p == src + [p[|src|]];
      AncestorsOfChild(src, p[|src|]);
    }
  }

  /** One more `createDirectory` of a layout folder keeps the directories within the layout. */
  lemma GrowsWithinLayout(base: set<Path>, before: set<Path>, after: set<Path>, root: Path, p: Path)
    requires p in LayoutDirs(root)
    requires base <= before <= base + Ancestors(root) + LayoutDirs(root)
    requires before <= after <= before + Ancestors(p)
    ensures base <= after <= base + Ancestors(root) + LayoutDirs(root)
  {
    LayoutClosed(root, p);
  }

  /** The first phase of `main`: the project root, `src` and its five folders. */
  method CreateLayout(fs: FileSystem, root: Path) returns (ok: bool)
    requires fs.Valid()
    modifies fs
    ensures fs.Valid() && fs.files == old(fs.files)
    ensures old(fs.dirs) <= fs.dirs <= old(fs.dirs) + Ancestors(root) + LayoutDirs(root)
    ensures DirsClear(old(fs.files), root, LayoutDirs(root)) ==>
              ok && fs.dirs == old(fs.dirs) + Ancestors(root) + LayoutDirs(root)
  {
    ghost var clear := DirsClear(fs.files, root, LayoutDirs(root));
    var src := root + ["src"];
    ghost var before := fs.dirs;
    ok := CreateDirectory(fs, root);
    GrowsWithinLayout(old(fs.dirs), before, fs.dirs, root, root);
    if !ok { return; }
    ghost var made := old(fs.dirs) + Ancestors(root);
    assert clear ==> fs.dirs == made;
    if clear { CreatingChild(fs, root, "src"); }
    before := fs.dirs;
    ok := CreateDirectory(fs, src);
    GrowsWithinLayout(old(fs.dirs), before, fs.dirs, root, src);
    if !ok { return; }
    made := made + {src};
    assert clear ==> fs.dirs == made;
    if clear { CreatingChild(fs, src, "config"); }
    before := fs.dirs;
    ok := CreateDirectory(fs, src + ["config"]);
    GrowsWithinLayout(old(fs.dirs), before, fs.dirs, root, src + ["config"]);
    if !ok { return; }
    made := made + {src + ["config"]};
    assert clear ==> fs.dirs == made;
    if clear { CreatingChild(fs, src, "controllers"); }
    before := fs.dirs;
    ok := CreateDirectory(fs, src + ["controllers"]);
    GrowsWithinLayout(old(fs.dirs), before, fs.dirs, root, src + ["controllers"]);
    if !ok { return; }
    made := made + {src + ["controllers"]};
    assert clear ==> fs.dirs == made;
    if clear { CreatingChild(fs, src, "middlewares"); }
    before := fs.dirs;
    ok := CreateDirectory(fs, src + ["middlewares"]);
    GrowsWithinLayout(old(fs.dirs), before, fs.dirs, root, src + ["middlewares"]);
    if !ok { return; }
    made := made + {src + ["middlewares"]};
    assert clear ==> fs.dirs == made;
    if clear { CreatingChild(fs, src, "routes"); }
    before := fs.dirs;
    ok := CreateDirectory(fs, src + ["routes"]);
    GrowsWithinLayout(old(fs.dirs), before, fs.dirs, root, src + ["routes"]);
    if !ok { return; }
    made := made + {src + ["routes"]};
    assert clear ==> fs.dirs == made;
    if clear { CreatingChild(fs, src, "utils"); }
    before := fs.dirs;
    ok := CreateDirectory(fs, src + ["utils"]);
    GrowsWithinLayout(old(fs.dirs), before, fs.dirs, root, src + ["utils"]);
    made := made + {src + ["utils"]};
    assert clear ==> ok && fs.dirs == made;
    LayoutOneByOne(old(fs.dirs), root);
  }

  /** Writing the files of one phase one after another adds exactly those files. */
  lemma BatchesCompose(before: map<Path, Content>, first: map<Path, Content>, second: map<Path, Content>)
    ensures before + first + second == before + (first + second)
  {
  }

  /** What readiness gives each write of `WriteHead`: its path is not a directory. */
  lemma HeadReady(spec: ProjectSpec, root: Path, dirs: set<Path>)
    requires HeadFiles(spec, root).Keys !! dirs
    ensures var ts := spec.useTypeScript;
      && root + ["package.json"] !in dirs && root + [EntryName(ts)] !in dirs
      && root + ["src"] + [SourceName("app", ts)] !in dirs
      && (ts ==> root + ["tsconfig.json"] !in dirs)
  {
  }

  /** Where each write of `WriteHead` lands in `HeadFiles`: the four paths are different. */
  lemma HeadEntries(spec: ProjectSpec, root: Path)
    ensures var ts := spec.useTypeScript;
            var head := HeadFiles(spec, root);
      && root + ["package.json"] in head && head[root + ["package.json"]] == Manifest(spec.name, ts, !ts)
      && root + [EntryName(ts)] in head && head[root + [EntryName(ts)]] == Source(Entry, ts)
      && root + ["src"] + [SourceName("app", ts)] in head
      && head[root + ["src"] + [SourceName("app", ts)]] == Source(App, ts)
      && (ts ==> root + ["tsconfig.json"] in head && head[root + ["tsconfig.json"]] == TsConfig)
  {
    var ts := spec.useTypeScript;
    ChildrenInjective(root, "package.json", EntryName(ts));
    ChildrenInjective(root, "package.json", "tsconfig.json");
    ChildrenInjective(root, EntryName(ts), "tsconfig.json");
  }

  /** The first writes of the second phase: the manifest, the entry point, the application, `tsconfig.json`. */
  method WriteHead(fs: FileSystem, spec: ProjectSpec, root: Path) returns (ok: bool)
    requires fs.Valid()
    modifies fs
    ensures fs.Valid() && fs.dirs == old(fs.dirs)
    ensures ok ==> fs.files == old(fs.files) + HeadFiles(spec, root)
    ensures PartlyWritten(old(fs.files), fs.files, HeadFiles(spec, root))
    ensures root in old(fs.dirs) && root + ["src"] in old(fs.dirs) && HeadFiles(spec, root).Keys !! old(fs.dirs) ==> ok
  {
    var ts := spec.useTypeScript;
    ghost var written: map<Path, Content> := map[];
    assert fs.files == old(fs.files) + written;
    if HeadFiles(spec, root).Keys !! fs.dirs {
      HeadReady(spec, root, fs.dirs);
    }
    HeadEntries(spec, root);
    ghost var target := HeadFiles(spec, root);
    ok := WriteInto(fs, root, "package.json", Manifest(spec.name, ts, !ts), old(fs.files), written, target);
    if !ok { return; }
    written := written[root + ["package.json"] := Manifest(spec.name, ts, !ts)];
    ok := WriteInto(fs, root, EntryName(ts), Source(Entry, ts), old(fs.files), written, target);
    if !ok { return; }
    written := written[root + [EntryName(ts)] := Source(Entry, ts)];
    ok := WriteInto(fs, root + ["src"], SourceName("app", ts), Source(App, ts), old(fs.files), written, target);
    if !ok { return; }
    written := written[root + ["src"] + [SourceName("app", ts)] := Source(App, ts)];
    if ts {
      ok := WriteInto(fs, root, "tsconfig.json", TsConfig, old(fs.files), written, target);
      if !ok { return; }
      written := written[root + ["tsconfig.json"] := TsConfig];
    }
    assert written == HeadFiles(spec, root);
  }

  /** What readiness gives each write of `WriteModules`: its folder exists and its path is not a directory. */
  lemma ModulesReady(ts: bool, root: Path, dirs: set<Path>)
    requires LayoutDirs(root) <= dirs && ModuleFiles(ts, root).Keys !! dirs
    ensures var src := root + ["src"];
      && root in dirs && src + ["config"] in dirs && src + ["middlewares"] in dirs
      && src + ["utils"] in dirs && src + ["routes"] in dirs
      && root + ["nodemon.json"] !in dirs
      && src + ["config"] + [SourceName("database", ts)] !in dirs
      && src + ["middlewares"] + [SourceName("auth", ts)] !in dirs
      && src + ["middlewares"] + [SourceName("errorHandler", ts)] !in dirs
      && src + ["utils"] + [SourceName("logger", ts)] !in dirs
      && src + ["routes"] + [SourceName("index", ts)] !in dirs
      && src + ["routes"] + [SourceName("auth", ts)] !in dirs
  {
  }

  /** The modules, written one after another, make up `ModuleFiles`. */
  lemma ModulesInOrder(ts: bool, root: Path)
    ensures var src := root + ["src"];
            map[][root + ["nodemon.json"] := Nodemon(ts)]
               [src + ["config"] + [SourceName("database", ts)] := Source(DatabaseConfig, ts)]
               [src + ["middlewares"] + [SourceName("auth", ts)] := Source(AuthMiddleware, ts)]
               [src + ["middlewares"] + [SourceName("errorHandler", ts)] := Source(ErrorHandler, ts)]
               [src + ["utils"] + [SourceName("logger", ts)] := Source(Logger, ts)]
               [src + ["routes"] + [SourceName("index", ts)] := Source(RoutesIndex, ts)]
               [src + ["routes"] + [SourceName("auth", ts)] := Source(AuthRoutes, ts)]
            == ModuleFiles(ts, root)
  {
  }

  /** Where each write of `WriteModules` lands in `ModuleFiles`: the seven paths are different. */
  lemma ModuleEntries(ts: bool, root: Path)
    ensures var src := root + ["src"];
            var modules := ModuleFiles(ts, root);
      && root + ["nodemon.json"] in modules && modules[root + ["nodemon.json"]] == Nodemon(ts)
      && src + ["config"] + [SourceName("database", ts)] in modules
      && modules[src + ["config"] + [SourceName("database", ts)]] == Source(DatabaseConfig, ts)
      && src + ["middlewares"] + [SourceName("auth", ts)] in modules
      && modules[src + ["middlewares"] + [SourceName("auth", ts)]] == Source(AuthMiddleware, ts)
      && src + ["middlewares"] + [SourceName("errorHandler", ts)] in modules
      && modules[src + ["middlewares"] + [SourceName("errorHandler", ts)]] == Source(ErrorHandler, ts)
      && src + ["utils"] + [SourceName("logger", ts)] in modules
      && modules[src + ["utils"] + [SourceName("logger", ts)]] == Source(Logger, ts)
      && src + ["routes"] + [SourceName("index", ts)] in modules
      && modules[src + ["routes"] + [SourceName("index", ts)]] == Source(RoutesIndex, ts)
      && src + ["routes"] + [SourceName("auth", ts)] in modules
      && modules[src + ["routes"] + [SourceName("auth", ts)]] == Source(AuthRoutes, ts)
  {
    var src := root + ["src"];
    FoldersSeparate(src, "config", SourceName("database", ts), "middlewares", SourceName("auth", ts));
    FoldersSeparate(src, "config", SourceName("database", ts), "middlewares", SourceName("errorHandler", ts));
    FoldersSeparate(src, "config", SourceName("database", ts), "utils", SourceName("logger", ts));
    FoldersSeparate(src, "config", SourceName("database", ts), "routes", SourceName("index", ts));
    FoldersSeparate(src, "config", SourceName("database", ts), "routes", SourceName("auth", ts));
    FoldersSeparate(src, "middlewares", SourceName("auth", ts), "utils", SourceName("logger", ts));
    FoldersSeparate(src, "middlewares", SourceName("auth", ts), "routes", SourceName("index", ts));
    FoldersSeparate(src, "middlewares", SourceName("auth", ts), "routes", SourceName("auth", ts));
    FoldersSeparate(src, "middlewares", SourceName("errorHandler", ts), "utils", SourceName("logger", ts));
    FoldersSeparate(src, "middlewares", SourceName("errorHandler", ts), "routes", SourceName("index", ts));
    FoldersSeparate(src, "middlewares", SourceName("errorHandler", ts), "routes", SourceName("auth", ts));
    FoldersSeparate(src, "utils", SourceName("logger", ts), "routes", SourceName("index", ts));
    FoldersSeparate(src, "utils", SourceName("logger", ts), "routes", SourceName("auth", ts));
    ChildrenInjective(src + ["middlewares"], SourceName("auth", ts), SourceName("errorHandler", ts));
    ChildrenInjective(src + ["routes"], SourceName("index", ts), SourceName("auth", ts));
  }

  /** The rest of the second phase: the nodemon configuration and the modules under `src`. */
  method WriteModules(fs: FileSystem, useTypeScript: bool, root: Path) returns (ok: bool)
    requires fs.Valid()
    modifies fs
    ensures fs.Valid() && fs.dirs == old(fs.dirs)
    ensures ok ==> fs.files == old(fs.files) + ModuleFiles(useTypeScript, root)
    ensures PartlyWritten(old(fs.files), fs.files, ModuleFiles(useTypeScript, root))
    ensures LayoutDirs(root) <= old(fs.dirs) && ModuleFiles(useTypeScript, root).Keys !! old(fs.dirs) ==> ok
  {
    var ts := useTypeScript;
    var src := root + ["src"];
    ghost var written: map<Path, Content> := map[];
    assert fs.files == old(fs.files) + written;
    if LayoutDirs(root) <= fs.dirs && ModuleFiles(ts, root).Keys !! fs.dirs {
      ModulesReady(ts, root, fs.dirs);
    }
    ModuleEntries(ts, root);
    ghost var target := ModuleFiles(ts, root);
    ok := WriteInto(fs, root, "nodemon.json", Nodemon(ts), old(fs.files), written, target);
    if !ok { return; }
    written := written[root + ["nodemon.json"] := Nodemon(ts)];
    ok := WriteInto(fs, src + ["config"], SourceName("database", ts), Source(DatabaseConfig, ts), old(fs.files), written, target);
    if !ok { return; }
    written := written[src + ["config"] + [SourceName("database", ts)] := Source(DatabaseConfig, ts)];
    ok := WriteInto(fs, src + ["middlewares"], SourceName("auth", ts), Source(AuthMiddleware, ts), old(fs.files), written, target);
    if !ok { return; }
    written := written[src + ["middlewares"] + [SourceName("auth", ts)] := Source(AuthMiddleware, ts)];
    ok := WriteInto(fs, src + ["middlewares"], SourceName("errorHandler", ts), Source(ErrorHandler, ts), old(fs.files), written, target);
    if !ok { return; }
    written := written[src + ["middlewares"] + [SourceName("errorHandler", ts)] := Source(ErrorHandler, ts)];
    ok := WriteInto(fs, src + ["utils"], SourceName("logger", ts), Source(Logger, ts), old(fs.files), written, target);
    if !ok { return; }
    written := written[src + ["utils"] + [SourceName("logger", ts)] := Source(Logger, ts)];
    ok := WriteInto(fs, src + ["routes"], SourceName("index", ts), Source(RoutesIndex, ts), old(fs.files), written, target);
    if !ok { return; }
    written := written[src + ["routes"] + [SourceName("index", ts)] := Source(RoutesIndex, ts)];
    ok := WriteInto(fs, src + ["routes"], SourceName("auth", ts), Source(AuthRoutes, ts), old(fs.files), written, target);
    if !ok { return; }
    written := written[src + ["routes"] + [SourceName("auth", ts)] := Source(AuthRoutes, ts)];
    ModulesInOrder(ts, root);
  }

  /** The head and the modules of the second phase write to different paths. */
  lemma HeadApartFromModules(spec: ProjectSpec, root: Path)
    ensures HeadFiles(spec, root).Keys !! ModuleFiles(spec.useTypeScript, root).Keys
  {
    var ts := spec.useTypeScript;
    forall p | p in HeadFiles(spec, root) ensures p !in ModuleFiles(ts, root) {
      if |p| == |root| + 1 {
        var name := p[|root|];
        assert p == root + [name];
        HeadAtRoot(spec, root, name);
        ModulesAtRoot(ts, root, name);
        EntryNames();
      }
    }
  }

  /** The example files lie two folders below the root, apart from every file of the second phase. */
  lemma SourcesApartFromExamples(spec: ProjectSpec, root: Path)
    ensures SourceFiles(spec, root).Keys !! ExampleFiles(spec.useTypeScript, root).Keys
  {
    ExamplesApartFromModules(spec.useTypeScript, root);
    forall p | p in HeadFiles(spec, root) ensures |p| < |root| + 3 { }
    forall p | p in ExampleFiles(spec.useTypeScript, root) ensures |p| == |root| + 3 { }
  }

  /** `.env`, `.gitignore` and the README are written to paths no other phase writes to. */
  lemma ExtrasApart(spec: ProjectSpec, root: Path)
    ensures SourceFiles(spec, root).Keys !! ExtraFiles(spec, root).Keys
    ensures ExampleFiles(spec.useTypeScript, root).Keys !! ExtraFiles(spec, root).Keys
  {
    var ts := spec.useTypeScript;
    forall p | p in ExtraFiles(spec, root)
      ensures p !in HeadFiles(spec, root) && p !in ModuleFiles(ts, root) && p !in ExampleFiles(ts, root)
    {
      var name := p[|root|];
      assert p == root + [name];
      HeadAtRoot(spec, root, name);
      ModulesAtRoot(ts, root, name);
      ExtrasAtRoot(spec, root, name);
      EntryNames();
      forall q | q in ExampleFiles(ts, root) ensures |q| == |root| + 3 { }
    }
  }

  /**
   * The second phase of `main`: the manifest, the entry point, the TypeScript and nodemon
   * configurations and the modules under `src`.
   */
  method WriteSources(fs: FileSystem, spec: ProjectSpec, root: Path) returns (ok: bool)
    requires fs.Valid()
    modifies fs
    ensures fs.Valid() && fs.dirs == old(fs.dirs)
    ensures ok ==> fs.files == old(fs.files) + SourceFiles(spec, root)
    ensures PartlyWritten(old(fs.files), fs.files, SourceFiles(spec, root))
    ensures LayoutDirs(root) <= old(fs.dirs) && SourceFiles(spec, root).Keys !! old(fs.dirs) ==> ok
  {
    ghost var head := HeadFiles(spec, root);
    ghost var modules := ModuleFiles(spec.useTypeScript, root);
    HeadApartFromModules(spec, root);
    ok := WriteHead(fs, spec, root);
    if !ok {
      PartlyWrittenWiden(old(fs.files), fs.files, head, modules);
      return;
    }
    ghost var middle := fs.files;
    ok := WriteModules(fs, spec.useTypeScript, root);
    PartlyWrittenChain(old(fs.files), middle, fs.files, head, modules);
    BatchesCompose(old(fs.files), head, modules);
  }

  /** What `WriteExamples` needs: `src/controllers` exists, and nothing is in the way of `src/models` and its files. */
  predicate ExamplesClear(dirs: set<Path>, files: map<Path, Content>, useTypeScript: bool, root: Path) {
    var models := root + ["src"] + ["models"];
    && root + ["src"] in dirs
    && root + ["src"] + ["controllers"] in dirs
    && models !in files
    && ExampleFiles(useTypeScript, root).Keys !! dirs + {models}
  }

  /** Where each write of `WriteExamples` lands in `ExampleFiles`. */
  lemma ExampleEntries(ts: bool, root: Path)
    ensures var src := root + ["src"];
            var examples := ExampleFiles(ts, root);
      && src + ["controllers"] + [SourceName("userController", ts)] in examples
      && examples[src + ["controllers"] + [SourceName("userController", ts)]] == Source(UserController, ts)
      && src + ["models"] + [SourceName("User", ts)] in examples
      && examples[src + ["models"] + [SourceName("User", ts)]] == Source(UserModel, ts)
  {
    FoldersSeparate(root + ["src"], "controllers", SourceName("userController", ts), "models", SourceName("User", ts));
  }

  /** The example phase of `main`: `src/models`, then the controller and the model. */
  method WriteExamples(fs: FileSystem, useTypeScript: bool, root: Path) returns (ok: bool)
    requires fs.Valid()
    modifies fs
    ensures fs.Valid()
    ensures ok ==> fs.files == old(fs.files) + ExampleFiles(useTypeScript, root)
    ensures PartlyWritten(old(fs.files), fs.files, ExampleFiles(useTypeScript, root))
    ensures fs.dirs == old(fs.dirs) || fs.dirs == old(fs.dirs) + Ancestors(root + ["src"] + ["models"])
    ensures ExamplesClear(old(fs.dirs), old(fs.files), useTypeScript, root) ==>
              ok && fs.dirs == old(fs.dirs) + {root + ["src"] + ["models"]}
  {
    var ts := useTypeScript;
    var src := root + ["src"];
    ghost var clear := ExamplesClear(fs.dirs, fs.files, ts, root);
    if clear { CreatingChild(fs, src, "models"); }
    ExampleEntries(ts, root);
    ok := CreateDirectory(fs, src + ["models"]);
    if !ok { return; }
    ghost var written: map<Path, Content> := map[];
    ghost var target := ExampleFiles(ts, root);
    assert fs.files == old(fs.files) + written;
    ok := WriteInto(fs, src + ["controllers"], SourceName("userController", ts), Source(UserController, ts), old(fs.files), written, target);
    if !ok { return; }
    written := written[src + ["controllers"] + [SourceName("userController", ts)] := Source(UserController, ts)];
    ok := WriteInto(fs, src + ["models"], SourceName("User", ts), Source(UserModel, ts), old(fs.files), written, target);
    if !ok { return; }
    written := written[src + ["models"] + [SourceName("User", ts)] := Source(UserModel, ts)];
    assert written == ExampleFiles(ts, root);
  }

  /** Where each write of `WriteExtras` lands in `ExtraFiles`. */
  lemma ExtraEntries(spec: ProjectSpec, root: Path)
    ensures var extras := ExtraFiles(spec, root);
            var readme := Readme(spec.name, spec.useTypeScript, ManagerName(spec.packageManager));
      && root + [".env"] in extras && extras[root + [".env"]] == EnvFile
      && root + [".gitignore"] in extras && extras[root + [".gitignore"]] == Gitignore
      && (spec.includeReadme ==> root + ["README.md"] in extras && extras[root + ["README.md"]] == readme)
  {
    ChildrenInjective(root, ".env", ".gitignore");
    ChildrenInjective(root, ".env", "README.md");
    ChildrenInjective(root, ".gitignore", "README.md");
  }

  /** The last writes of `main`: `.env`, `.gitignore` and the README when asked for. */
  method WriteExtras(fs: FileSystem, spec: ProjectSpec, root: Path) returns (ok: bool)
    requires fs.Valid()
    modifies fs
    ensures fs.Valid() && fs.dirs == old(fs.dirs)
    ensures ok ==> fs.files == old(fs.files) + ExtraFiles(spec, root)
    ensures PartlyWritten(old(fs.files), fs.files, ExtraFiles(spec, root))
    ensures root in old(fs.dirs) && ExtraFiles(spec, root).Keys !! old(fs.dirs) ==> ok
  {
    ExtraEntries(spec, root);
    ghost var written: map<Path, Content> := map[];
    ghost var target := ExtraFiles(spec, root);
    assert fs.files == old(fs.files) + written;
    ok := WriteInto(fs, root, ".env", EnvFile, old(fs.files), written, target);
    if !ok { return; }
    written := written[root + [".env"] := EnvFile];
    ok := WriteInto(fs, root, ".gitignore", Gitignore, old(fs.files), written, target);
    if !ok { return; }
    written := written[root + [".gitignore"] := Gitignore];
    if spec.includeReadme {
      var readme := Readme(spec.name, spec.useTypeScript, ManagerName(spec.packageManager));
      ok := WriteInto(fs, root, "README.md", readme, old(fs.files), written, target);
      if !ok { return; }
      written := written[root + ["README.md"] := readme];
    }
    assert written == ExtraFiles(spec, root);
  }

  // ------------------------------------------------------------------- main

  /** Every generated source file has a dot in its name. */
  lemma SourceNameDotted(stem: string, useTypeScript: bool)
    ensures '.' in SourceName(stem, useTypeScript)
  {
    assert SourceName(stem, useTypeScript)[|stem|] == '.';
  }

  /** `p` lies below `root` and its last segment has a dot in it: the shape of every generated file. */
  predicate DottedBelow(p: Path, root: Path) {
    |p| > |root| && '.' in p[|p| - 1]
  }

  lemma ChildDotted(dir: Path, name: string, root: Path)
    requires |dir| >= |root| && '.' in name
    ensures DottedBelow(dir + [name], root)
  {
    assert (dir + [name])[|dir|] == name;
  }

  lemma HeadDotted(spec: ProjectSpec, root: Path)
    ensures forall k | k in HeadFiles(spec, root) :: DottedBelow(k, root)
  {
    var ts := spec.useTypeScript;
    SourceNameDotted("index", ts);
    SourceNameDotted("app", ts);
    assert "package.json"[7] == '.' && "tsconfig.json"[8] == '.';
    ChildDotted(root, "package.json", root);
    ChildDotted(root, EntryName(ts), root);
    ChildDotted(root + ["src"], SourceName("app", ts), root);
    ChildDotted(root, "tsconfig.json", root);
  }

  lemma ModulesDotted(ts: bool, root: Path)
    ensures forall k | k in ModuleFiles(ts, root) :: DottedBelow(k, root)
  {
    var src := root + ["src"];
    assert "nodemon.json"[7] == '.';
    ChildDotted(root, "nodemon.json", root);
    SourceNameDotted("database", ts);
    ChildDotted(src + ["config"], SourceName("database", ts), root);
    SourceNameDotted("auth", ts);
    ChildDotted(src + ["middlewares"], SourceName("auth", ts), root);
    SourceNameDotted("errorHandler", ts);
    ChildDotted(src + ["middlewares"], SourceName("errorHandler", ts), root);
    SourceNameDotted("logger", ts);
    ChildDotted(src + ["utils"], SourceName("logger", ts), root);
    SourceNameDotted("index", ts);
    ChildDotted(src + ["routes"], SourceName("index", ts), root);
    ChildDotted(src + ["routes"], SourceName("auth", ts), root);
  }

  lemma ExamplesDotted(ts: bool, root: Path)
    ensures forall k | k in ExampleFiles(ts, root) :: DottedBelow(k, root)
  {
    var src := root + ["src"];
    SourceNameDotted("userController", ts);
    ChildDotted(src + ["controllers"], SourceName("userController", ts), root);
    SourceNameDotted("User", ts);
    ChildDotted(src + ["models"], SourceName("User", ts), root);
  }

  lemma ExtrasDotted(spec: ProjectSpec, root: Path)
    ensures forall k | k in ExtraFiles(spec, root) :: DottedBelow(k, root)
  {
    assert ".env"[0] == '.' && ".gitignore"[0] == '.' && "README.md"[6] == '.';
    ChildDotted(root, ".env", root);
    ChildDotted(root, ".gitignore", root);
    ChildDotted(root, "README.md", root);
  }

  /** No directory `main` creates below the root has a dot in its name. */
  lemma DirsUndotted(root: Path)
    ensures forall d | d in ProjectDirs(root, true) && |d| > |root| :: '.' !in d[|d| - 1]
  {
  }

  /**
   * Every file `main` writes has a dot in its name and no directory it creates has one,
   * so no file lands where a directory of the project, or one above it, must be.
   */
  lemma FilesAwayFromDirs(spec: ProjectSpec, root: Path)
    ensures ProjectFiles(spec, root).Keys !! Ancestors(root) + ProjectDirs(root, true)
  {
    HeadDotted(spec, root);
    ModulesDotted(spec.useTypeScript, root);
    ExamplesDotted(spec.useTypeScript, root);
    ExtrasDotted(spec, root);
    DirsUndotted(root);
    forall k | k in ProjectFiles(spec, root)
      ensures DottedBelow(k, root)
    {
    }
  }

  // ------------------------------------------------------------- file set

  /** A source file's content and its extension both follow the language flag. */
  predicate FitsLanguage(p: Path, content: Content, useTypeScript: bool) {
    content.Source? ==>
      && content.typeScript == useTypeScript
      && |p| > 0
      && HasExtension(p[|p| - 1], Ext(useTypeScript))
      && !HasExtension(p[|p| - 1], Ext(!useTypeScript))
  }

  predicate AllFitLanguage(files: map<Path, Content>, useTypeScript: bool) {
    forall p | p in files :: FitsLanguage(p, files[p], useTypeScript)
  }

  lemma FitsAfterWrite(files: map<Path, Content>, p: Path, content: Content, useTypeScript: bool)
    requires AllFitLanguage(files, useTypeScript) && FitsLanguage(p, content, useTypeScript)
    ensures AllFitLanguage(files[p := content], useTypeScript)
  {
  }

  lemma FitsUnion(files: map<Path, Content>, more: map<Path, Content>, useTypeScript: bool)
    requires AllFitLanguage(files, useTypeScript) && AllFitLanguage(more, useTypeScript)
    ensures AllFitLanguage(files + more, useTypeScript)
  {
  }

  /** A source file named after `stem`, in the folder `dir`, fits the language it was written for. */
  lemma SourceFits(dir: Path, stem: string, file: SourceFile, useTypeScript: bool)
    ensures FitsLanguage(dir + [SourceName(stem, useTypeScript)], Source(file, useTypeScript), useTypeScript)
  {
    ExtensionsDiffer(stem, useTypeScript);
    var p := dir + [SourceName(stem, useTypeScript)];
    assert p[|p| - 1] == SourceName(stem, useTypeScript);
  }

  lemma HeadFitsLanguage(spec: ProjectSpec, root: Path)
    ensures AllFitLanguage(HeadFiles(spec, root), spec.useTypeScript)
  {
    var ts := spec.useTypeScript;
    var m0: map<Path, Content> := map[];
    FitsAfterWrite(m0, root + ["package.json"], Manifest(spec.name, ts, !ts), ts);
    var m1 := m0[root + ["package.json"] := Manifest(spec.name, ts, !ts)];
    SourceFits(root, "index", Entry, ts);
    FitsAfterWrite(m1, root + [EntryName(ts)], Source(Entry, ts), ts);
    var m2 := m1[root + [EntryName(ts)] := Source(Entry, ts)];
    SourceFits(root + ["src"], "app", App, ts);
    FitsAfterWrite(m2, root + ["src"] + [SourceName("app", ts)], Source(App, ts), ts);
    var m3 := m2[root + ["src"] + [SourceName("app", ts)] := Source(App, ts)];
    FitsAfterWrite(m3, root + ["tsconfig.json"], TsConfig, ts);
  }

  lemma ModulesFitLanguage(ts: bool, root: Path)
    ensures AllFitLanguage(ModuleFiles(ts, root), ts)
  {
    var src := root + ["src"];
    var m0: map<Path, Content> := map[];
    FitsAfterWrite(m0, root + ["nodemon.json"], Nodemon(ts), ts);
    var m1 := m0[root + ["nodemon.json"] := Nodemon(ts)];
    SourceFits(src + ["config"], "database", DatabaseConfig, ts);
    FitsAfterWrite(m1, src + ["config"] + [SourceName("database", ts)], Source(DatabaseConfig, ts), ts);
    var m2 := m1[src + ["config"] + [SourceName("database", ts)] := Source(DatabaseConfig, ts)];
    SourceFits(src + ["middlewares"], "auth", AuthMiddleware, ts);
    FitsAfterWrite(m2, src + ["middlewares"] + [SourceName("auth", ts)], Source(AuthMiddleware, ts), ts);
    var m3 := m2[src + ["middlewares"] + [SourceName("auth", ts)] := Source(AuthMiddleware, ts)];
    SourceFits(src + ["middlewares"], "errorHandler", ErrorHandler, ts);
    FitsAfterWrite(m3, src + ["middlewares"] + [SourceName("errorHandler", ts)], Source(ErrorHandler, ts), ts);
    var m4 := m3[src + ["middlewares"] + [SourceName("errorHandler", ts)] := Source(ErrorHandler, ts)];
    SourceFits(src + ["utils"], "logger", Logger, ts);
    FitsAfterWrite(m4, src + ["utils"] + [SourceName("logger", ts)], Source(Logger, ts), ts);
    var m5 := m4[src + ["utils"] + [SourceName("logger", ts)] := Source(Logger, ts)];
    SourceFits(src + ["routes"], "index", RoutesIndex, ts);
    FitsAfterWrite(m5, src + ["routes"] + [SourceName("index", ts)], Source(RoutesIndex, ts), ts);
    var m6 := m5[src + ["routes"] + [SourceName("index", ts)] := Source(RoutesIndex, ts)];
    SourceFits(src + ["routes"], "auth", AuthRoutes, ts);
    FitsAfterWrite(m6, src + ["routes"] + [SourceName("auth", ts)], Source(AuthRoutes, ts), ts);
  }

  lemma ExamplesFitLanguage(ts: bool, root: Path)
    ensures AllFitLanguage(ExampleFiles(ts, root), ts)
  {
    var src := root + ["src"];
    var m0: map<Path, Content> := map[];
    SourceFits(src + ["controllers"], "userController", UserController, ts);
    FitsAfterWrite(m0, src + ["controllers"] + [SourceName("userController", ts)], Source(UserController, ts), ts);
    var m1 := m0[src + ["controllers"] + [SourceName("userController", ts)] := Source(UserController, ts)];
    SourceFits(src + ["models"], "User", UserModel, ts);
    FitsAfterWrite(m1, src + ["models"] + [SourceName("User", ts)], Source(UserModel, ts), ts);
  }

  /**
   * Every source file `main` writes is the TypeScript or JavaScript variant the flag asks for,
   * and its name ends in `.ts` exactly when TypeScript was chosen, otherwise in `.js`.
   */
  lemma SourcesMatchLanguage(spec: ProjectSpec, root: Path)
    ensures AllFitLanguage(ProjectFiles(spec, root), spec.useTypeScript)
  {
    var ts := spec.useTypeScript;
    HeadFitsLanguage(spec, root);
    ModulesFitLanguage(ts, root);
    ExamplesFitLanguage(ts, root);
    assert AllFitLanguage(ExtraFiles(spec, root), ts);
    FitsUnion(HeadFiles(spec, root), ModuleFiles(ts, root), ts);
    FitsUnion(SourceFiles(spec, root), ExampleFiles(ts, root), ts);
    if spec.includeExamples {
      FitsUnion(SourceFiles(spec, root) + ExampleFiles(ts, root), ExtraFiles(spec, root), ts);
    } else {
      FitsUnion(SourceFiles(spec, root), ExtraFiles(spec, root), ts);
    }
  }

  /** Every file of `files` goes into one of `dirs`. */
  predicate AllInside(files: map<Path, Content>, dirs: set<Path>) {
    forall p | p in files :: |p| > 0 && Parent(p) in dirs
  }

  lemma InsideAfterWrite(files: map<Path, Content>, dir: Path, name: string, content: Content, dirs: set<Path>)
    requires AllInside(files, dirs) && dir in dirs
    ensures AllInside(files[dir + [name] := content], dirs)
  {
    ParentOfChild(dir, name);
  }

  /**
   * Every file `main` writes goes into a directory `main` creates: the root, `src`, one of
   * its five folders, or `src/models`, which exists exactly when the examples are written.
   */
  lemma FilesInsideProjectDirs(spec: ProjectSpec, root: Path)
    ensures AllInside(ProjectFiles(spec, root), ProjectDirs(root, spec.includeExamples))
  {
    var ts := spec.useTypeScript;
    var dirs := ProjectDirs(root, spec.includeExamples);
    var src := root + ["src"];
    var h0: map<Path, Content> := map[];
    InsideAfterWrite(h0, root, "package.json", Manifest(spec.name, ts, !ts), dirs);
    var h1 := h0[root + ["package.json"] := Manifest(spec.name, ts, !ts)];
    InsideAfterWrite(h1, root, EntryName(ts), Source(Entry, ts), dirs);
    var h2 := h1[root + [EntryName(ts)] := Source(Entry, ts)];
    InsideAfterWrite(h2, src, SourceName("app", ts), Source(App, ts), dirs);
    var h3 := h2[src + [SourceName("app", ts)] := Source(App, ts)];
    InsideAfterWrite(h3, root, "tsconfig.json", TsConfig, dirs);
    assert AllInside(HeadFiles(spec, root), dirs);
    var m0: map<Path, Content> := map[];
    InsideAfterWrite(m0, root, "nodemon.json", Nodemon(ts), dirs);
    var m1 := m0[root + ["nodemon.json"] := Nodemon(ts)];
    InsideAfterWrite(m1, src + ["config"], SourceName("database", ts), Source(DatabaseConfig, ts), dirs);
    var m2 := m1[src + ["config"] + [SourceName("database", ts)] := Source(DatabaseConfig, ts)];
    InsideAfterWrite(m2, src + ["middlewares"], SourceName("auth", ts), Source(AuthMiddleware, ts), dirs);
    var m3 := m2[src + ["middlewares"] + [SourceName("auth", ts)] := Source(AuthMiddleware, ts)];
    InsideAfterWrite(m3, src + ["middlewares"], SourceName("errorHandler", ts), Source(ErrorHandler, ts), dirs);
    var m4 := m3[src + ["middlewares"] + [SourceName("errorHandler", ts)] := Source(ErrorHandler, ts)];
    InsideAfterWrite(m4, src + ["utils"], SourceName("logger", ts), Source(Logger, ts), dirs);
    var m5 := m4[src + ["utils"] + [SourceName("logger", ts)] := Source(Logger, ts)];
    InsideAfterWrite(m5, src + ["routes"], SourceName("index", ts), Source(RoutesIndex, ts), dirs);
    var m6 := m5[src + ["routes"] + [SourceName("index", ts)] := Source(RoutesIndex, ts)];
    InsideAfterWrite(m6, src + ["routes"], SourceName("auth", ts), Source(AuthRoutes, ts), dirs);
    assert AllInside(ModuleFiles(ts, root), dirs);
    if spec.includeExamples {
      var e0: map<Path, Content> := map[];
      InsideAfterWrite(e0, src + ["controllers"], SourceName("userController", ts), Source(UserController, ts), dirs);
      var e1 := e0[src + ["controllers"] + [SourceName("userController", ts)] := Source(UserController, ts)];
      InsideAfterWrite(e1, src + ["models"], SourceName("User", ts), Source(UserModel, ts), dirs);
      assert AllInside(ExampleFiles(ts, root), dirs);
    }
    var x0: map<Path, Content> := map[];
    InsideAfterWrite(x0, root, ".env", EnvFile, dirs);
    var x1 := x0[root + [".env"] := EnvFile];
    InsideAfterWrite(x1, root, ".gitignore", Gitignore, dirs);
    var x2 := x1[root + [".gitignore"] := Gitignore];
    InsideAfterWrite(x2, root, "README.md", Readme(spec.name, ts, ManagerName(spec.packageManager)), dirs);
    assert AllInside(ExtraFiles(spec, root), dirs);
  }

  /** The names of the files `main` writes at the project root. */
  function RootNames(spec: ProjectSpec): set<string> {
    {"package.json", EntryName(spec.useTypeScript), "nodemon.json", ".env", ".gitignore"}
    + (if spec.useTypeScript then {"tsconfig.json"} else {})
    + (if spec.includeReadme then {"README.md"} else {})
  }

  lemma HeadAtRoot(spec: ProjectSpec, root: Path, name: string)
    ensures root + [name] in HeadFiles(spec, root) <==>
              name == "package.json" || name == EntryName(spec.useTypeScript) || (spec.useTypeScript && name == "tsconfig.json")
  {
    ChildrenInjective(root, name, "package.json");
    ChildrenInjective(root, name, EntryName(spec.useTypeScript));
    ChildrenInjective(root, name, "tsconfig.json");
  }

  lemma ModulesAtRoot(ts: bool, root: Path, name: string)
    ensures root + [name] in ModuleFiles(ts, root) <==> name == "nodemon.json"
  {
    ChildrenInjective(root, name, "nodemon.json");
  }

  lemma ExtrasAtRoot(spec: ProjectSpec, root: Path, name: string)
    ensures root + [name] in ExtraFiles(spec, root) <==>
              name == ".env" || name == ".gitignore" || (spec.includeReadme && name == "README.md")
  {
    ChildrenInjective(root, name, ".env");
    ChildrenInjective(root, name, ".gitignore");
    ChildrenInjective(root, name, "README.md");
  }

  /** The files `main` writes at the project root are exactly those named by `RootNames`. */
  lemma FilesAtRoot(spec: ProjectSpec, root: Path, name: string)
    ensures root + [name] in ProjectFiles(spec, root) <==> name in RootNames(spec)
  {
    HeadAtRoot(spec, root, name);
    ModulesAtRoot(spec.useTypeScript, root, name);
    ExtrasAtRoot(spec, root, name);
    assert root + [name] !in ExampleFiles(spec.useTypeScript, root);
  }

  /** `tsconfig.json` is written exactly when TypeScript is chosen. */
  lemma TsConfigIffTypeScript(spec: ProjectSpec, root: Path)
    ensures root + ["tsconfig.json"] in ProjectFiles(spec, root) <==> spec.useTypeScript
  {
    EntryNames();
    FilesAtRoot(spec, root, "tsconfig.json");
  }

  /** The entry point is written in the chosen language, and never in the other one. */
  lemma EntryInChosenLanguage(spec: ProjectSpec, root: Path)
    ensures root + [EntryName(spec.useTypeScript)] in ProjectFiles(spec, root)
    ensures root + [EntryName(!spec.useTypeScript)] !in ProjectFiles(spec, root)
  {
    EntryNames();
    assert "index.ts"[6] != "index.js"[6];
    FilesAtRoot(spec, root, EntryName(spec.useTypeScript));
    FilesAtRoot(spec, root, EntryName(!spec.useTypeScript));
  }

  /** `nodemon.json` is always written, with the variant matching the language. */
  lemma NodemonMatchesLanguage(spec: ProjectSpec, root: Path)
    ensures root + ["nodemon.json"] in ProjectFiles(spec, root)
    ensures ProjectFiles(spec, root)[root + ["nodemon.json"]] == Nodemon(spec.useTypeScript)
  {
    var key := root + ["nodemon.json"];
    ExtrasAtRoot(spec, root, "nodemon.json");
    assert ModuleFiles(spec.useTypeScript, root)[key] == Nodemon(spec.useTypeScript);
    assert SourceFiles(spec, root)[key] == Nodemon(spec.useTypeScript);
    assert key !in ExampleFiles(spec.useTypeScript, root);
  }

  /** `README.md` exactly when asked for, rendered from the name, the language and the manager. */
  lemma ReadmeIffAsked(spec: ProjectSpec, root: Path)
    ensures root + ["README.md"] in ProjectFiles(spec, root) <==> spec.includeReadme
    ensures spec.includeReadme ==>
              ProjectFiles(spec, root)[root + ["README.md"]]
              == Readme(spec.name, spec.useTypeScript, ManagerName(spec.packageManager))
  {
    EntryNames();
    FilesAtRoot(spec, root, "README.md");
  }

  /** The manifest, `.env` and `.gitignore` are always written. */
  lemma AlwaysWritten(spec: ProjectSpec, root: Path)
    ensures root + [".env"] in ProjectFiles(spec, root) && root + [".gitignore"] in ProjectFiles(spec, root)
    ensures ProjectFiles(spec, root)[root + ["package.json"]] == Manifest(spec.name, spec.useTypeScript, !spec.useTypeScript)
  {
    EntryNames();
    ChildrenInjective(root, "package.json", EntryName(spec.useTypeScript));
    ChildrenInjective(root, "package.json", "tsconfig.json");
    ExtrasAtRoot(spec, root, "package.json");
    ModulesAtRoot(spec.useTypeScript, root, "package.json");
    assert root + ["package.json"] !in ExampleFiles(spec.useTypeScript, root);
  }

  /**
   * `main` passes `!useTypeScript` as `includeDevDeps`, so every generated manifest has development
   * dependencies: nodemon alone for JavaScript, the TypeScript toolchain and typings otherwise.
   */
  lemma ManifestDevDependencies(spec: ProjectSpec, root: Path)
    ensures var m := ProjectFiles(spec, root)[root + ["package.json"]];
            && m.Manifest? && m.withDevDependencies == !m.typeScript
            && var deps := PackageJsonTemplate(m.projectName, m.typeScript, m.withDevDependencies).devDependencies;
               && deps.Some?
               && (!spec.useTypeScript ==> deps == Some(map["nodemon" := "^3.1.10"]))
               && (spec.useTypeScript ==> {"nodemon", "ts-node", "typescript"} <= deps.value.Keys)
  {
    AlwaysWritten(spec, root);
    var m := ProjectFiles(spec, root)[root + ["package.json"]];
    assert m == Manifest(spec.name, spec.useTypeScript, !spec.useTypeScript);
    var r := PackageJsonTemplate(spec.name, spec.useTypeScript, !spec.useTypeScript);
    assert r.devDependencies.Some?;
  }

  /** Two files in different folders of one directory are different paths. */
  lemma FoldersSeparate(dir: Path, folder: string, name: string, other: string, otherName: string)
    requires folder != other
    ensures dir + [folder] + [name] != dir + [other] + [otherName]
  {
    assert (dir + [folder] + [name])[|dir|] == folder;
    assert (dir + [other] + [otherName])[|dir|] == other;
  }

  /** The example files never coincide with the modules under `src`. */
  lemma ExamplesApartFromModules(ts: bool, root: Path)
    ensures ExampleFiles(ts, root).Keys !! ModuleFiles(ts, root).Keys
  {
    var src := root + ["src"];
    assert "controllers"[0] != "middlewares"[0];
    assert "models"[0] != "config"[0] && "models"[0] != "routes"[0];
    FoldersSeparate(src, "controllers", SourceName("userController", ts), "config", SourceName("database", ts));
    FoldersSeparate(src, "controllers", SourceName("userController", ts), "middlewares", SourceName("auth", ts));
    FoldersSeparate(src, "controllers", SourceName("userController", ts), "middlewares", SourceName("errorHandler", ts));
    FoldersSeparate(src, "controllers", SourceName("userController", ts), "utils", SourceName("logger", ts));
    FoldersSeparate(src, "controllers", SourceName("userController", ts), "routes", SourceName("index", ts));
    FoldersSeparate(src, "controllers", SourceName("userController", ts), "routes", SourceName("auth", ts));
    FoldersSeparate(src, "models", SourceName("User", ts), "config", SourceName("database", ts));
    FoldersSeparate(src, "models", SourceName("User", ts), "middlewares", SourceName("auth", ts));
    FoldersSeparate(src, "models", SourceName("User", ts), "middlewares", SourceName("errorHandler", ts));
    FoldersSeparate(src, "models", SourceName("User", ts), "utils", SourceName("logger", ts));
    FoldersSeparate(src, "models", SourceName("User", ts), "routes", SourceName("index", ts));
    FoldersSeparate(src, "models", SourceName("User", ts), "routes", SourceName("auth", ts));
  }

  /** The example controller and model are written exactly when the examples are included. */
  lemma ExamplesIffAsked(spec: ProjectSpec, root: Path)
    ensures var ts := spec.useTypeScript;
            root + ["src"] + ["controllers"] + [SourceName("userController", ts)] in ProjectFiles(spec, root)
            <==> spec.includeExamples
    ensures var ts := spec.useTypeScript;
            root + ["src"] + ["models"] + [SourceName("User", ts)] in ProjectFiles(spec, root)
            <==> spec.includeExamples
  {
    ExamplesApartFromModules(spec.useTypeScript, root);
  }

  /** Nothing is in the way of the files of the run, once the layout exists. */
  predicate FilesClear(dirs: set<Path>, files: map<Path, Content>, spec: ProjectSpec, root: Path) {
    var models := if spec.includeExamples then {root + ["src"] + ["models"]} else {};
    && LayoutDirs(root) <= dirs
    && SourceFiles(spec, root).Keys !! dirs
    && (spec.includeExamples ==> ExamplesClear(dirs, files + SourceFiles(spec, root), spec.useTypeScript, root))
    && ExtraFiles(spec, root).Keys !! dirs + models
  }

  /** What `Ready` gives the phases of `main`, on the directories the earlier phases leave. */
  lemma ReadyPhases(dirs: set<Path>, files: map<Path, Content>, spec: ProjectSpec, root: Path)
    requires Ready(dirs, files, spec, root)
    ensures DirsClear(files, root, LayoutDirs(root))
    ensures FilesClear(dirs + Ancestors(root) + LayoutDirs(root), files, spec, root)
    ensures dirs + Ancestors(root) + LayoutDirs(root) + (if spec.includeExamples then {root + ["src"] + ["models"]} else {})
            == dirs + Ancestors(root) + ProjectDirs(root, spec.includeExamples)
  {
    FilesAwayFromDirs(spec, root);
    var models := root + ["src"] + ["models"];
    assert models in ProjectDirs(root, true);
    if spec.includeExamples {
      assert models in ProjectDirs(root, spec.includeExamples);
      assert models !in files;
    }
  }

  /** The project files are the sources, the examples when asked for, and the extras, written in that order. */
  lemma ProjectFilesInOrder(before: map<Path, Content>, spec: ProjectSpec, root: Path)
    ensures spec.includeExamples ==>
              before + SourceFiles(spec, root) + ExampleFiles(spec.useTypeScript, root) + ExtraFiles(spec, root)
              == before + ProjectFiles(spec, root)
    ensures !spec.includeExamples ==>
              before + SourceFiles(spec, root) + ExtraFiles(spec, root) == before + ProjectFiles(spec, root)
  {
    var sources := SourceFiles(spec, root);
    var examples := ExampleFiles(spec.useTypeScript, root);
    var extras := ExtraFiles(spec, root);
    BatchesCompose(before, sources, examples);
    BatchesCompose(before, sources + examples, extras);
    BatchesCompose(before, sources, extras);
  }

  /** Every `writeFile` of `main`, with `src/models` created before the examples. */
  method WriteProjectFiles(fs: FileSystem, spec: ProjectSpec, root: Path) returns (ok: bool)
    requires fs.Valid()
    modifies fs
    ensures fs.Valid()
    ensures ok ==> fs.files == old(fs.files) + ProjectFiles(spec, root)
    ensures PartlyWritten(old(fs.files), fs.files, ProjectFiles(spec, root))
    ensures fs.dirs == old(fs.dirs)
            || (spec.includeExamples && fs.dirs == old(fs.dirs) + Ancestors(root + ["src"] + ["models"]))
    ensures FilesClear(old(fs.dirs), old(fs.files), spec, root) ==>
              ok && fs.dirs == old(fs.dirs) + (if spec.includeExamples then {root + ["src"] + ["models"]} else {})
  {
    ghost var sources := SourceFiles(spec, root);
    ghost var examples := ExampleFiles(spec.useTypeScript, root);
    ghost var extras := ExtraFiles(spec, root);
    ghost var beforeExtras := if spec.includeExamples then sources + examples else sources;
    SourcesApartFromExamples(spec, root);
    ExtrasApart(spec, root);
    assert beforeExtras.Keys !! extras.Keys;
    assert ProjectFiles(spec, root) == beforeExtras + extras;
    ok := WriteSources(fs, spec, root);
    if !ok {
      if spec.includeExamples {
        PartlyWrittenWiden(old(fs.files), fs.files, sources, examples);
      }
      PartlyWrittenWiden(old(fs.files), fs.files, beforeExtras, extras);
      return;
    }
    if spec.includeExamples {
      ghost var middle := fs.files;
      ok := WriteExamples(fs, spec.useTypeScript, root);
      PartlyWrittenChain(old(fs.files), middle, fs.files, sources, examples);
      if !ok {
        PartlyWrittenWiden(old(fs.files), fs.files, beforeExtras, extras);
        return;
      }
    }
    ghost var middle := fs.files;
    ok := WriteExtras(fs, spec, root);
    PartlyWrittenChain(old(fs.files), middle, fs.files, beforeExtras, extras);
    ProjectFilesInOrder(old(fs.files), spec, root);
  }

  /**
   * `main` after the prompts: resolves the answers, creates the layout, writes the files in
   * order and runs git and the package manager. `exitsZero` says which commands succeed.
   */
  method RunGenerator(fs: FileSystem, cwd: Path, answers: Answers, exitsZero: string -> bool)
    returns (outcome: Outcome)
    requires fs.Valid()
    modifies fs
    ensures fs.Valid()
    ensures Resolve(answers).Failure? ==>
              outcome == Aborted(Resolve(answers).error) && fs.dirs == old(fs.dirs) && fs.files == old(fs.files)
    ensures outcome.Aborted? && Resolve(answers).Success? ==> outcome.reason == FileSystemError
    ensures outcome.Created? ==>
              && Resolve(answers).Success?
              && var spec := Resolve(answers).value;
                 && fs.files == old(fs.files) + ProjectFiles(spec, Join(cwd, answers.projectName))
                 && outcome == Created(Commands(spec),
                                       spec.installDeps && ExecuteCommand(InstallCommand(spec.packageManager), exitsZero),
                                       NextSteps(spec))
    ensures Resolve(answers).Success? ==>
              var spec, root := Resolve(answers).value, Join(cwd, answers.projectName);
              && old(fs.dirs) <= fs.dirs <= old(fs.dirs) + Ancestors(root) + ProjectDirs(root, spec.includeExamples)
              && PartlyWritten(old(fs.files), fs.files, ProjectFiles(spec, root))
    ensures Resolve(answers).Success? && Ready(old(fs.dirs), old(fs.files), Resolve(answers).value, Join(cwd, answers.projectName)) ==>
              && outcome.Created?
              && fs.dirs == old(fs.dirs) + Ancestors(Join(cwd, answers.projectName))
                            + ProjectDirs(Join(cwd, answers.projectName), Resolve(answers).value.includeExamples)
  {
    var resolved := Resolve(answers);
    if resolved.Failure? {
      return Aborted(resolved.error);
    }
    var spec := resolved.value;
    var root := Join(cwd, answers.projectName);
    if Ready(fs.dirs, fs.files, spec, root) {
      ReadyPhases(fs.dirs, fs.files, spec, root);
    }
    var ok := CreateLayout(fs, root);
    if !ok {
      PartOfBatch(fs.files, map[], ProjectFiles(spec, root));
      return Aborted(FileSystemError);
    }
    ghost var middle := fs.dirs;
    ok := WriteProjectFiles(fs, spec, root);
    DirsWithinProject(old(fs.dirs), middle, fs.dirs, root, spec.includeExamples);
    if !ok {
      return Aborted(FileSystemError);
    }
    var installed := false;
    if spec.installDeps {
      installed := ExecuteCommand(InstallCommand(spec.packageManager), exitsZero);
    }
    outcome := Created(Commands(spec), installed, NextSteps(spec));
  }
}
