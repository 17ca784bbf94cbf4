# Express project scaffolders, modelled in Dafny

This project models the two command-line scaffolders of the repository:

- `bin/create-express-project.js` is the full generator. Seven answers decide the
  project: name, TypeScript, package manager, README, example controllers and models,
  automatic install, and Git. Its `main` then creates a fixed tree of directories,
  writes every template file into it, optionally runs `git` and the install command,
  and prints the next steps.
- `bin/express-quick-setup.js` is the quick variant, `quickSetup`. It asks three
  questions, creates five directories and writes at most six files.

The disk is a `NodeFs.FileSystem` object: a set of directories and a map from file
paths to contents. Its methods behave like `existsSync`, `mkdirSync(…, { recursive: true })`
and `writeFileSync`, including the failures that the shape of the tree decides: a missing
parent, a file standing where a directory is needed, and a directory standing where a file
is written. Failures caused by permissions, space or the operating system are not modelled
(see "Left out"). Both scaffolders become
methods over that object, phase by phase, in the order the scripts issue their calls:

- `CreateExpressProject.RunGenerator` and its phases model the full generator.
- `ExpressQuickSetup.QuickSetup` models the quick variant.

Each phase is proved against a specification function of the answers, such as
`ProjectFiles`, `ProjectDirs` or `QuickFiles`. The lemmas state what the scripts
promise about the files they write:

- which files exist, and in which directory;
- that file extensions follow the language choice;
- the README, tsconfig and example files appear exactly when they were asked for;
- nothing is written where a directory stands;
- how the quick variant's manifest and files relate to the full generator's.

A file's content is the template call that produced it, for example
`Manifest(name, typeScript, withDevDependencies)` or `Source(file, typeScript)`.
The `package.json` and `nodemon.json` objects are modelled field by field
(`PackageJsonTemplate`, `NodemonTemplate`, `QuickPackageJson`, `QuickNodemonJson`).

For an unknown package manager, the program logs "Invalid package manager! Using npm
instead." (`bin/create-express-project.js:1057`), but the fallback on the next line does
not happen. Line 1058 assigns `'npm'` to `packageManager`, which line 1054 declared
`const`. That assignment throws a `TypeError`, and the `catch` at lines 1214-1217 turns it
into exit status 1 before anything is written. `Resolve` therefore yields
`Failure(ConstAssignment)` for such an answer, and `RunGenerator` leaves the disk untouched.
The model follows what the code does, not the message.

## Model

| member | source | states |
|---|---|---|
| NodeFs.FileSystem.MakeDirectory | bin/create-express-project.js:41 | `mkdirSync` with `recursive`: succeeds exactly when no file lies on the way to the path; then every ancestor of the path is a directory; files never change |
| NodeFs.FileSystem.WriteFile | bin/create-express-project.js:47 | `writeFileSync`: succeeds exactly when the parent is a directory and the path is not one; then that file is created or replaced and nothing else changes |
| NodeFs.WriteInto | bin/create-express-project.js:46-49 | writing `path.join(dir, name)` inside a batch of writes succeeds exactly when `dir` is a directory and no directory has the file's name; the batch then gains that file; on either outcome the disk holds, per path, its old content or the content the phase intends |
| NodeFs.FileSystem.Exists | bin/create-express-project.js:40 | `existsSync`: on a valid disk a path exists exactly when it is a directory or a file, and never both |
| NodeFs.PartlyWrittenChain | bin/create-express-project.js:1088-1177 | two phases that each leave every path with its old content or their own content, writing disjoint paths, together leave every path with its old content or the content of one of the two |
| Paths.JoinPlainName | bin/create-express-project.js:1077 | `path.join(base, name)` with a plain name appends one segment |
| Paths.Join | bin/create-express-project.js:1077 | `path.join(base, rel)` splits `rel` at `/` and resolves `.`, `..` and empty pieces; the result of joining onto a normal path is normal (the lemmas below say which segments it appends) |
| Paths.JoinEmpty | bin/express-quick-setup.js:39 | `path.join(cwd, "")` is `cwd` itself |
| Paths.JoinNested | bin/create-express-project.js:1101-1104 | `path.join(root, "dir/name")` appends two segments |
| Paths.JoinNested3 | bin/create-express-project.js:1115-1118 | `path.join(root, "dir/sub/name")` appends three segments |
| Paths.JoinSlashed | bin/express-quick-setup.js:43 | joining any slash-separated relative path of plain segments appends exactly those segments |
| Paths.SplitAtSeparator | bin/express-quick-setup.js:43 | splitting at the first `/` gives the first segment and then the split of the rest |
| Paths.AncestorsOfExtension | bin/express-quick-setup.js:43 | the directories `mkdirSync` creates for `p + q` are those for `p` plus each prefix of `q` under `p` |
| JsStrings.Trim | bin/create-express-project.js:1045 | `String.prototype.trim`: a non-empty result neither starts nor ends with whitespace; `TrimStart` and `TrimEnd` state that they remove a whitespace prefix and suffix and nothing else |
| JsStrings.Lower | bin/create-express-project.js:1051-1054 | `toLowerCase()`: same length, and each character lower-cased on its own |
| JsStrings.TrimEmptyIffAllWhitespace | bin/create-express-project.js:1045-1047 | a name is refused exactly when it consists of whitespace only |
| JsStrings.LowerMatches | bin/create-express-project.js:1053-1056 | `toLowerCase()` of an answer equals a lower-case word exactly when the answer spells it in any mix of cases |
| JsStrings.LowerIsLetter | bin/express-quick-setup.js:36 | `toLowerCase() === 'y'` holds exactly for the answers `y` and `Y` |
| Artifacts.ExtensionsDiffer | bin/create-express-project.js:1120-1124 | a source file named for one language carries that language's extension and not the other's |
| CreateExpressProject.ManagerName | bin/create-express-project.js:1053-1056 | the manager the generator uses is written in lower case letters |
| CreateExpressProject.YesByDefault | bin/create-express-project.js:1050-1051 | a yes/no answer means yes unless it is `n` or `N` |
| CreateExpressProject.ParsePackageManager | bin/create-express-project.js:1053-1059 | an empty answer means `npm`; otherwise a manager is found exactly when the answer names `npm`, `yarn` or `pnpm` in any case |
| CreateExpressProject.Resolve | bin/create-express-project.js:1044-1071 | a blank name aborts first; an unknown manager aborts through the `const` reassignment; otherwise every answer is carried into the `ProjectSpec` as read |
| CreateExpressProject.UnknownManagerAborts | bin/create-express-project.js:1057-1059 | the answer `bun` aborts the run rather than falling back to `npm` |
| CreateExpressProject.EntryNames | bin/create-express-project.js:1095-1098 | the entry file is `index.ts` for TypeScript and `index.js` otherwise |
| CreateExpressProject.PackageJsonTemplate | bin/create-express-project.js:64-108 | the manifest: name, version `1.0.0`, ISC licence, `main` by language, scripts `start`, `dev` and `test` plus `build` for TypeScript, the five runtime dependencies; development dependencies exactly for TypeScript or when asked for: the eight typings and tools for TypeScript, nodemon alone for JavaScript |
| CreateExpressProject.NodemonTemplate | bin/create-express-project.js:135-151 | nodemon watches `src` and the entry file with that language's extension, runs it with `ts-node` or `node`, and ignores `dist` for TypeScript and `node_modules` for JavaScript |
| CreateExpressProject.DevServerRunsStartScript | bin/create-express-project.js:144-149 | in JavaScript, nodemon runs the same command as the `start` script |
| CreateExpressProject.InstallCommand | bin/create-express-project.js:1190-1192 | the install command is the manager's name followed by ` install` |
| CreateExpressProject.ExecuteCommand | bin/create-express-project.js:51-60 | `executeCommand`: no contract of its own; it is the `exitsZero` oracle, true exactly when the command exits with status 0. That a failing command is not fatal is carried by `RunGenerator`, whose ready-disk clause yields `Created` for every `exitsZero` |
| CreateExpressProject.Commands | bin/create-express-project.js:1179-1197 | the commands run: the three Git commands first when Git was asked for, then the install command last exactly when installation was asked for |
| CreateExpressProject.NextSteps | bin/create-express-project.js:1203-1210 | the next steps: `1. cd <name>` first and `<n>. <manager> run dev` last, with the numbered `<manager> install` step exactly when dependencies were not installed |
| CreateExpressProject.CreateDirectory | bin/create-express-project.js:39-44 | an existing path is left alone and counts as success; otherwise the recursive `mkdirSync` creates the path and its ancestors, or fails when a file is in the way; on either outcome it adds nothing but ancestors of the path |
| CreateExpressProject.CreatingChild | bin/create-express-project.js:1081-1085 | creating a child of an existing directory adds just that one directory |
| CreateExpressProject.FolderIsJoin | bin/create-express-project.js:1081-1086 | `path.join(projectPath, 'src/<folder>')` is the folder one level under `src` |
| CreateExpressProject.ModuleIsJoin | bin/create-express-project.js:1115-1147 | `path.join(projectPath, 'src/<folder>/<stem>.' + ext)` is the file `<stem>.<ext>` in that folder |
| CreateExpressProject.LayoutOneByOne | bin/create-express-project.js:1077-1086 | creating the project directory and then `src` with its five subfolders, one by one, yields the project layout |
| CreateExpressProject.LayoutClosed | bin/create-express-project.js:1077-1086 | every directory above a layout folder is an ancestor of the project or a layout folder |
| CreateExpressProject.GrowsWithinLayout | bin/create-express-project.js:1077-1086 | one more `createDirectory` of a layout folder adds only ancestors of the project and layout folders |
| CreateExpressProject.CreateLayout | bin/create-express-project.js:1077-1086 | the directory phase leaves files unchanged; on either outcome it adds only ancestors of the project and layout folders; when no file stands in the way it succeeds and adds exactly those |
| CreateExpressProject.HeadEntries | bin/create-express-project.js:1088-1109 | each of the head writes lands on its own path with its own template in `HeadFiles` |
| CreateExpressProject.WriteHead | bin/create-express-project.js:1088-1109 | writes `package.json`, the entry file, `src/app` and, for TypeScript, `tsconfig.json`; directories never change; on success exactly these are added; on failure every file outside the batch keeps its content, and every other path holds its old content or the batch's; all writes succeed when the folders exist and no directory has their names |
| CreateExpressProject.ModuleEntries | bin/create-express-project.js:1111-1147 | each of the seven module writes lands on its own path with its own template in `ModuleFiles` |
| CreateExpressProject.WriteModules | bin/create-express-project.js:1111-1147 | writes `nodemon.json` and the config, middleware, logger and route modules in the chosen language; directories never change; on success exactly these are added; on failure every file outside the batch keeps its content, and every other path holds its old content or the batch's; all succeed when the layout exists and no directory is in the way |
| CreateExpressProject.HeadApartFromModules | bin/create-express-project.js:1088-1147 | the head and module writes never target the same path |
| CreateExpressProject.SourcesApartFromExamples | bin/create-express-project.js:1088-1163 | the example files never target a path of the head or module writes |
| CreateExpressProject.ExtrasApart | bin/create-express-project.js:1088-1177 | `.env`, `.gitignore` and `README.md` never target a path written by another phase |
| CreateExpressProject.WriteSources | bin/create-express-project.js:1088-1147 | the head and the module phases together: on success exactly `SourceFiles` are added; on failure every file outside the batch keeps its content, and every other path holds its old content or the batch's |
| CreateExpressProject.ExampleEntries | bin/create-express-project.js:1149-1163 | the example controller and model land on two different paths with their templates |
| CreateExpressProject.WriteExamples | bin/create-express-project.js:1149-1163 | creates `src/models` and writes the example controller and model; directories gain nothing or the ancestors of `src/models`; on failure every file outside the batch keeps its content, and every other path holds its old content or the batch's; when the way is clear, it succeeds and exactly one directory is added |
| CreateExpressProject.ExtraEntries | bin/create-express-project.js:1165-1177 | `.env`, `.gitignore` and the README land on their own paths with their contents |
| CreateExpressProject.WriteExtras | bin/create-express-project.js:1165-1177 | writes `.env`, `.gitignore` and, when asked for, `README.md` with the project's name, language and manager; directories never change; on failure every file outside the batch keeps its content, and every other path holds its old content or the batch's |
| CreateExpressProject.ProjectFilesInOrder | bin/create-express-project.js:1088-1177 | the phases' writes, applied in the script's order, add up to `ProjectFiles` |
| CreateExpressProject.WriteProjectFiles | bin/create-express-project.js:1088-1177 | every file phase in order: on success the disk holds exactly the old files plus `ProjectFiles`; on failure every file outside the batch keeps its content, and every other path holds its old content or the batch's; directories gain nothing or the ancestors of `src/models`, the latter only with examples; on a clear disk it succeeds and adds only `src/models`, and that only when examples were asked for |
| CreateExpressProject.ReadyPhases | bin/create-express-project.js:1077-1177 | a disk with no file on any project directory and no directory on any project file lets every phase succeed |
| CreateExpressProject.DirsWithinProject | bin/create-express-project.js:1077-1163 | the directory phase followed by the examples' `mkdirSync` adds only ancestors of the project and project folders |
| CreateExpressProject.RunGenerator | bin/create-express-project.js:1037-1218 | `main`: an invalid answer aborts with the disk unchanged; a failing disk call aborts with a file-system error; otherwise the disk gains exactly `ProjectFiles` under `path.join(cwd, name)`, and the outcome reports the commands run, whether the install succeeded, and the next steps; after any valid answers, even an aborted run adds only ancestors of the project and project folders, and leaves each path with its old content or its `ProjectFiles` content; on a ready disk the run succeeds and creates exactly the project's directories |
| CreateExpressProject.FilesAwayFromDirs | bin/create-express-project.js:1077-1177 | no generated file has the path of a generated directory or of an ancestor of the project |
| CreateExpressProject.DirsUndotted | bin/create-express-project.js:1077-1086 | no generated directory name contains a dot, unlike every generated file name |
| CreateExpressProject.SourcesMatchLanguage | bin/create-express-project.js:1094-1163 | every source file generated is in the chosen language and has its extension, not the other one |
| CreateExpressProject.FilesInsideProjectDirs | bin/create-express-project.js:1088-1177 | every generated file sits directly inside the project directory or one of its generated folders |
| CreateExpressProject.FilesAtRoot | bin/create-express-project.js:1088-1177 | the files at the project root are exactly the names `RootNames` lists for these answers |
| CreateExpressProject.HeadAtRoot | bin/create-express-project.js:1088-1109 | the head phase puts exactly `package.json`, the entry file and, for TypeScript, `tsconfig.json` at the root |
| CreateExpressProject.TsConfigIffTypeScript | bin/create-express-project.js:1106-1109 | `tsconfig.json` is generated exactly for TypeScript projects |
| CreateExpressProject.EntryInChosenLanguage | bin/create-express-project.js:1094-1098 | the entry file of the chosen language is generated, and the other language's is not |
| CreateExpressProject.NodemonMatchesLanguage | bin/create-express-project.js:1111-1112 | `nodemon.json` is always generated, from the template for the chosen language |
| CreateExpressProject.ReadmeIffAsked | bin/create-express-project.js:1171-1177 | `README.md` is generated exactly when asked for, with the project's name, language and manager |
| CreateExpressProject.AlwaysWritten | bin/create-express-project.js:1089-1169 | `.env` and `.gitignore` (lines 1165-1169) are always generated, and the manifest (lines 1089-1092) is `templates.packageJson(name, ts, !ts)`: development dependencies are requested exactly for JavaScript |
| CreateExpressProject.ManifestDevDependencies | bin/create-express-project.js:1089-1092 | every generated manifest has development dependencies: exactly nodemon `^3.1.10` for JavaScript, and nodemon, `ts-node` and `typescript` among them for TypeScript |
| CreateExpressProject.ExamplesIffAsked | bin/create-express-project.js:1149-1163 | the example controller and model are generated exactly when asked for |
| CreateExpressProject.ExamplesApartFromModules | bin/create-express-project.js:1111-1163 | the example files never overwrite a module file |
| CreateExpressProject.FoldersSeparate | bin/create-express-project.js:1114-1147 | files in two different folders never share a path |
| ExpressQuickSetup.QuickResolve | bin/express-quick-setup.js:35-37 | the name is kept as typed; TypeScript exactly for `y` or `Y`; the manager is the answer, or `npm` when the answer is empty |
| ExpressQuickSetup.TypeScriptDefaultsDiffer | bin/express-quick-setup.js:36 | every answer that picks TypeScript here also picks it in the full generator, but an empty answer or `yes` picks it there and not here |
| ExpressQuickSetup.QuickRootPlacement | bin/express-quick-setup.js:39 | an empty name scaffolds into the working directory itself; a plain name into a child of it |
| ExpressQuickSetup.QuickDirsAsWritten | bin/express-quick-setup.js:42 | the five directories are `src`, `src/routes`, `src/controllers`, `src/models` and `public`, in that order |
| ExpressQuickSetup.QuickDirsMade | bin/express-quick-setup.js:42-44 | creating them one after another yields the project's ancestors plus exactly those five directories |
| ExpressQuickSetup.MadeDirsCover | bin/express-quick-setup.js:42-44 | every directory of the list, with its ancestors, is among those made |
| ExpressQuickSetup.ClearPrefix | bin/express-quick-setup.js:42-44 | the number of directories the loop gets through: all before it are free of files on their way, and the one at it, if any, is not |
| ExpressQuickSetup.MadeDirsPrefix | bin/express-quick-setup.js:42-44 | the directories made by the first calls of the loop are among those the whole loop makes |
| ExpressQuickSetup.MakeJoinedDir | bin/express-quick-setup.js:43 | one `mkdirSync(path.join(projectPath, dir), { recursive: true })`: succeeds exactly when no file lies on the way, then adds the directory and its ancestors; files never change |
| ExpressQuickSetup.MakeEachDir | bin/express-quick-setup.js:42-44 | the `forEach` loop succeeds exactly when no file lies on the way to any of the directories; on every outcome it adds exactly the directories the calls before the first failing one make; files never change |
| ExpressQuickSetup.MakeQuickDirs | bin/express-quick-setup.js:39-44 | on every outcome it adds the directories of the calls before the first failure, all of them ancestors of the project or its five folders; on success the project directory and its five folders exist, and nothing else was added; when no file stands in the way it succeeds |
| ExpressQuickSetup.QuickPackageJson | bin/express-quick-setup.js:47-71 | the quick manifest: no description, keywords, author or licence; `main` and scripts by language, without `test`; three dependencies; the six development dependencies exactly for TypeScript |
| ExpressQuickSetup.QuickManifestScriptsLikeFull | bin/express-quick-setup.js:47-55 | same name, version and `main` as the full manifest, and the same scripts less `test` |
| ExpressQuickSetup.QuickDependenciesWithinFull | bin/express-quick-setup.js:56-60 | the quick dependencies are a strict subset of the full ones, at the same versions |
| ExpressQuickSetup.QuickDevDependenciesWithinFull | bin/express-quick-setup.js:61-70 | the quick TypeScript development dependencies are a strict subset of the full ones, at the same versions |
| ExpressQuickSetup.JavaScriptDevNeedsGlobalNodemon | bin/express-quick-setup.js:53 | a JavaScript quick project runs `nodemon` from its `dev` script but lists no development dependency, unlike the full one |
| ExpressQuickSetup.QuickNodemonJson | bin/express-quick-setup.js:97-101 | nodemon watches `src` and `index.ts`, extension `ts`, runs `ts-node index.ts`, and ignores nothing |
| ExpressQuickSetup.QuickNodemonLikeFull | bin/express-quick-setup.js:97-101 | it is the full TypeScript nodemon configuration without its `ignore` list |
| ExpressQuickSetup.QuickFilesAtRoot | bin/express-quick-setup.js:73-107 | the files written are exactly `QuickRootNames` at the project root |
| ExpressQuickSetup.QuickFilesOnlyAtRoot | bin/express-quick-setup.js:73-107 | every file written sits directly in the project directory; none goes into the folders made |
| ExpressQuickSetup.QuickFilesFollowLanguage | bin/express-quick-setup.js:80-103 | `tsconfig.json` and `nodemon.json` exactly for TypeScript; the entry file in the chosen language and not the other |
| ExpressQuickSetup.QuickFixedFiles | bin/express-quick-setup.js:73-107 | `package.json` is the quick manifest; `.env` and `.gitignore` have their fixed texts |
| ExpressQuickSetup.QuickRootFilesWithinFull | bin/express-quick-setup.js:73-107 | the quick root files are a subset of the full generator's; the full one adds only `nodemon.json` for JavaScript and `README.md` when asked for |
| ExpressQuickSetup.QuickNamesFree | bin/express-quick-setup.js:73-107 | when no directory has a file's name, each individual write has room |
| ExpressQuickSetup.QuickEntries | bin/express-quick-setup.js:73-107 | each of the six writes lands on its own path with its own content in `QuickFiles` |
| ExpressQuickSetup.WriteQuickFiles | bin/express-quick-setup.js:73-107 | directories never change; on success the disk gains exactly `QuickFiles`; on failure every file outside the batch keeps its content, and every other path holds its old content or the batch's; with the project directory present and no directory in the way, it succeeds |
| ExpressQuickSetup.QuickNextSteps | bin/express-quick-setup.js:110-113 | no contract of its own: the three unnumbered steps `cd`, `install` and `run dev`; `QuickNextStepsLikeFull` relates them to the full generator's steps |
| ExpressQuickSetup.QuickNextStepsLikeFull | bin/express-quick-setup.js:109-113 | the quick next steps are the full generator's steps without their numbering, for a run without automatic install |
| ExpressQuickSetup.QuickSetup | bin/express-quick-setup.js:31-116 | a successful run leaves exactly the five folders and `QuickFiles` under `path.join(cwd, name)` and prints the next steps; any run adds only ancestors of the project and its five folders, and leaves each path with its old content or its `QuickFiles` content; on a ready disk the run succeeds |

## Left out

- Prompting through `readline`, and its closing in `finally`, are not modelled. The answers arrive as the records `Answers` and `QuickAnswers`.
- Coloured console output and log messages are left out; they do not affect what is written.
- Child processes (`git init`, `git add`, `git commit`, the install command) become an `exitsZero` parameter that says which commands succeed. What they do to the disk is not modelled.
- Template bodies are not modelled as text. A file's content is the template call that produced it, so two files are equal when the same template was called with the same arguments. The quick variant's `.env` and `.gitignore` are literal texts and are kept verbatim.
- JSON serialisation (`JSON.stringify` with indentation, key order) is left out. `package.json` and `nodemon.json` are records whose script and dependency sets are maps.
- `test-package.js` and the `SIGINT` handler are not part of this model.
- `JsStrings.Lower` lower-cases ASCII letters only. The answers compared (`n`, `y`, `npm`, `yarn`, `pnpm`) are ASCII words, and no non-ASCII character lower-cases to one of their letters, so the comparisons come out the same.
- Paths are POSIX paths of segments. Windows separators, drive letters and symbolic links are not modelled. `path.join` collapses `.` and `..`; the proofs rely only on plain names and the empty name.
- `ExpressQuickSetup.QuickSetup`: every failure is printed by `.catch(console.error)` and the process exits with status 0 either way, so the outcome carries no exit status.
- NodeFs.FileSystem.MakeDirectory and NodeFs.FileSystem.WriteFile fail only for the shape of the tree: a missing parent (ENOENT), a file on the way (ENOTDIR, EEXIST) or a directory where a file is written (EISDIR). Missing permissions (EACCES, EPERM), a read-only file system (EROFS), a full disk (ENOSPC), an over-long name (ENAMETOOLONG) and a name holding a NUL character, which Node refuses with an invalid-argument error, are not modelled. The clauses saying that a ready disk lets a run succeed (`RunGenerator`, `QuickSetup` and their phases) hold only in their absence.
- CreateExpressProject.RunGenerator and ExpressQuickSetup.QuickSetup bound the directories a failed run leaves behind, rather than naming them: a failure part-way may leave any prefix of the calls done.
- Concurrent changes to the disk while a script runs are not modelled.
