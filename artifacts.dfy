/**
 * What the scaffolders write. A file's content is named by the template call that renders it,
 * with the arguments that call receives; the records `PackageJson` and `NodemonConfig` are the
 * objects the manifest and nodemon templates serialise, and the scaffolders give their values.
 */
module Artifacts {
  import opened Wrappers

  /** `package.json` as the object handed to `JSON.stringify` (an absent key is `None`). */
  datatype PackageJson = PackageJson(
    name: string,
    version: string,
    description: Option<string>,
    main: string,
    scripts: map<string, string>,
    keywords: Option<seq<string>>,
    author: Option<string>,
    license: Option<string>,
    dependencies: map<string, string>,
    devDependencies: Option<map<string, string>>)

  /** `nodemon.json`. */
  datatype NodemonConfig = NodemonConfig(
    watch: seq<string>,
    ext: string,
    ignore: Option<seq<string>>,
    exec: string)

  /** The source templates of the full generator, each with a TypeScript and a JavaScript body. */
  datatype SourceFile =
    | Entry           // newIndexTs / newIndexJs
    | App             // appTs / appJs
    | DatabaseConfig  // configDbTs / configDbJs
    | AuthMiddleware  // authMiddlewareTs / authMiddlewareJs
    | ErrorHandler    // errorHandlerTs / errorHandlerJs
    | Logger          // loggerTs / loggerJs
    | RoutesIndex     // routesIndexTs / routesIndexJs
    | AuthRoutes      // authRoutesTs / authRoutesJs
    | UserController  // controllerTs / controllerJs
    | UserModel       // modelTs / modelJs

  datatype Content =
    | Manifest(projectName: string, typeScript: bool, withDevDependencies: bool)  // templates.packageJson(...)
    | TsConfig
    | Nodemon(typeScript: bool)  // templates.nodemonJson, TypeScript or JavaScript variant
    | Source(file: SourceFile, typeScript: bool)
    | EnvFile
    | Gitignore
    | Readme(projectName: string, typeScript: bool, packageManager: string)
    | QuickManifest(projectName: string, typeScript: bool)  // the quick setup's `pkg` object
    | QuickEntry(typeScript: bool)
    | QuickTsConfig
    | QuickNodemon
    | Text(text: string)

  /** The extension of every generated source file. */
  function Ext(typeScript: bool): string {
    if typeScript then "ts" else "js"
  }

  function SourceName(stem: string, typeScript: bool): string {
    stem + "." + Ext(typeScript)
  }

  /** The entry file at the project root. */
  function EntryName(typeScript: bool): string {
    SourceName("index", typeScript)
  }

  predicate HasExtension(name: string, ext: string) {
    |name| > |ext| && name[|name| - |ext| - 1..] == "." + ext
  }

  /** The two extensions never both fit one file name. */
  lemma ExtensionsDiffer(name: string, typeScript: bool)
    ensures HasExtension(SourceName(name, typeScript), Ext(typeScript))
    ensures !HasExtension(SourceName(name, typeScript), Ext(!typeScript))
  {
    var full := SourceName(name, typeScript);
    assert full[|full| - 3..] == "." + Ext(typeScript);
    assert full[|full| - 2] == Ext(typeScript)[0] != Ext(!typeScript)[0];
  }
}
