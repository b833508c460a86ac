/**
  The file plan of the command-line entry point: which directories and files
  `createFiles`, `createTestFiles`, `createContainerFiles` and `initialize`
  would create, where, and with which template text. Instead of performing
  the writes, each operation returns its plan: the steps of one promise as a
  `Task`, and the promises of a run in the order they are started.
 */
module Scaffold {
  import opened JsText
  import opened ComponentData

  /** The flags of a run as the command-line parser leaves them. */
  datatype Flags = Flags(
    withcontainer: JsValue,
    notest: JsValue,
    reactnative: JsValue,
    createindex: JsValue,
    functional: JsValue,
    uppercase: JsValue)

  /** Helpers whose code is not part of this model, passed in as functions:
      the string helper, the component-path helpers, Node's `path.join` and
      the argument validator. */
  datatype Collaborators = Collaborators(
    capitalizeFirstLetter: string -> string,
    getComponentName: string -> string,
    getComponentParentFolder: string -> string,
    pathJoin: (string, string) -> string,
    validateArguments: (seq<string>, Flags) -> bool)

  /** Which template-registry call renders a file, with its arguments. */
  datatype Template =
    | Index(componentName: string, sharedName: string)
    | ClassComponent(componentName: string)
    | FunctionalComponent(componentName: string)
    | NativeComponent(componentName: string)
    | Test(componentName: string, upperCase: JsValue)
    | Container(name: string, importPath: string)

  /** The text a template renders to. */
  function Render(cap: string -> string, t: Template): string {
    match t
    case Index(componentName, sharedName) => CreateIndex(componentName, sharedName)
    case ClassComponent(componentName) => CreateReactComponent(cap, componentName)
    case FunctionalComponent(componentName) => CreateReactFunctionalComponent(cap, componentName)
    case NativeComponent(componentName) => CreateReactNativeComponent(cap, componentName)
    case Test(componentName, upperCase) => CreateTest(cap, componentName, upperCase)
    case Container(name, importPath) => CreateComponentContainerFile(name, importPath)
  }

  /** One filesystem effect: `createDirectorys(path)`, or `writeFileAsync(path, data)`
      where `data` is the text `template` renders to. */
  datatype Step = CreateDirectory(path: string) | WriteFile(path: string, template: Template)

  /** The effects of one promise, in the order they are issued. */
  type Task = seq<Step>

  datatype Option<T> = None | Some(value: T)

  const SharedName: string := "Render"
  const TestDirectory: string := "__tests__"
  const WebExt: string := "jsx"
  const NativeExt: string := "native.js"
  const TestExt: string := "test"

  /** The file names as createFiles and createTestFiles build them. */
  function IndexFileName(componentName: string): string { componentName + ".js" }
  const WebFileName: string := SharedName + "." + WebExt
  const NativeFileName: string := SharedName + "." + NativeExt
  function TestFileNameWeb(componentName: string): string { componentName + "." + TestExt + "." + WebExt }
  function TestFileNameNative(componentName: string): string { componentName + "." + TestExt + "." + NativeExt }

  /** The file names spelled out. */
  lemma FileNames(componentName: string)
    ensures WebFileName == "Render.jsx" && NativeFileName == "Render.native.js"
    ensures TestFileNameWeb(componentName) == componentName + ".test.jsx"
    ensures TestFileNameNative(componentName) == componentName + ".test.native.js"
  {
    assert componentName + "." + TestExt + "." + WebExt == componentName + (".test.jsx");
    assert componentName + "." + TestExt + "." + NativeExt == componentName + (".test.native.js");
  }

  /** The index file name never equals the web file name, and equals the
      native file name only for the component name `Render.native`. */
  lemma IndexFileNameClashes(componentName: string)
    ensures IndexFileName(componentName) != WebFileName
    ensures IndexFileName(componentName) == NativeFileName <==> componentName == "Render.native"
  {
    FileNames(componentName);
    var f := IndexFileName(componentName);
    if |f| == |WebFileName| {
      assert f[7] == '.' && WebFileName[7] == 'j';
    }
    if f == NativeFileName {
      assert componentName == f[..|componentName|];
    }
  }

  // ---------------------------------------------------------------------
  // The capitalisation loop shared by createFiles and createTestFiles
  // ---------------------------------------------------------------------

  /** `files.splice(i, 1, capitalizeFirstLetter(files[i]))` for every index
      but 0: the first name keeps its casing, every later one is capitalised,
      and the length does not change. */
  method CapitalizeAllButFirst(cap: string -> string, files: array<string>)
    modifies files
    ensures files.Length > 0 ==> files[0] == old(files[0])
    ensures forall k :: 1 <= k < files.Length ==> files[k] == cap(old(files[k]))
  {
    var i := 0;
    while i < files.Length
      invariant 0 <= i <= files.Length
      invariant files.Length > 0 ==> files[0] == old(files[0])
      invariant forall k :: 1 <= k < i ==> files[k] == cap(old(files[k]))
      invariant forall k :: i <= k < files.Length ==> files[k] == old(files[k])
    {
      if i != 0 {
        files[i] := cap(files[i]);
      }
      i := i + 1;
    }
  }

  // ---------------------------------------------------------------------
  // createFiles
  // ---------------------------------------------------------------------

  /** The file names createFiles ends up with: the index file keeps the name
      as given, the two render files are passed through the capitaliser. */
  function ComponentFileNames(cap: string -> string, componentName: string): seq<string> {
    [IndexFileName(componentName), cap(WebFileName), cap(NativeFileName)]
  }

  /** The web render file: the functional template when the flag is truthy,
      the class template otherwise. */
  function WebComponent(functional: JsValue): Template {
    if functional.Truthy() then FunctionalComponent(SharedName) else ClassComponent(SharedName)
  }

  /** Which template a file of createFiles receives; a file matching none of
      the three names receives nothing. */
  function FileContent(h: Collaborators, flags: Flags, componentName: string, file: string): Option<Template> {
    if file == IndexFileName(componentName) then Some(Index(h.capitalizeFirstLetter(componentName), SharedName))
    else if file == WebFileName then Some(WebComponent(flags.functional))
    else if file == NativeFileName then Some(NativeComponent(SharedName))
    else None
  }

  /** The writes createFiles issues for `files`, one per file that matches. */
  function ComponentWrites(h: Collaborators, flags: Flags, componentName: string,
                           componentPath: string, files: seq<string>): Task
    decreases |files|
  {
    if files == [] then []
    else ComponentWrites(h, flags, componentName, componentPath, files[..|files| - 1])
         + FileWrite(h, flags, componentName, componentPath, files[|files| - 1])
  }

  /** The write for one file of createFiles, if it matches a name. */
  function FileWrite(h: Collaborators, flags: Flags, componentName: string, componentPath: string, file: string): Task {
    match FileContent(h, flags, componentName, file)
    case Some(data) => [WriteFile(h.pathJoin(componentPath, file), data)]
    case None => []
  }

  lemma ComponentWritesOfThree(h: Collaborators, flags: Flags, componentName: string, componentPath: string,
                               files: seq<string>)
    requires |files| == 3
    ensures ComponentWrites(h, flags, componentName, componentPath, files)
         == FileWrite(h, flags, componentName, componentPath, files[0])
          + FileWrite(h, flags, componentName, componentPath, files[1])
          + FileWrite(h, flags, componentName, componentPath, files[2])
  {
    assert files[..2][..1] == files[..1] && files[..1][..0] == [];
    assert ComponentWrites(h, flags, componentName, componentPath, files[..1])
        == FileWrite(h, flags, componentName, componentPath, files[0]);
  }

  /** The whole effect of createFiles: create the component directory, then
      write the files. */
  function ComponentTask(h: Collaborators, flags: Flags, componentName: string, componentPath: string): Task {
    [CreateDirectory(componentPath)]
    + ComponentWrites(h, flags, componentName, componentPath,
                      ComponentFileNames(h.capitalizeFirstLetter, componentName))
  }

  /** createFiles: builds `[name.js, Render.jsx, Render.native.js]`,
      capitalises every entry but the first in place, then issues one write
      per file that matches one of the three names. Returns the file list it
      resolves with and its plan. */
  method CreateFiles(h: Collaborators, flags: Flags, componentName: string, componentPath: string)
    returns (files: seq<string>, task: Task)
    ensures files == [IndexFileName(componentName),
                      h.capitalizeFirstLetter(WebFileName),
                      h.capitalizeFirstLetter(NativeFileName)]
    ensures task == ComponentTask(h, flags, componentName, componentPath)
  {
    var name := componentName;
    var indexFile := IndexFileName(name);
    var componentFileNameWeb := WebFileName;
    var componentFileNameNative := NativeFileName;

    var list := new string[3][indexFile, componentFileNameWeb, componentFileNameNative];

    name := h.capitalizeFirstLetter(name);
    CapitalizeAllButFirst(h.capitalizeFirstLetter, list);
    files := list[..];

    task := [CreateDirectory(componentPath)];
    var i := 0;
    while i < |files|
      invariant 0 <= i <= |files|
      invariant task == [CreateDirectory(componentPath)]
                        + ComponentWrites(h, flags, componentName, componentPath, files[..i])
    {
      var file := files[i];
      var filePath := h.pathJoin(componentPath, file);
      assert files[..i + 1][..i] == files[..i];
      if file == indexFile {
        // createFiles passes a third argument, `program.uppercase`, which
        // createIndex does not take
        task := task + [WriteFile(filePath, Index(name, SharedName))];
      } else if file == WebFileName {
        var data;
        if flags.functional.Truthy() {
          data := FunctionalComponent(SharedName);
        } else {
          data := ClassComponent(SharedName);
        }
        task := task + [WriteFile(filePath, data)];
      } else if file == NativeFileName {
        task := task + [WriteFile(filePath, NativeComponent(SharedName))];
      }
      i := i + 1;
    }
    assert files[..|files|] == files;
  }

  /** Content dispatch of createFiles: when the capitaliser leaves the two
      render file names alone, each of the three files gets exactly one
      write: the index file the wrapper around the capitalised name, the web
      file the functional template exactly when the flag is truthy, the
      native file the native template. */
  lemma ComponentTaskWritesEachFileOnce(h: Collaborators, flags: Flags, componentName: string, componentPath: string)
    requires h.capitalizeFirstLetter(WebFileName) == WebFileName
    requires h.capitalizeFirstLetter(NativeFileName) == NativeFileName
    requires componentName != "Render.native"
    ensures ComponentTask(h, flags, componentName, componentPath) ==
      [ CreateDirectory(componentPath),
        WriteFile(h.pathJoin(componentPath, IndexFileName(componentName)),
                  Index(h.capitalizeFirstLetter(componentName), SharedName)),
        WriteFile(h.pathJoin(componentPath, WebFileName),
                  if flags.functional.Truthy() then FunctionalComponent(SharedName) else ClassComponent(SharedName)),
        WriteFile(h.pathJoin(componentPath, NativeFileName), NativeComponent(SharedName)) ]
  {
    IndexFileNameClashes(componentName);
    FileNames(componentName);
    ComponentWritesOfThree(h, flags, componentName, componentPath,
                           ComponentFileNames(h.capitalizeFirstLetter, componentName));
  }

  /** A component named `Render.native` collides with the native render file:
      the index test comes first, so `Render.native.js` receives the index
      wrapper twice and the native template is never written. */
  lemma RenderNativeNameCollision(h: Collaborators, flags: Flags, componentPath: string)
    requires h.capitalizeFirstLetter(WebFileName) == WebFileName
    requires h.capitalizeFirstLetter(NativeFileName) == NativeFileName
    ensures var index := WriteFile(h.pathJoin(componentPath, NativeFileName),
                                   Index(h.capitalizeFirstLetter("Render.native"), SharedName));
            ComponentTask(h, flags, "Render.native", componentPath) ==
              [ CreateDirectory(componentPath),
                index,
                WriteFile(h.pathJoin(componentPath, WebFileName), WebComponent(flags.functional)),
                index ]
  {
    IndexFileNameClashes("Render.native");
    FileNames("Render.native");
    ComponentWritesOfThree(h, flags, "Render.native", componentPath,
                           ComponentFileNames(h.capitalizeFirstLetter, "Render.native"));
  }

  /** Of all the flags, createFiles consults only whether `functional` is
      truthy; in particular the index content ignores `uppercase`. */
  lemma {:induction false} ComponentWritesReadOnlyFunctional(h: Collaborators, f1: Flags, f2: Flags,
                                                             componentName: string, componentPath: string, files: seq<string>)
    requires f1.functional.Truthy() == f2.functional.Truthy()
    ensures ComponentWrites(h, f1, componentName, componentPath, files)
         == ComponentWrites(h, f2, componentName, componentPath, files)
    decreases |files|
  {
    if files != [] {
      ComponentWritesReadOnlyFunctional(h, f1, f2, componentName, componentPath, files[..|files| - 1]);
    }
  }

  // ---------------------------------------------------------------------
  // createTestFiles
  // ---------------------------------------------------------------------

  /** One write of `data` per file, inside `dir`. */
  function TestWrites(h: Collaborators, dir: string, files: seq<string>, data: Template): Task
    decreases |files|
  {
    if files == [] then []
    else TestWrites(h, dir, files[..|files| - 1], data)
         + [WriteFile(h.pathJoin(dir, files[|files| - 1]), data)]
  }

  /** The whole effect of createTestFiles: create `<componentPath>/__tests__`,
      then write the same test text to both test files. */
  function TestTask(h: Collaborators, flags: Flags, componentName: string, componentPath: string): Task {
    var cap := h.capitalizeFirstLetter;
    var dir := componentPath + "/" + TestDirectory;
    [CreateDirectory(dir)]
    + TestWrites(h, dir, [TestFileNameWeb(componentName), cap(TestFileNameNative(componentName))],
                 Test(cap(componentName), flags.uppercase))
  }

  /** createTestFiles: builds `[name.test.jsx, name.test.native.js]`,
      capitalises every entry but the first in place, then writes the test
      text, rendered for the capitalised name, to each. Returns what it
      resolves with (`dir` and `files`) and its plan. */
  method CreateTestFiles(h: Collaborators, flags: Flags, componentName: string, componentPath: string)
    returns (dir: string, files: seq<string>, task: Task)
    ensures dir == "__tests__"
    ensures files == [TestFileNameWeb(componentName),
                      h.capitalizeFirstLetter(TestFileNameNative(componentName))]
    ensures task == TestTask(h, flags, componentName, componentPath)
  {
    var testDirectory := TestDirectory;
    var name := componentName;
    var testFileNameWeb := TestFileNameWeb(name);
    var testFileNameNative := TestFileNameNative(name);

    var list := new string[2][testFileNameWeb, testFileNameNative];

    name := h.capitalizeFirstLetter(name);
    CapitalizeAllButFirst(h.capitalizeFirstLetter, list);
    files := list[..];

    var componentTestDirPath := componentPath + "/" + testDirectory;
    task := [CreateDirectory(componentTestDirPath)];
    var i := 0;
    while i < |files|
      invariant 0 <= i <= |files|
      invariant task == [CreateDirectory(componentTestDirPath)]
                        + TestWrites(h, componentTestDirPath, files[..i], Test(name, flags.uppercase))
    {
      var file := files[i];
      var filePath := h.pathJoin(componentTestDirPath, file);
      var data := Test(name, flags.uppercase);
      assert files[..i + 1][..i] == files[..i];
      task := task + [WriteFile(filePath, data)];
      i := i + 1;
    }
    assert files[..|files|] == files;
    dir := testDirectory;
  }

  /** Both test files sit in `<componentPath>/__tests__` and receive the same
      text, rendered for the capitalised name with the `uppercase` flag; the
      web test file keeps the name's casing, the native one is capitalised. */
  lemma TestFilesShareContent(h: Collaborators, flags: Flags, componentName: string, componentPath: string)
    ensures var cap := h.capitalizeFirstLetter;
            var dir := componentPath + "/__tests__";
            var data := Test(cap(componentName), flags.uppercase);
            TestTask(h, flags, componentName, componentPath) ==
              [ CreateDirectory(dir),
                WriteFile(h.pathJoin(dir, componentName + ".test.jsx"), data),
                WriteFile(h.pathJoin(dir, cap(componentName + ".test.native.js")), data) ]
  {
    FileNames(componentName);
    var cap := h.capitalizeFirstLetter;
    var dir := componentPath + "/" + TestDirectory;
    var data := Test(cap(componentName), flags.uppercase);
    var files := [TestFileNameWeb(componentName), cap(TestFileNameNative(componentName))];
    assert files[..1] == [files[0]] && files[..1][..0] == [];
    assert TestWrites(h, dir, files[..1], data) == [WriteFile(h.pathJoin(dir, files[0]), data)];
    assert TestWrites(h, dir, files, data)
        == [WriteFile(h.pathJoin(dir, files[0]), data), WriteFile(h.pathJoin(dir, files[1]), data)];
    assert dir == componentPath + "/__tests__";
  }

  /** The name createTestFiles hands to the test template is already
      capitalised; when capitalising is idempotent on it, the test imports
      `'../<Capitalised>'` whatever `uppercase` holds, so the flag has no
      effect on the test text. */
  lemma TestImportIgnoresUppercase(h: Collaborators, flags: Flags, componentName: string)
    requires h.capitalizeFirstLetter(h.capitalizeFirstLetter(componentName)) == h.capitalizeFirstLetter(componentName)
    ensures var cap := h.capitalizeFirstLetter;
            var c := cap(componentName);
            && Render(cap, Test(c, flags.uppercase)) == Render(cap, Test(c, Undefined))
            && Contains(Render(cap, Test(c, flags.uppercase)), "import " + c + " from '../" + c + "'")
  {
  }

  // ---------------------------------------------------------------------
  // createContainerFiles
  // ---------------------------------------------------------------------

  /** `'../../' + componentPath.slice(componentPath.indexOf('components'))`:
      the path from its first `components` on; without one, indexOf gives -1
      and the slice keeps only the last character. */
  function ContainerImportPath(componentPath: string): (r: string)
    ensures forall i :: FirstOccurrence(componentPath, "components", i) ==>
              r == "../../" + componentPath[i..]
    ensures !Contains(componentPath, "components") && |componentPath| > 0 ==>
              r == "../../" + [componentPath[|componentPath| - 1]]
    ensures componentPath == "" ==> r == "../../"
  {
    var start := IndexOf(componentPath, "components");
    assert forall i :: FirstOccurrence(componentPath, "components", i) ==> i == start;
    "../../" + Slice(componentPath, start)
  }

  /** createContainerFiles: one write, to `<fullContainerPath>.js`, of the
      container template importing `<import path>/<componentName>`. No
      directory is created for it. */
  function CreateContainerFiles(componentName: string, componentPath: string, fullContainerPath: string): (task: Task)
    ensures |task| == 1 && task[0].WriteFile? && task[0].path == fullContainerPath + ".js"
    ensures task[0].template == Container(componentName, ContainerImportPath(componentPath) + "/" + componentName)
  {
    var importPath := ContainerImportPath(componentPath);
    [WriteFile(fullContainerPath + ".js", Container(componentName, importPath + "/" + componentName))]
  }

  /** The container text imports the component from the import path derived
      from `componentPath`, verbatim, and exports `<name>Container`. */
  lemma ContainerFileText(cap: string -> string, componentName: string, componentPath: string, fullContainerPath: string)
    ensures var text := Render(cap, CreateContainerFiles(componentName, componentPath, fullContainerPath)[0].template);
            && Contains(text, "  import " + componentName + " from '"
                              + (ContainerImportPath(componentPath) + "/" + componentName) + "'")
            && Contains(text, "  export default " + (componentName + "Container"))
  {
  }

  // ---------------------------------------------------------------------
  // initialize
  // ---------------------------------------------------------------------

  /** How a run ends: `args[0]` missing (the path join of `undefined` throws
      before anything else), arguments rejected by the validator, the
      component path already present, or the plan of every promise started. */
  datatype Outcome = NoArguments | InvalidArguments | AlreadyExists(componentPath: string) | Planned(tasks: seq<Task>)

  /** How many promises one argument starts. */
  function TasksPerArgument(flags: Flags): nat {
    if flags.withcontainer.Truthy() then 3 else 2
  }

  /** The promises started for one positional argument: its component files,
      its test files and, with `withcontainer`, its container file. */
  function ArgumentTasks(h: Collaborators, flags: Flags, relativePath: string, folderPath: string, arg: string): seq<Task> {
    var name := h.getComponentName(arg);
    [ComponentTask(h, flags, name, folderPath + name), TestTask(h, flags, name, folderPath + name)]
    + if flags.withcontainer.Truthy()
      then [CreateContainerFiles(name, relativePath,
                                 ReplaceFirst(folderPath, "components", "containers") + name)]
      else []
  }

  function AllTasks(h: Collaborators, flags: Flags, relativePath: string, folderPath: string, args: seq<string>): seq<Task>
    decreases |args|
  {
    if args == [] then []
    else AllTasks(h, flags, relativePath, folderPath, args[..|args| - 1])
         + ArgumentTasks(h, flags, relativePath, folderPath, args[|args| - 1])
  }

  function InitializeOutcome(h: Collaborators, flags: Flags, rootDir: string, args: seq<string>,
                             pathExists: string -> bool): Outcome
  {
    if |args| == 0 then NoArguments
    else
      var relativePath := args[0];
      var componentPath := h.pathJoin(rootDir, relativePath);
      var folderPath := h.getComponentParentFolder(componentPath);
      if !h.validateArguments(args, flags) then InvalidArguments
      else if pathExists(componentPath) then AlreadyExists(componentPath)
      else Planned(AllTasks(h, flags, relativePath, folderPath, args))
  }

  /** initialize: resolves the first argument's path, validates, checks that
      the component path does not exist yet, then starts the promises of
      every argument in turn. `pathExists` answers the existence check. */
  method Initialize(h: Collaborators, flags: Flags, rootDir: string, args: seq<string>,
                    pathExists: string -> bool)
    returns (outcome: Outcome)
    ensures outcome == InitializeOutcome(h, flags, rootDir, args, pathExists)
    ensures outcome.Planned? ==> |outcome.tasks| == TasksPerArgument(flags) * |args|
    ensures |args| > 0 && h.validateArguments(args, flags) && pathExists(h.pathJoin(rootDir, args[0])) ==>
              outcome == AlreadyExists(h.pathJoin(rootDir, args[0]))
  {
    if |args| == 0 {
      return NoArguments;
    }
    var relativePath := args[0];
    var componentPath := h.pathJoin(rootDir, relativePath);
    var folderPath := h.getComponentParentFolder(componentPath);

    var isValidArgs := h.validateArguments(args, flags);
    if !isValidArgs {
      return InvalidArguments;
    }
    if pathExists(componentPath) {
      return AlreadyExists(componentPath);
    }

    var promises: seq<Task> := [];
    var i := 0;
    while i < |args|
      invariant 0 <= i <= |args|
      invariant promises == AllTasks(h, flags, relativePath, folderPath, args[..i])
    {
      var started := StartArgument(h, flags, relativePath, folderPath, args[i]);
      promises := promises + started;
      assert args[..i + 1][..i] == args[..i];
      i := i + 1;
    }
    assert args[..|args|] == args;
    AllTasksLength(h, flags, relativePath, folderPath, args);
    return Planned(promises);
  }

  /** The body of initialize's loop for one argument: the promises of its
      component files, its test files and, with `withcontainer`, its
      container file, in that order. */
  method StartArgument(h: Collaborators, flags: Flags, relativePath: string, folderPath: string, arg: string)
    returns (started: seq<Task>)
    ensures started == ArgumentTasks(h, flags, relativePath, folderPath, arg)
  {
    var name := h.getComponentName(arg);
    var _, filesTask := CreateFiles(h, flags, name, folderPath + name);
    var _, _, testTask := CreateTestFiles(h, flags, name, folderPath + name);
    started := [filesTask, testTask];
    if flags.withcontainer.Truthy() {
      var componentPathRelative := relativePath;
      var fullFilePath := ReplaceFirst(folderPath, "components", "containers");
      started := started + [CreateContainerFiles(name, componentPathRelative, fullFilePath + name)];
    }
  }

  /** Every argument starts the same number of promises. */
  lemma {:induction false} AllTasksLength(h: Collaborators, flags: Flags, relativePath: string, folderPath: string,
                                          args: seq<string>)
    ensures |AllTasks(h, flags, relativePath, folderPath, args)| == TasksPerArgument(flags) * |args|
    decreases |args|
  {
    if args != [] {
      AllTasksLength(h, flags, relativePath, folderPath, args[..|args| - 1]);
      if flags.withcontainer.Truthy() {
        assert TasksPerArgument(flags) * |args| == TasksPerArgument(flags) * (|args| - 1) + 3;
      } else {
        assert TasksPerArgument(flags) * |args| == TasksPerArgument(flags) * (|args| - 1) + 2;
      }
    }
  }

  /** The promises of a run are those of its arguments, in argument order. */
  lemma {:induction false} AllTasksAppend(h: Collaborators, flags: Flags, relativePath: string, folderPath: string,
                                          a: seq<string>, b: seq<string>)
    ensures AllTasks(h, flags, relativePath, folderPath, a + b)
         == AllTasks(h, flags, relativePath, folderPath, a) + AllTasks(h, flags, relativePath, folderPath, b)
    decreases |b|
  {
    if b == [] {
      assert a + b == a;
    } else {
      var b' := b[..|b| - 1];
      assert (a + b)[..|a + b| - 1] == a + b';
      AllTasksAppend(h, flags, relativePath, folderPath, a, b');
    }
  }

  /** The promises of argument `k` come right after those of the arguments
      before it. */
  lemma ArgumentTasksAt(h: Collaborators, flags: Flags, relativePath: string, folderPath: string,
                        args: seq<string>, k: int)
    requires 0 <= k < |args|
    ensures var tasks := AllTasks(h, flags, relativePath, folderPath, args);
            var base := |AllTasks(h, flags, relativePath, folderPath, args[..k])|;
            var own := ArgumentTasks(h, flags, relativePath, folderPath, args[k]);
            base + |own| <= |tasks| && forall j :: 0 <= j < |own| ==> tasks[base + j] == own[j]
  {
    var before := AllTasks(h, flags, relativePath, folderPath, args[..k]);
    var own := ArgumentTasks(h, flags, relativePath, folderPath, args[k]);
    var after := AllTasks(h, flags, relativePath, folderPath, args[k + 1..]);
    assert args == args[..k] + [args[k]] + args[k + 1..];
    AllTasksAppend(h, flags, relativePath, folderPath, args[..k] + [args[k]], args[k + 1..]);
    AllTasksAppend(h, flags, relativePath, folderPath, args[..k], [args[k]]);
    assert [args[k]][..0] == [];
    assert AllTasks(h, flags, relativePath, folderPath, [args[k]]) == own;
    var tasks := AllTasks(h, flags, relativePath, folderPath, args);
    assert tasks == before + own + after;
    InMiddle(before, own, after);
  }

  lemma InMiddle<T>(before: seq<T>, own: seq<T>, after: seq<T>)
    ensures forall j :: 0 <= j < |own| ==> (before + own + after)[|before| + j] == own[j]
  {
  }

  /** Per-argument expansion: argument `k` starts, right after the promises
      of the arguments before it, its component files and its test files, both in
      `folderPath + name`, whatever the other flags say, and with
      `withcontainer` its container file, whose import path comes from the
      same `relativePath` for every component. */
  lemma PlanOfArgument(h: Collaborators, flags: Flags, relativePath: string, folderPath: string,
                       args: seq<string>, k: int)
    requires 0 <= k < |args|
    ensures var tasks := AllTasks(h, flags, relativePath, folderPath, args);
            var base := |AllTasks(h, flags, relativePath, folderPath, args[..k])|;
            var name := h.getComponentName(args[k]);
            && base + TasksPerArgument(flags) <= |tasks|
            && tasks[base] == ComponentTask(h, flags, name, folderPath + name)
            && tasks[base + 1] == TestTask(h, flags, name, folderPath + name)
            && (flags.withcontainer.Truthy() ==>
                  tasks[base + 2] == CreateContainerFiles(name, relativePath,
                                       ReplaceFirst(folderPath, "components", "containers") + name))
  {
    ArgumentTasksAt(h, flags, relativePath, folderPath, args, k);
    ArgumentTasksShape(h, flags, relativePath, folderPath, args[k]);
  }

  lemma ArgumentTasksShape(h: Collaborators, flags: Flags, relativePath: string, folderPath: string, arg: string)
    ensures var own := ArgumentTasks(h, flags, relativePath, folderPath, arg);
            var name := h.getComponentName(arg);
            && |own| == TasksPerArgument(flags)
            && own[0] == ComponentTask(h, flags, name, folderPath + name)
            && own[1] == TestTask(h, flags, name, folderPath + name)
            && (flags.withcontainer.Truthy() ==>
                  own[2] == CreateContainerFiles(name, relativePath,
                              ReplaceFirst(folderPath, "components", "containers") + name))
  {
  }

  /** `notest`, `reactnative` and `createindex` are never consulted while
      planning: flag sets that agree on `withcontainer`, `functional` and
      `uppercase` plan the same promises. */
  lemma {:induction false} AllTasksIgnoreUnusedFlags(h: Collaborators, f1: Flags, f2: Flags,
                                                     relativePath: string, folderPath: string, args: seq<string>)
    requires f1.withcontainer == f2.withcontainer && f1.functional == f2.functional && f1.uppercase == f2.uppercase
    ensures AllTasks(h, f1, relativePath, folderPath, args) == AllTasks(h, f2, relativePath, folderPath, args)
    decreases |args|
  {
    if args != [] {
      AllTasksIgnoreUnusedFlags(h, f1, f2, relativePath, folderPath, args[..|args| - 1]);
      var name := h.getComponentName(args[|args| - 1]);
      var files := ComponentFileNames(h.capitalizeFirstLetter, name);
      ComponentWritesReadOnlyFunctional(h, f1, f2, name, folderPath + name, files);
    }
  }

  /** Only the first argument's path is checked for existence: two
      filesystems that agree on it give the same outcome. */
  lemma OnlyFirstPathIsChecked(h: Collaborators, flags: Flags, rootDir: string, args: seq<string>,
                               e1: string -> bool, e2: string -> bool)
    requires |args| > 0 && e1(h.pathJoin(rootDir, args[0])) == e2(h.pathJoin(rootDir, args[0]))
    ensures InitializeOutcome(h, flags, rootDir, args, e1) == InitializeOutcome(h, flags, rootDir, args, e2)
  {
  }
}
