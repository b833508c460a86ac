# create-react-component-folder: templates and file plan

This project models the core of a command-line tool that scaffolds React
components. The tool takes one or more component paths and, for each one,
creates a component directory. Into it go an index file, a web render file
and a native render file, plus a `__tests__` directory with two test files.
With `--withcontainer` it also writes a Redux container file.

There are three modules.

- `JsText` (`jstext.dfy`) defines the JavaScript primitives the tool relies
  on, after their ECMAScript counterparts, over strings of Unicode
  characters:
  - `indexOf` returns -1 when the pattern is absent;
  - `slice` with a negative start counts back from the end;
  - `replace` with a string pattern replaces only the first match;
  - `join('')`;
  - truthiness versus `=== true` on command-line flag values.
- `ComponentData` (`componentdata.dfy`) holds the seven template renderers.
  Their text is written out line by line, exactly as the template literals
  produce it.
- `Scaffold` (`scaffold.dfy`) holds the planning logic of `createFiles`,
  `createTestFiles`, `createContainerFiles` and `initialize`. Each
  operation returns its effects instead of performing them:
  - one `Task` per promise, a list of `CreateDirectory` and `WriteFile`
    steps;
  - for a whole run, the tasks in the order their promises are started.
  A `WriteFile` step carries a `Template` that names the renderer call and
  its arguments. `Render` turns it into text.

Helpers whose code is not part of this model are passed in as function
parameters (`Collaborators`): `capitalizeFirstLetter`, `getComponentName`,
`getComponentParentFolder`, Node's `path.join` and `validateArguments`.
Nothing about them is assumed. A lemma that needs a fact about one of them
states it as a `requires`, for example that capitalising leaves
`Render.jsx` unchanged. The filesystem existence check is the parameter
`pathExists`.

Some behaviour of the code differs from what the tool announces: the option
help texts at `lib/index.js:30-35` (for example "No test file" for
`--notest`) and the tool's described output layout, in which the container
file is `<Name>Container.js` in a containers directory that is created. The
model follows the code.

- `--notest`, `--reactnative` and `--createindex` are never read by the
  planning code in `lib/index.js`. Only the argument validator receives them.
  Test files are planned for every argument (`AllTasksIgnoreUnusedFlags`).
- No directory is created for the container file. Only the write to
  `<folder with first "components" replaced by "containers"><name>.js` is
  issued. The file is `<name>.js`, not `<name>Container.js`.
- The existence check covers only the path of the first argument
  (`OnlyFirstPathIsChecked`).
- The first name of each file list keeps its raw casing. The index file is
  `<raw>.js` and the web test file is `<raw>.test.jsx`. Every later name is
  capitalised.
- `createTestFiles` gives the test template the name after capitalisation.
  So when capitalising is idempotent, `--uppercase` has no effect on the
  test text (`TestImportIgnoresUppercase`).
- `createFiles` passes `program.uppercase` as a third argument to
  `createIndex`, which takes only two. The index text therefore never
  depends on it.
- When the path has no `components` segment, `indexOf` gives -1 and the
  container import path keeps only the last character of the path
  (`ContainerImportPath`).
- A component named `Render.native` has an index file name equal to the
  native render file name. Both writes then carry the index template
  (`RenderNativeNameCollision`).

## Model

| member | source | states |
|---|---|---|
| JsText.IndexOfFrom | lib/index.js:45 | the result is -1 exactly when no occurrence starts at or after `from`; otherwise it is an occurrence at or after `from` with none between `from` and it |
| JsText.IndexOf | lib/index.js:45 | `indexOf` is -1 iff the pattern does not occur; otherwise it is the first occurrence |
| JsText.Slice | lib/index.js:45 | `slice(start)` is a suffix of the string; a start within range keeps the rest from `start`; a start past the end gives ""; a negative start keeps the last `-start` characters, or the whole string when `-start` exceeds the length |
| JsText.ReplaceFirst | lib/index.js:206 | with no occurrence the string is unchanged; otherwise only the first occurrence is spliced out for the replacement |
| JsText.ReplaceKeepsLaterOccurrences | lib/index.js:206 | a later occurrence of the pattern, after the first has ended, survives the replace, shifted by the change in length |
| JsText.Truthiness | lib/index.js:154 | `undefined`, `false` and `""` are falsy; `true` and every non-empty string are truthy, as `if (program.functional)` and `if (program.withcontainer)` test them |
| JsText.StrictTrueOnlyForTrue | lib/data/componentData.js:162 | `upperCase === true` holds for the boolean `true` alone: no string and neither `undefined` nor `false` passes, and a strictly true value is truthy |
| JsText.ConcatIsJoinWithEmpty | lib/data/componentData.js:134-142 | `join('')` is the separator join with the empty separator |
| JsText.ConcatAppend | lib/data/componentData.js:134-136 | `join('')` of two concatenated lists is the join of the first followed by the join of the second |
| JsText.JoinWithContainsPart | lib/data/componentData.js:4-19 | each line of a template joined with newlines occurs in the joined text |
| ComponentData.CreateComponentContainerFile | lib/data/componentData.js:4-19 | the text holds `import <name> from '<importPath>'` with both arguments verbatim, the `connect(...)(<name>)` line defining `<name>Container`, and `export default <name>Container` |
| ComponentData.CreateReactComponent | lib/data/componentData.js:28-46 | the class declaration, the `propTypes` line and `export default` all use `capitalizeFirstLetter(componentName)` |
| ComponentData.CreateReactFunctionalComponent | lib/data/componentData.js:55-72 | the `const <C> = () => {` declaration, the `propTypes` line and `export default` all use the capitalised name |
| ComponentData.CreateReactNativeComponent | lib/data/componentData.js:80-100 | the class declaration, the `<Text>` child and `export default` all use the capitalised name |
| ComponentData.CreateIndex | lib/data/componentData.js:109-125 | `import <sharedName> from './<sharedName>'`, the class, the rendered element and `export default injectIntl(<componentName>, { withRef: true })` use both names verbatim, with no casing change |
| ComponentData.CreateIndexForFolders | lib/data/componentData.js:133-144 | the text is the import lines of all folders, then `export {\n    `, the folders joined by `, \n`, then `\n}` |
| ComponentData.ExportEntriesAreJoined | lib/data/componentData.js:137-142 | the map-with-index that leaves the last entry unpunctuated, joined with `''`, is the `, \n` separator join of the folders |
| ComponentData.ImportLinesAppend | lib/data/componentData.js:134-136 | import lines come in input order: those of `a + b` are those of `a`, then those of `b` |
| ComponentData.ExportClauseSeparators | lib/data/componentData.js:137-142 | for `folders + [last]`, every earlier folder is followed by `, \n` and `last` by nothing, with all import lines before `export {` |
| ComponentData.IndexForOneFolder | lib/data/componentData.js:133-143 | a one-folder list gives its import line, then `export {\n    <folder>\n}`, with no separator |
| ComponentData.ImportLinesOfOne | lib/data/componentData.js:135 | one folder yields exactly its own import line |
| ComponentData.JoinWithAppend | lib/data/componentData.js:137-142 | joining `parts + [last]` puts the separator after every part of `parts` and none after `last` |
| ComponentData.IndexForNoFolders | lib/data/componentData.js:133-143 | an empty folder list gives `export {\n    \n}` |
| ComponentData.CreateTest | lib/data/componentData.js:153-172 | the imported identifier, the `describe` label and the rendered element use the capitalised name; the import path uses the capitalised name when `upperCase` is strictly `true`, and the raw name otherwise |
| ComponentData.TestImportNeedsStrictTrue | lib/data/componentData.js:161-163 | any flag value other than the boolean `true` renders the same test as an unset flag |
| ComponentData.ComponentRenderersUseCapitalisedName | lib/data/componentData.js:28-100 | two names with the same capitalised form render identical class, functional and native components |
| Scaffold.FileNames | lib/index.js:65-71 | the render file names are `Render.jsx` and `Render.native.js`; the test file names are `<name>.test.jsx` and `<name>.test.native.js` |
| Scaffold.IndexFileNameClashes | lib/index.js:118-126 | the index file name never equals `Render.jsx`, and it equals `Render.native.js` exactly for the name `Render.native` |
| Scaffold.CapitalizeAllButFirst | lib/index.js:131-135 | the splice loop keeps element 0 and replaces every later element by its capitalised old value; the length is unchanged |
| Scaffold.CreateFiles | lib/index.js:116-165 | the resolved list is `[<raw>.js, cap(Render.jsx), cap(Render.native.js)]`; the plan creates the component directory, then writes one template per file that matches a name |
| Scaffold.ComponentWritesOfThree | lib/index.js:143-165 | the writes for a three-file list are those of each file in list order |
| Scaffold.ComponentTaskWritesEachFileOnce | lib/index.js:143-164 | when capitalising leaves the render names alone and the name is not `Render.native`, the plan writes each file exactly once: the index wrapper around the capitalised name, the functional template on `Render.jsx` iff `functional` is truthy and the class template otherwise, and the native template |
| Scaffold.RenderNativeNameCollision | lib/index.js:148-164 | when capitalising leaves the render names alone, for the name `Render.native`, the index test matches first, so `Render.native.js` receives the index wrapper twice and never the native template |
| Scaffold.ComponentWritesReadOnlyFunctional | lib/index.js:148-164 | the writes depend on the flags only through the truthiness of `functional`; `uppercase` does not affect the index content |
| Scaffold.CreateTestFiles | lib/index.js:62-97 | it resolves with `__tests__` and `[<raw>.test.jsx, cap(<raw>.test.native.js)]`; the plan creates `<componentPath>/__tests__`, then writes the test of the capitalised name to each file |
| Scaffold.TestFilesShareContent | lib/index.js:86-97 | both test files lie in `<componentPath>/__tests__` and receive the same `Test(cap(name), uppercase)` content |
| Scaffold.TestImportIgnoresUppercase | lib/index.js:77-96 | with an idempotent capitaliser, the test text is the same for every `uppercase` value and imports `'../<Capitalised>'` |
| Scaffold.ContainerImportPath | lib/index.js:45 | the import path is `../../` plus the path from its first `components` on; with no `components` it is `../../` plus the last character; for an empty path it is `../../` |
| Scaffold.CreateContainerFiles | lib/index.js:45-51 | a single write to `<fullContainerPath>.js` of the container template importing `<import path>/<componentName>`, with no directory step |
| Scaffold.ContainerFileText | lib/index.js:49 | the container text imports the component from the derived import path verbatim and exports `<name>Container` |
| Scaffold.Initialize | lib/index.js:185-207 | the outcome follows the order missing argument, then validation, then existence of the first path, then the plan; the plan has 3 promises per argument with `withcontainer` and 2 without; an existing path gives `AlreadyExists` |
| Scaffold.StartArgument | lib/index.js:201-208 | one loop iteration starts the component promise, then the test promise, then with `withcontainer` the container promise |
| Scaffold.AllTasksLength | lib/index.js:200-209 | every argument starts the same number of promises |
| Scaffold.AllTasksAppend | lib/index.js:200-209 | the promises of `a + b` are those of `a`, then those of `b` |
| Scaffold.ArgumentTasksAt | lib/index.js:200-209 | the promises of argument `k` come right after those of the arguments before it |
| Scaffold.ArgumentTasksShape | lib/index.js:201-208 | one argument's promises are its component task in `folderPath + name`, its test task there, and with `withcontainer` its container task |
| Scaffold.PlanOfArgument | lib/index.js:200-208 | argument `k` has, at its place in the plan, its component and test tasks in `folderPath + name`, and with `withcontainer` a container task that uses the first argument's relative path and `folderPath` with only its first `components` replaced |
| Scaffold.AllTasksIgnoreUnusedFlags | lib/index.js:200-209 | `notest`, `reactnative` and `createindex` are never consulted: flag sets that agree on `withcontainer`, `functional` and `uppercase` give the same plan |
| Scaffold.OnlyFirstPathIsChecked | lib/index.js:185-197 | only the first argument's path is checked for existence |

## Left out

- Filesystem effects (`createDirectorys`, `writeFileAsync`, `existsSyncAsync`) are not performed. The model returns the plan, and existence is the parameter `pathExists`.
- Promise plumbing is left out: `Promise.all`, the resolution of the constructed promises and the `throw` inside `.catch`. Writes have no defined order at run time, so a plan lists them in issue order only.
- Command-line parsing with `commander`, `process.argv`, `process.cwd()` and `removeOptionsFromArgs` are left out. Flags, arguments and the root directory are inputs.
- `path.join` normalisation is not modelled. It is the opaque parameter `pathJoin`. The test directory path is built by plain concatenation, as in the code.
- `capitalizeFirstLetter`, `getComponentName`, `getComponentParentFolder` and `validateArguments` are not part of this model. They are function parameters, and nothing is assumed of them beyond what a lemma states in its `requires`.
- Logging, colouring, timing and the `'false'` sentinel message printed for an existing folder are left out. The existing folder is reported as `AlreadyExists(componentPath)`.
- JsText.Slice, JsText.IndexOf and Scaffold.ContainerImportPath: strings are sequences of Unicode characters, not UTF-16 code units. The two agree whenever the path contains `components`. They differ when it does not and the path ends in a character outside the Basic Multilingual Plane. There `slice(-1)` in JavaScript keeps a lone low surrogate, while the model keeps the whole character.
- JsText.ReplaceFirst: `$` patterns in the replacement string are not interpreted. The tool only passes `"containers"`, which has none.
- Flag values are modelled as `undefined`, booleans and strings only. Those are the values `commander` leaves for these options.
- Scaffold.Initialize: a missing first argument is modelled as the outcome `NoArguments`. In the code, `path.join` of `undefined` throws before anything else happens.
