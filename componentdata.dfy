/**
  The template registry of the scaffolding tool: total, side-effect-free
  renderers that turn a component name (and, for some, a shared name, an
  import path, a folder list or a flag) into the text of a generated file.
  Template text is kept verbatim, one Dafny line per template line.

  `capitalizeFirstLetter` comes from a helper module whose code is not part of
  this model, so every renderer that uses it takes it as the parameter `cap`.
 */
module ComponentData {
  import opened JsText

  /** The text of a multi-line template: its lines separated by newlines. */
  function Text(lines: seq<string>): string {
    JoinWith(lines, "\n")
  }

  function ContainerFileLines(name: string, importPath: string): seq<string> {
    var containerName := name + "Container";
    [ "import { connect } from 'react-redux'",
      "",
      "  import " + name + " from '" + importPath + "'",
      "  ",
      "  function mapStateToProps (state) {  ",
      "    return {}",
      "  }",
      "  ",
      "  const dispatchFunctions = {}",
      "  ",
      "  const " + containerName + " = connect(mapStateToProps, dispatchFunctions)(" + name + ")",
      "  ",
      "  export default " + containerName,
      "  " ]
  }

  /** The container file binding `name` to redux state: `name` and
      `importPath` are substituted as they are, with no normalisation. */
  function CreateComponentContainerFile(name: string, importPath: string): (r: string)
    ensures Contains(r, "  import " + name + " from '" + importPath + "'")
    ensures Contains(r, "  const " + (name + "Container") + " = connect(mapStateToProps, dispatchFunctions)(" + name + ")")
    ensures Contains(r, "  export default " + (name + "Container"))
  {
    var lines := ContainerFileLines(name, importPath);
    JoinWithContainsPart(lines, "\n", 2);
    JoinWithContainsPart(lines, "\n", 10);
    JoinWithContainsPart(lines, "\n", 12);
    Text(lines)
  }

  function ReactComponentLines(name: string): seq<string> {
    [ "import React, { PureComponent } from 'react'",
      "",
      "class " + name + " extends PureComponent {",
      "  render() {",
      "    return (",
      "      <div>",
      "        " + name,
      "      </div>",
      "    )",
      "  }",
      "}",
      "",
      name + ".propTypes = {}",
      "",
      "export default " + name,
      "  " ]
  }

  /** The default (class) React component; the class and its default export
      are the capitalised component name. */
  function CreateReactComponent(cap: string -> string, componentName: string): (r: string)
    ensures Contains(r, "class " + cap(componentName) + " extends PureComponent {")
    ensures Contains(r, cap(componentName) + ".propTypes = {}")
    ensures Contains(r, "export default " + cap(componentName))
  {
    var lines := ReactComponentLines(cap(componentName));
    JoinWithContainsPart(lines, "\n", 2);
    JoinWithContainsPart(lines, "\n", 12);
    JoinWithContainsPart(lines, "\n", 14);
    Text(lines)
  }

  function ReactFunctionalComponentLines(name: string): seq<string> {
    [ "import React from 'react'",
      "",
      "const " + name + " = () => {",
      "  return (",
      "    <div>",
      "      " + name,
      "    </div>",
      "  )",
      "}",
      "",
      name + ".propTypes = {}",
      "",
      "export default " + name,
      "  " ]
  }

  /** The stateless functional React component: the const and its default
      export are the capitalised component name. */
  function CreateReactFunctionalComponent(cap: string -> string, componentName: string): (r: string)
    ensures Contains(r, "const " + cap(componentName) + " = () => {")
    ensures Contains(r, cap(componentName) + ".propTypes = {}")
    ensures Contains(r, "export default " + cap(componentName))
  {
    var lines := ReactFunctionalComponentLines(cap(componentName));
    JoinWithContainsPart(lines, "\n", 2);
    JoinWithContainsPart(lines, "\n", 10);
    JoinWithContainsPart(lines, "\n", 12);
    Text(lines)
  }

  function ReactNativeComponentLines(name: string): seq<string> {
    [ "import React, { PureComponent } from 'react'",
      "import { View, Text } from 'react-native'",
      "",
      "class " + name + " extends PureComponent {",
      "  render() {",
      "    return (",
      "      <View>",
      "        <Text>" + name + "</Text>",
      "      </View>",
      "    )",
      "  }",
      "}",
      "",
      name + ".propTypes = {}",
      "",
      "export default " + name,
      "  " ]
  }

  /** The React Native class component: the class, the text it shows and its
      default export are the capitalised component name. */
  function CreateReactNativeComponent(cap: string -> string, componentName: string): (r: string)
    ensures Contains(r, "class " + cap(componentName) + " extends PureComponent {")
    ensures Contains(r, "        <Text>" + cap(componentName) + "</Text>")
    ensures Contains(r, "export default " + cap(componentName))
  {
    var lines := ReactNativeComponentLines(cap(componentName));
    JoinWithContainsPart(lines, "\n", 3);
    JoinWithContainsPart(lines, "\n", 7);
    JoinWithContainsPart(lines, "\n", 15);
    Text(lines)
  }

  /** The three component renderers see the component name only through its
      capitalised form: names that capitalise alike render identical text. */
  lemma ComponentRenderersUseCapitalisedName(cap: string -> string, a: string, b: string)
    requires cap(a) == cap(b)
    ensures CreateReactComponent(cap, a) == CreateReactComponent(cap, b)
    ensures CreateReactFunctionalComponent(cap, a) == CreateReactFunctionalComponent(cap, b)
    ensures CreateReactNativeComponent(cap, a) == CreateReactNativeComponent(cap, b)
  {
  }

  function IndexLines(componentName: string, sharedName: string): seq<string> {
    [ "",
      "  import React from 'react'",
      "  import { injectIntl } from 'react-intl'",
      "  import " + sharedName + " from './" + sharedName + "'",
      "  ",
      "  class " + componentName + " extends React.PureComponent {",
      "    render(){",
      "      return <" + sharedName + " {...this.props} />",
      "    }",
      "  }",
      "",
      "  " + componentName + ".propTypes = {}",
      "",
      "  export default injectIntl(" + componentName + ", { withRef: true })",
      "  " ]
  }

  /** The index file wrapping the shared render file: no casing change, both
      names are used exactly as given. */
  function CreateIndex(componentName: string, sharedName: string): (r: string)
    ensures Contains(r, "  import " + sharedName + " from './" + sharedName + "'")
    ensures Contains(r, "  class " + componentName + " extends React.PureComponent {")
    ensures Contains(r, "      return <" + sharedName + " {...this.props} />")
    ensures Contains(r, "  export default injectIntl(" + componentName + ", { withRef: true })")
  {
    var lines := IndexLines(componentName, sharedName);
    JoinWithContainsPart(lines, "\n", 3);
    JoinWithContainsPart(lines, "\n", 5);
    JoinWithContainsPart(lines, "\n", 7);
    JoinWithContainsPart(lines, "\n", 13);
    Text(lines)
  }

  /** One `import F from './F' ` line per folder, in order. */
  function ImportLine(folderName: string): string {
    "import " + folderName + " from './" + folderName + "' \n"
  }

  function ImportLines(folders: seq<string>): string {
    Concat(seq(|folders|, i requires 0 <= i < |folders| => ImportLine(folders[i])))
  }

  /** The entry of the export clause for the folder at `index`: the last folder
      gets no separator. */
  function ExportEntry(folders: seq<string>, index: nat): string
    requires index < |folders|
  {
    if index == |folders| - 1 then folders[index] else folders[index] + ", \n"
  }

  function ExportEntries(folders: seq<string>): string {
    Concat(seq(|folders|, i requires 0 <= i < |folders| => ExportEntry(folders, i)))
  }

  /** The index file that re-exports every folder: all import lines, then one
      export clause whose entries are the folders separated by `, \n`. */
  function CreateIndexForFolders(folders: seq<string>): (r: string)
    ensures r == ImportLines(folders) + "export {\n    " + JoinWith(folders, ", \n") + "\n}"
  {
    ExportEntriesAreJoined(folders);
    ImportLines(folders) + "export {\n" + "    " + ExportEntries(folders) + "\n" + "}"
  }

  /** The map-with-index rule of the export clause is the separator join. */
  lemma {:induction false} ExportEntriesAreJoined(folders: seq<string>)
    ensures ExportEntries(folders) == JoinWith(folders, ", \n")
    decreases |folders|
  {
    var entries := seq(|folders|, i requires 0 <= i < |folders| => ExportEntry(folders, i));
    if |folders| == 0 {
    } else if |folders| == 1 {
      assert entries == [folders[0]];
      assert Concat(entries) == folders[0] + Concat([]);
    } else {
      var rest := folders[1..];
      var restEntries := seq(|rest|, i requires 0 <= i < |rest| => ExportEntry(rest, i));
      assert entries[1..] == restEntries;
      ExportEntriesAreJoined(rest);
      assert ExportEntries(folders) == folders[0] + ", \n" + ExportEntries(rest);
    }
  }

  /** Import lines are emitted in input order: the lines of `a + b` are those
      of `a` followed by those of `b`. */
  lemma ImportLinesAppend(a: seq<string>, b: seq<string>)
    ensures ImportLines(a + b) == ImportLines(a) + ImportLines(b)
  {
    var la := seq(|a|, i requires 0 <= i < |a| => ImportLine(a[i]));
    var lb := seq(|b|, i requires 0 <= i < |b| => ImportLine(b[i]));
    var lab := seq(|a + b|, i requires 0 <= i < |a + b| => ImportLine((a + b)[i]));
    assert lab == la + lb;
    ConcatAppend(la, lb);
  }

  /** The last-element-unpunctuated rule: every folder but the last is
      followed by `, \n` and the last one by nothing. */
  lemma ExportClauseSeparators(folders: seq<string>, last: string)
    ensures CreateIndexForFolders(folders + [last]) ==
      ImportLines(folders) + ImportLine(last) + "export {\n    "
      + Concat(seq(|folders|, i requires 0 <= i < |folders| => folders[i] + ", \n")) + last + "\n}"
  {
    ImportLinesAppend(folders, [last]);
    ImportLinesOfOne(last);
    JoinWithAppend(folders, last, ", \n");
  }

  /** A one-folder list has no separator at all. */
  lemma IndexForOneFolder(folder: string)
    ensures CreateIndexForFolders([folder]) == ImportLine(folder) + "export {\n    " + folder + "\n}"
  {
    ImportLinesOfOne(folder);
  }

  lemma ImportLinesOfOne(folder: string)
    ensures ImportLines([folder]) == ImportLine(folder)
  {
    assert seq(1, i requires 0 <= i < 1 => ImportLine([folder][i])) == [ImportLine(folder)];
    assert Concat([ImportLine(folder)]) == ImportLine(folder) + Concat([]);
  }

  lemma {:induction false} JoinWithAppend(parts: seq<string>, last: string, separator: string)
    ensures JoinWith(parts + [last], separator) ==
      Concat(seq(|parts|, i requires 0 <= i < |parts| => parts[i] + separator)) + last
    decreases |parts|
  {
    var terminated := seq(|parts|, i requires 0 <= i < |parts| => parts[i] + separator);
    if parts == [] {
      assert parts + [last] == [last];
    } else {
      var rest := parts[1..];
      assert (parts + [last])[1..] == rest + [last];
      JoinWithAppend(rest, last, separator);
      assert terminated[1..] == seq(|rest|, i requires 0 <= i < |rest| => rest[i] + separator);
    }
  }

  /** An empty folder list: no import lines and an export block holding only
      whitespace. */
  lemma IndexForNoFolders()
    ensures CreateIndexForFolders([]) == "export {\n    \n}"
  {
    assert ImportLines([]) == "";
  }

  function TestLines(componentNameUpperCase: string, importTarget: string): seq<string> {
    [ "",
      "import React from 'react'",
      "import {",
      "  createComponentWithProviderAndIntl",
      "} from 'test-utils'",
      "import " + componentNameUpperCase + " from '../" + importTarget + "'",
      "",
      "describe('<" + componentNameUpperCase + " />', () => {",
      "  test('renders', () => {",
      "    const tree = createComponentWithProviderAndIntl(<" + componentNameUpperCase + " />).toJSON()",
      "    expect(tree).toMatchSnapshot()",
      "  })",
      "})",
      "  " ]
  }

  /** The test file: the imported identifier, the `describe` label and the
      rendered element are the capitalised name; the import path uses the
      capitalised name only when `upperCase` is exactly `true`, and the name
      as given otherwise. */
  function CreateTest(cap: string -> string, componentName: string, upperCase: JsValue): (r: string)
    ensures Contains(r, "import " + cap(componentName) + " from '../"
      + (if upperCase.StrictlyTrue() then cap(componentName) else componentName) + "'")
    ensures Contains(r, "describe('<" + cap(componentName) + " />', () => {")
    ensures Contains(r, "    const tree = createComponentWithProviderAndIntl(<"
      + cap(componentName) + " />).toJSON()")
  {
    var componentNameUpperCase := cap(componentName);
    var lines := TestLines(componentNameUpperCase,
      if upperCase.StrictlyTrue() then componentNameUpperCase else componentName);
    JoinWithContainsPart(lines, "\n", 5);
    JoinWithContainsPart(lines, "\n", 7);
    JoinWithContainsPart(lines, "\n", 9);
    Text(lines)
  }

  /** A flag value that is truthy but not the boolean `true` (a non-empty
      string, say) still imports the name as given. */
  lemma TestImportNeedsStrictTrue(cap: string -> string, componentName: string, upperCase: JsValue)
    requires !upperCase.StrictlyTrue()
    ensures CreateTest(cap, componentName, upperCase) == CreateTest(cap, componentName, Undefined)
  {
  }
}
