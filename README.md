# NetBeans module plugin for Gradle: configuration model

This project models the configuration objects of the Gradle NetBeans-module
(`nbm`) plugin, and proves properties of that model:

- `NbmPluginExtension` (module `Extension`) is the user's mutable
  description of a module. Its module name defaults to the host project's
  name with every `-` turned into `.`. Its specification version defaults to
  the project's version as a string. Both defaults are worked out again on
  every read, never stored. The `requires` list can be replaced or appended
  to. The license file is resolved through the project. Everything else is a
  plain field.
- `CustomManifestEntries` (module `CustomEntries`) holds free-form manifest
  entries. It supports a single `entry` and a bulk `entries` merge; in both
  the last write wins. `getEntries()` hands out the live map.
- `NbmManifest` (module `Manifest`) is the string-to-string store of
  descriptor entries, with an overwriting `put`.

Support modules:

- `JavaLang` models Java's null (`Option`), thrown `NullPointerException`
  (`Outcome`) and `String.replace(char, char)` (`Replace`).
- `JavaUtil` models `java.util.List` and `java.util.Map` as small classes.
  Sharing is kept, so a collection that is handed out stays live. Two pure
  specifications, `Updated` (put) and `Merged` (putAll), state
  last-write-wins.
- `Gradle` is the host: a `Project` with a name, a mutable version, and a
  file resolver fixed at creation. The name is a mutable field too, which
  allows more than Gradle does (a project's name is fixed by the build's
  settings). Host objects and files are opaque types.

`Scenarios` proves the several-call properties from the operations'
contracts alone, the way a caller would see them. For example, a second
`setRequires` replaces the first, `requires(d)` twice keeps both copies, a
later `entry` overrides an earlier one, and the derived values follow the
project's current name and version.

Modelling choices:

- A Java `null` argument or field is `None`. `boolean` fields are `bool`,
  and the `Boolean needsRestart` is `Option<bool>`.
- The plain getters (`getCluster()`, `isEager()`, …) are the Dafny fields.
  Every setter's contract compares a snapshot of all mutable state
  (`NbmPluginExtension.State()`) before and after the call. This says in one
  clause that the setter changed its own field and nothing else.
- `friendPackages`, `keyStore`, `project` and the `requires` list are `const`
  fields. Dafny guarantees that they are never reassigned. The constructor
  makes the three owned objects fresh.
- `setRequires` keeps the source's sharing. It clears the owned list and then
  appends the argument's elements. When the argument is the owned list itself
  (what `getRequires()` returns), the result is empty.
  `Scenarios.SetRequiresFromItself` proves this.
- `EvaluateUtils.asString` is passed to `SpecificationVersion` as a function
  parameter. `project.file` is the project's `file` function. Neither body is
  part of this model.
- `NbmPluginExtension` does not check that the module name is non-empty or
  dot-separated, and none of the three classes checks required fields. The
  model follows the classes: the derived `ModuleName()` can be empty or
  contain any characters except `-`, and an explicit name is returned as set,
  dashes included.

## Model

| member | source | states |
|---|---|---|
| `JavaLang.Replace` | plugin/src/main/groovy/org/gradle/plugins/nbm/NbmPluginExtension.java:150 | the result has the input's length, has `newChar` exactly where the input had `oldChar` and the input's character everywhere else, and contains no `oldChar` when the two characters differ |
| `JavaLang.ReplaceIdempotent` | plugin/src/main/groovy/org/gradle/plugins/nbm/NbmPluginExtension.java:150 | replacing twice gives what replacing once gives, so deriving from an already derived name changes nothing |
| `JavaLang.ReplaceWithoutOldChar` | plugin/src/main/groovy/org/gradle/plugins/nbm/NbmPluginExtension.java:150 | a string without `oldChar` comes back unchanged, so a project name without `-` is its own module name |
| `JavaLang.ReplaceConcat` | plugin/src/main/groovy/org/gradle/plugins/nbm/NbmPluginExtension.java:150 | replacing in a concatenation equals concatenating the replaced parts |
| `JavaUtil.Updated` | plugin/src/main/groovy/org/gradle/plugins/nbm/NbmManifest.java:13-15 | after a put, the key set is the old keys plus the key, the key holds the new value, and every other key keeps its old value |
| `JavaUtil.Merged` | plugin/src/main/groovy/org/gradle/plugins/nbm/CustomManifestEntries.java:17-19 | after putAll, the key set is the union of both key sets, every key of the argument holds the argument's value, and the other keys keep their old values |
| `JavaUtil.UpdatedLastWriteWins` | plugin/src/main/groovy/org/gradle/plugins/nbm/CustomManifestEntries.java:13-15 | two puts of one key leave what the second put alone leaves |
| `JavaUtil.UpdatedIdempotent` | plugin/src/main/groovy/org/gradle/plugins/nbm/NbmManifest.java:13-15 | the same put twice leaves what one put leaves |
| `JavaUtil.MergedWithItself` | plugin/src/main/groovy/org/gradle/plugins/nbm/CustomManifestEntries.java:17-19 | putAll of a map into itself changes nothing |
| `JavaUtil.MergedOneMore` | plugin/src/main/groovy/org/gradle/plugins/nbm/CustomManifestEntries.java:13-19 | merging a map and then putting one entry equals merging the map with that entry added |
| `JavaUtil.List.constructor` | plugin/src/main/groovy/org/gradle/plugins/nbm/NbmPluginExtension.java:56 | a new list is empty |
| `JavaUtil.List.Add` | plugin/src/main/groovy/org/gradle/plugins/nbm/NbmPluginExtension.java:135 | `add` appends the element at the end |
| `JavaUtil.List.Clear` | plugin/src/main/groovy/org/gradle/plugins/nbm/NbmPluginExtension.java:130 | `clear` empties the list |
| `JavaUtil.List.AddAll` | plugin/src/main/groovy/org/gradle/plugins/nbm/NbmPluginExtension.java:131 | `addAll` appends the argument's elements in order, as they were when the call began, including when the argument is the list itself |
| `JavaUtil.Map.constructor` | plugin/src/main/groovy/org/gradle/plugins/nbm/CustomManifestEntries.java:10 | a new map is empty |
| `JavaUtil.Map.Put` | plugin/src/main/groovy/org/gradle/plugins/nbm/CustomManifestEntries.java:14 | `put` gives the map `Updated(old, key, value)` |
| `JavaUtil.Map.PutAll` | plugin/src/main/groovy/org/gradle/plugins/nbm/CustomManifestEntries.java:18 | `putAll` gives the map `Merged(old, argument)` |
| `Extension.NbmPluginExtension.constructor` | plugin/src/main/groovy/org/gradle/plugins/nbm/NbmPluginExtension.java:35-58 | every optional field is null, `eager` and `autoload` are false, `requires` is empty, `autoupdateShowInClient` is true, the project is kept, and the requires list, friend packages and key store are new objects |
| `Extension.NbmPluginExtension.GetFriendPackages` | plugin/src/main/groovy/org/gradle/plugins/nbm/NbmPluginExtension.java:60-62 | returns the owned friend-packages object itself |
| `Extension.NbmPluginExtension.GetKeyStore` | plugin/src/main/groovy/org/gradle/plugins/nbm/NbmPluginExtension.java:144-146 | returns the owned key-store object itself |
| `Extension.NbmPluginExtension.GetRequires` | plugin/src/main/groovy/org/gradle/plugins/nbm/NbmPluginExtension.java:124-126 | returns the live requires list, not a copy |
| `Extension.NbmPluginExtension.ModuleName` | plugin/src/main/groovy/org/gradle/plugins/nbm/NbmPluginExtension.java:148-153 | with an explicit name, that name whatever the project is called; otherwise a string as long as the project's current name, with `.` wherever the name has `-`, every other character kept, and no `-` |
| `Extension.NbmPluginExtension.SpecificationVersion` | plugin/src/main/groovy/org/gradle/plugins/nbm/NbmPluginExtension.java:167-172 | the explicit version if set; otherwise `asString` of the project's current version |
| `Extension.NbmPluginExtension.SetRequires` | plugin/src/main/groovy/org/gradle/plugins/nbm/NbmPluginExtension.java:128-132 | null throws a NullPointerException with message "requires" and changes nothing; otherwise returns normally and the requires list holds exactly the argument's old elements (empty when the argument is that list itself), with everything else unchanged |
| `Extension.NbmPluginExtension.Requires` | plugin/src/main/groovy/org/gradle/plugins/nbm/NbmPluginExtension.java:134-136 | the requires list becomes old list + [dependency], and nothing else changes |
| `Extension.NbmPluginExtension.SetLicenseFile` | plugin/src/main/groovy/org/gradle/plugins/nbm/NbmPluginExtension.java:102-106 | null clears the license file; otherwise it becomes `project.file(argument)`; nothing else changes |
| `Extension.NbmPluginExtension.SetNeedsRestart` | plugin/src/main/groovy/org/gradle/plugins/nbm/NbmPluginExtension.java:78-80 | `needsRestart` takes the argument and nothing else changes |
| `Extension.NbmPluginExtension.SetHomePage` | plugin/src/main/groovy/org/gradle/plugins/nbm/NbmPluginExtension.java:86-88 | `homePage` takes the argument and nothing else changes |
| `Extension.NbmPluginExtension.SetModuleAuthor` | plugin/src/main/groovy/org/gradle/plugins/nbm/NbmPluginExtension.java:94-96 | `moduleAuthor` takes the argument and nothing else changes |
| `Extension.NbmPluginExtension.SetModuleInstall` | plugin/src/main/groovy/org/gradle/plugins/nbm/NbmPluginExtension.java:112-114 | `moduleInstall` takes the argument and nothing else changes |
| `Extension.NbmPluginExtension.SetLocalizingBundle` | plugin/src/main/groovy/org/gradle/plugins/nbm/NbmPluginExtension.java:120-122 | `localizingBundle` takes the argument and nothing else changes |
| `Extension.NbmPluginExtension.SetModuleName` | plugin/src/main/groovy/org/gradle/plugins/nbm/NbmPluginExtension.java:155-157 | `moduleName` takes the argument and nothing else changes |
| `Extension.NbmPluginExtension.SetCluster` | plugin/src/main/groovy/org/gradle/plugins/nbm/NbmPluginExtension.java:163-165 | `cluster` takes the argument and nothing else changes |
| `Extension.NbmPluginExtension.SetSpecificationVersion` | plugin/src/main/groovy/org/gradle/plugins/nbm/NbmPluginExtension.java:174-176 | `specificationVersion` takes the argument and nothing else changes |
| `Extension.NbmPluginExtension.SetImplementationVersion` | plugin/src/main/groovy/org/gradle/plugins/nbm/NbmPluginExtension.java:182-184 | `implementationVersion` takes the argument and nothing else changes |
| `Extension.NbmPluginExtension.SetEager` | plugin/src/main/groovy/org/gradle/plugins/nbm/NbmPluginExtension.java:190-192 | `eager` takes the argument and nothing else changes |
| `Extension.NbmPluginExtension.SetAutoload` | plugin/src/main/groovy/org/gradle/plugins/nbm/NbmPluginExtension.java:198-200 | `autoload` takes the argument and nothing else changes |
| `Extension.NbmPluginExtension.SetLayer` | plugin/src/main/groovy/org/gradle/plugins/nbm/NbmPluginExtension.java:206-208 | `layer` takes the argument and nothing else changes |
| `Extension.NbmPluginExtension.SetJavaDependency` | plugin/src/main/groovy/org/gradle/plugins/nbm/NbmPluginExtension.java:214-216 | `javaDependency` takes the argument and nothing else changes |
| `Extension.NbmPluginExtension.SetAutoupdateShowInClient` | plugin/src/main/groovy/org/gradle/plugins/nbm/NbmPluginExtension.java:222-224 | `autoupdateShowInClient` takes the argument and nothing else changes |
| `Extension.DashedWords` | plugin/src/main/groovy/org/gradle/plugins/nbm/NbmPluginExtension.java:148-151 | three dash-free words joined by `-` derive to the same words joined by `.` |
| `CustomEntries.CustomManifestEntries.constructor` | plugin/src/main/groovy/org/gradle/plugins/nbm/CustomManifestEntries.java:9-11 | a new instance has its own empty map |
| `CustomEntries.CustomManifestEntries.Entry` | plugin/src/main/groovy/org/gradle/plugins/nbm/CustomManifestEntries.java:13-15 | the entries become `Updated(old, key, value)`: the key holds the value, all other keys and values are unchanged |
| `CustomEntries.CustomManifestEntries.Entries` | plugin/src/main/groovy/org/gradle/plugins/nbm/CustomManifestEntries.java:17-19 | null throws a NullPointerException and changes nothing; otherwise the entries become `Merged(old, argument)` |
| `CustomEntries.CustomManifestEntries.GetEntries` | plugin/src/main/groovy/org/gradle/plugins/nbm/CustomManifestEntries.java:21-23 | returns the live map object, not a copy |
| `Manifest.NbmManifest.constructor` | plugin/src/main/groovy/org/gradle/plugins/nbm/NbmManifest.java:9-11 | a new manifest has no entries |
| `Manifest.NbmManifest.Put` | plugin/src/main/groovy/org/gradle/plugins/nbm/NbmManifest.java:13-15 | the entries become `Updated(old, key, value)`: the key holds the value, overwriting any earlier one, and the other keys are unchanged |
| `Scenarios.DefaultModuleName` | plugin/src/main/groovy/org/gradle/plugins/nbm/NbmPluginExtension.java:148-151 | a fresh extension on a project named `a-b-c`, with dash-free words `a`, `b`, `c` (for instance "my-cool-module"), has the module name `a.b.c` |
| `Scenarios.ModuleNameSetThenCleared` | plugin/src/main/groovy/org/gradle/plugins/nbm/NbmPluginExtension.java:148-157 | an explicit name is returned as set; clearing it brings back the derived name, which has no `-` |
| `Scenarios.ModuleNameFollowsProject` | plugin/src/main/groovy/org/gradle/plugins/nbm/NbmPluginExtension.java:148-151 | with no explicit name, the derived name follows the project's current name (nothing is cached); the rename is a model-only stand-in, since Gradle fixes project names |
| `Scenarios.SpecificationVersionFollowsProject` | plugin/src/main/groovy/org/gradle/plugins/nbm/NbmPluginExtension.java:167-172 | with no explicit version, changing the project version changes the specification version accordingly |
| `Scenarios.AutoupdateShownByDefault` | plugin/src/main/groovy/org/gradle/plugins/nbm/NbmPluginExtension.java:57 | `autoupdateShowInClient` is true on a fresh extension and false after `setAutoupdateShowInClient(false)` |
| `Scenarios.LicenseFileCleared` | plugin/src/main/groovy/org/gradle/plugins/nbm/NbmPluginExtension.java:102-106 | `setLicenseFile(x)` stores the resolved file and a later `setLicenseFile(null)` clears it |
| `Scenarios.SetRequiresReplaces` | plugin/src/main/groovy/org/gradle/plugins/nbm/NbmPluginExtension.java:128-132 | after two `setRequires` calls, only the second list's elements remain |
| `Scenarios.RequiresTwice` | plugin/src/main/groovy/org/gradle/plugins/nbm/NbmPluginExtension.java:134-136 | `requires(d)` twice appends `d` twice, in order |
| `Scenarios.SetRequiresFromItself` | plugin/src/main/groovy/org/gradle/plugins/nbm/NbmPluginExtension.java:124-132 | `setRequires(getRequires())` returns normally and leaves the list empty |
| `Scenarios.RequiresListIsLive` | plugin/src/main/groovy/org/gradle/plugins/nbm/NbmPluginExtension.java:124-136 | the list returned by `getRequires()` shows a later `requires(d)` |
| `Scenarios.EntryTwice` | plugin/src/main/groovy/org/gradle/plugins/nbm/CustomManifestEntries.java:13-15 | `entry(k, a)` then `entry(k, b)` leaves what `entry(k, b)` alone leaves |
| `Scenarios.EntriesMapIsLive` | plugin/src/main/groovy/org/gradle/plugins/nbm/CustomManifestEntries.java:7-23 | the map returned by `getEntries()` shows a later `entry(k, v)` |
| `Scenarios.EntriesThenEntry` | plugin/src/main/groovy/org/gradle/plugins/nbm/CustomManifestEntries.java:13-19 | `entries(m)` then `entry(k, v)` equals merging `m` with `k` set to `v` |
| `Scenarios.PutTwice` | plugin/src/main/groovy/org/gradle/plugins/nbm/NbmManifest.java:13-15 | the same `put` twice leaves the manifest as one `put` does |

## Left out

- Building the descriptor from this configuration is not part of this model.
  That covers writing the standard keys, serialising `requires` and friend
  packages, overlaying custom entries, and checking required fields. That is
  done elsewhere in the plugin, not by these classes, and is not modelled.
- `harnessConfiguration`, and the constructor's creation of a detached Gradle
  dependency configuration, are left out. Both are dependency resolution done
  by the build host.
- The closure blocks `friendPackages(Closure)` and `keyStore(Closure)` are
  Groovy delegate dispatch and are left out. The owned objects they configure
  are available through `GetFriendPackages` and `GetKeyStore`.
- `NbmFriendPackages` and `NbmKeyStoreDef` are not part of this model. They
  appear only as opaque owned objects.
- `EvaluateUtils.asString` and `Project.file` are not part of this model. They
  are functions supplied by the caller; their types (`HostValue -> string`,
  `HostValue -> File`) make them total, so the model assumes they never
  return null and never throw.
- `Extension.NbmPluginExtension.constructor`: the source throws
  `NullPointerException("project")` on a null project; the parameter's
  non-null type rules that call out, so this error path is not modelled.
- `CustomEntries.CustomManifestEntries.Entries`: on a null map the model's
  exception carries no message. The source's exception comes from inside
  `HashMap.putAll`, and whether it has a message depends on the JDK (helpful
  NullPointerException messages supply one); the model does not capture that.
- `Extension.NbmPluginExtension.SetLicenseFile`: the resolver is total, so a
  failure raised by `project.file` is not modelled. In the source it would
  propagate and leave the field unchanged.
- `JavaUtil.List` and `JavaUtil.Map` hold non-null elements, keys and values.
  Java's `LinkedList` and `HashMap` also accept null, and `requires(null)` or
  `entry(null, v)` would store it. The model does not cover those calls.
- Java chars are UTF-16 code units, while Dafny chars are Unicode scalar
  values. `Replace` of `-` by `.` gives the same text either way, because
  neither character is a surrogate.
- Thread safety is not modelled: the source is not synchronised, and the
  model is single-threaded.
- `ManifestUtils.readManifest` is file I/O plus `java.util.Properties` parsing
  and is not part of this model. `FileMatchers` (Hamcrest test matchers over
  the file system) and the sample `HelloAction` (an empty UI action) are left
  out too.
