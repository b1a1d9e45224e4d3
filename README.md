# Gradle script loading and the Task contract, in Dafny

This project models two parts of an early Gradle build tool.

**`DefaultScriptProcessor`** (`script_processor.dfy`, module `ScriptProcessing`) turns a build
script source into a script object. There are three routes:

- compile the text directly, with no cache;
- go through the on-disk cache: try a cache load when the cache mode is `ON`, and on a miss
  compile and write the cache;
- return the `EmptyScript` sentinel when the uncached text is rejected by `GUtil.isTrue`.

The script handler (`IScriptHandler`) is opaque. It is modelled as the class `ScriptHandler`,
which appends every call and the script it returned to a ghost log. The pure functions
`UncachedCalls`, `CachedCalls` and `CallsMade` state which calls a source leads to, given
whether a cache load found a script. The method `ScriptProcessor.CreateScript` is proved to:

- make exactly those calls;
- return `EmptyScript` exactly when it made no call, and otherwise the last call's result;
- attach the source to the returned script.

**`Task`** (`task.dfy`, module `Tasks`) is a class holding:

- the ordered action list, changed by `DoFirst`, `DoLast` and `DeleteAllActions`;
- the dependency-path set, changed by `DependsOn` and `SetDependsOn`;
- the `enabled`, `executed` and `dagNeutral` flags;
- the skip-property list.

The skip-property list is a separate `SkipPropertyList` object, and `GetSkipProperties` hands
out that same object. A key a caller appends to it therefore takes part in `ShouldSkip`, as the
interface promises. The skip rule is the recursive `Skips`. It is proved equal to "some key of
the list is set, with no value or a value other than `"false"`". Dependency paths are resolved
by `ResolvePath`:

- an absolute path (one starting with `:`) is kept as-is;
- a task name becomes project path + `:` + name.

External inputs appear as values:

- the file-system facts about a script (`isFile`, `lastModified`, parent, name) are fields of `SourceFile`;
- the system properties are a `map<string, Option<string>>`, where `None` means a key given with no value;
- `GUtil.isTrue` is a function-valued field of the processor;
- the class loader and base class are an opaque `CompileContext`.

Two points about the routes and the paths:

- **Empty text on the cached route.** `EmptyScript` comes only from the uncached route (`DefaultScriptProcessor.java:51-55`). A cacheable source with empty text still goes to the handler, and `CallsMade` states this.
- **When relative paths are resolved.** The model resolves relative `dependsOn` paths when `DependsOn` is called. `projectPath` is `const`, so the resolved path is the same as resolving later.

## Model

| member | source | states |
|---|---|---|
| ScriptProcessing.CallsMade | src/main/groovy/org/gradle/groovy/scripts/DefaultScriptProcessor.java:41-76 | A cache call is made exactly when the mode is not OFF and the source file exists and is a regular file. No handler call (the EmptyScript route) happens exactly when the source is not cacheable and the text is rejected. A non-cacheable source with accepted text gives exactly one direct compile. Every cache call uses the source file's script cache directory. A cache load happens exactly when the mode is ON and the source is cacheable, and it is given the file's lastModified. A cache write happens exactly when the source is cacheable and either the mode is not ON or the load missed, and it is given the source text. |
| ScriptProcessing.UncachedCalls | src/main/groovy/org/gradle/groovy/scripts/DefaultScriptProcessor.java:51-58 | No handler call when isTrue rejects the text. Otherwise exactly one createScript call with the text and the class name, and never a cache call. |
| ScriptProcessing.CachedCalls | src/main/groovy/org/gradle/groovy/scripts/DefaultScriptProcessor.java:60-72 | At least one call, and all of them are cache calls on the script cache directory with the source's class name. The load is first and happens iff the mode is ON; it gets the file's lastModified. The write is last, happens iff the mode is not ON or the load missed, and gets the source text. |
| ScriptProcessing.IsCacheable | src/main/groovy/org/gradle/groovy/scripts/DefaultScriptProcessor.java:74-76 | A source is cacheable iff the mode is ON or another mode that is not OFF, and its file is present and is a regular file. |
| ScriptProcessing.Script.Empty | src/main/groovy/org/gradle/groovy/scripts/DefaultScriptProcessor.java:54 | A new EmptyScript sentinel, with no source attached yet. |
| ScriptProcessing.ScriptCacheDir | src/main/groovy/org/gradle/groovy/scripts/DefaultScriptProcessor.java:61-63 | The cache directory lies two levels below the script's directory: first the cache directory name, then the script's file name. |
| ScriptProcessing.ScriptCacheDirInjective | src/main/groovy/org/gradle/groovy/scripts/DefaultScriptProcessor.java:61-63 | Two source files share a script cache directory only if they have the same parent and name. |
| ScriptProcessing.ScriptProcessor.CreateScript | src/main/groovy/org/gradle/groovy/scripts/DefaultScriptProcessor.java:37-49 | The new handler-log entries are exactly CallsMade for this processor's mode, given whether a load hit. The result is EmptyScript iff no call was made; otherwise it is the script the last call returned. Its source is set to the argument. |
| ScriptProcessing.ScriptProcessor.LoadWithoutCache | src/main/groovy/org/gradle/groovy/scripts/DefaultScriptProcessor.java:51-58 | The log grows by exactly UncachedCalls. The result is a new EmptyScript when no call was made, and otherwise the compiled script. |
| ScriptProcessing.ScriptProcessor.LoadViaCache | src/main/groovy/org/gradle/groovy/scripts/DefaultScriptProcessor.java:60-72 | The log grows by exactly CachedCalls, given whether the load hit. The result is what the last call returned: the cached script on a hit, otherwise the written one. |
| ScriptProcessing.ScriptProcessor.constructor | src/main/groovy/org/gradle/groovy/scripts/DefaultScriptProcessor.java:32-35 | Keeps the handler and the cache mode it is given. |
| ScriptProcessing.ScriptHandler.CreateScript | src/main/groovy/org/gradle/groovy/scripts/DefaultScriptProcessor.java:57 | Records a compile call with its text, class name and context, and returns a new script. |
| ScriptProcessing.ScriptHandler.LoadFromCache | src/main/groovy/org/gradle/groovy/scripts/DefaultScriptProcessor.java:66-67 | Records a load call with its timestamp, class name, cache directory and context. Returns a new script or null. |
| ScriptProcessing.ScriptHandler.WriteToCache | src/main/groovy/org/gradle/groovy/scripts/DefaultScriptProcessor.java:71 | Records a write call with its text, class name, cache directory and context, and returns a new script. |
| ScriptProcessing.Script.SetSource | src/main/groovy/org/gradle/groovy/scripts/DefaultScriptProcessor.java:47 | Afterwards the script's source is the given source. |
| Tasks.TaskPath | src/main/groovy/org/gradle/api/Task.java:98-104 | A task path splits into the project path, the `:` separator and the task name. |
| Tasks.TaskPathInjective | src/main/groovy/org/gradle/api/Task.java:55-104 | If task names contain no separator, equal task paths mean the same project path and the same name. Names unique per project therefore give paths unique in the build. |
| Tasks.ResolvePath | src/main/groovy/org/gradle/api/Task.java:106-116 | An absolute path is kept as given. A relative path becomes project path + `:` + path. The result is absolute whenever the project path is absolute or empty. |
| Tasks.ResolveAllMembers | src/main/groovy/org/gradle/api/Task.java:106-116 | A path is in the resolved set of a dependsOn argument list iff some argument resolves to it. |
| Tasks.DependsOnSibling | src/main/groovy/org/gradle/api/Task.java:106-111 | A relative dependency on a name resolves to the path of the task with that name in the same project. |
| Tasks.Skips | src/main/groovy/org/gradle/api/Task.java:183-187 | The skip rule checked key by key. It holds iff some key in the list is set to no value or to a value other than "false". |
| Tasks.Task.Path | src/main/groovy/org/gradle/api/Task.java:98-104 | A task's path is its project's path, then `:`, then its name. |
| Tasks.SkipsIff | src/main/groovy/org/gradle/api/Task.java:183-187 | The skip rule holds iff some key of the list is set to no value or to a value other than "false". An unset key never causes a skip. |
| Tasks.SkipsAfterAdd | src/main/groovy/org/gradle/api/Task.java:183-187 | Appending a key skips iff the old list skipped or the new key is set to something other than "false". |
| Tasks.SkipPropertyList.constructor | src/main/groovy/org/gradle/api/Task.java:189 | A new skip list is empty. |
| Tasks.SkipPropertyList.Add | src/main/groovy/org/gradle/api/Task.java:183-185 | Adding a key appends it to the live list. |
| Tasks.Task.constructor | src/main/groovy/org/gradle/api/Task.java:69-82 | A new task has no actions, no dependencies and no skip properties. It is enabled, not executed and not dag neutral. |
| Tasks.Task.GetSkipProperties | src/main/groovy/org/gradle/api/Task.java:183-191 | Returns the task's own skip list object every time, so the list is live. |
| Tasks.Task.ShouldSkip | src/main/groovy/org/gradle/api/Task.java:183-187 | True iff some key of the task's current skip list is set to no value or to a value other than "false". |
| Tasks.Task.ActionsToRun | src/main/groovy/org/gradle/api/Task.java:148-154 | A disabled task runs no action. A skipped task runs no action even when enabled. An enabled, unskipped task runs its actions in order. |
| Tasks.Task.DoFirst | src/main/groovy/org/gradle/api/Task.java:118-124 | The action goes in front and the old actions follow in order. Nothing else changes, and the same task is returned. |
| Tasks.Task.DoLast | src/main/groovy/org/gradle/api/Task.java:126-132 | The action goes at the end after the unchanged old actions. Nothing else changes, and the same task is returned. |
| Tasks.Task.DeleteAllActions | src/main/groovy/org/gradle/api/Task.java:134-139 | The action list becomes empty. Nothing else changes, and the same task is returned. |
| Tasks.Task.DependsOn | src/main/groovy/org/gradle/api/Task.java:106-116 | The new set is the old set plus the resolved form of every argument, so nothing is removed. Nothing else changes, and the same task is returned. |
| Tasks.Task.SetDependsOn | src/main/groovy/org/gradle/api/Task.java:84-89 | The dependency set becomes exactly the given set. Nothing else changes. |
| Tasks.Task.SetEnabled | src/main/groovy/org/gradle/api/Task.java:141-154 | Afterwards enabled is the given value. Actions, dependencies, the other flags and the skip list are unchanged. |
| Tasks.Task.SetDagNeutral | src/main/groovy/org/gradle/api/Task.java:165-181 | Afterwards dagNeutral is the given value. Actions, dependencies, the other flags and the skip list are unchanged. |
| Tasks.SkipPropertyScenario | src/main/groovy/org/gradle/api/Task.java:183-187 | A task started with `-Dskip.test` and no value, whose live list gets "skip.test" after creation, is skipped and runs no action. |
| Tasks.ActionOrderScenario | src/main/groovy/org/gradle/api/Task.java:118-132 | doLast(2), then doFirst(1), then doLast(3) gives the actions [1, 2, 3]. |

## Left out

- Task graph construction, cycle detection, execution order and the task executor are not part of this model. None of them is in the modelled code.
- Setting `executed` is left out. The Task interface only reads this flag (`getExecuted`), and the executor that sets it is not part of this model. The model keeps it as a field that starts false.
- `Task.configure(Closure)` is left out: it is dynamic Groovy closure dispatch.
- The `Comparable` ordering of tasks is left out: the modelled code does not say what it compares.
- `getProject` is left out; a task keeps only its project's path.
- The constants `TASK_NAME`, `TASK_TYPE`, `TASK_DEPENDS_ON` and `TASK_OVERWRITE` are left out. They are keys for creating tasks, and no operation here uses them.
- `AUTOSKIP_PROPERTY_PREFIX` is left out: the modelled code never shows how it is used.
- Tasks.Task.DependsOn: only string paths are modelled. Java `dependsOn` accepts any object, and what it does with a non-string is not part of this model.
- Tasks.TaskPath: the root-project special case is not modelled. Any such case lives in `Project`, which is not part of this model.
- Tasks.KeyForcesSkip: the comparison with "false" is an exact string match. Case folding is not modelled, because the implementing class is not part of this model.
- ScriptProcessing.ScriptProcessor: `GUtil.isTrue` is an abstract function. `GUtil` is not part of this model.
- ScriptProcessing.CacheDirName: `Project.CACHE_DIR_NAME` is taken to be `.gradle`. `Project` is not part of this model, and no property depends on the value.
- ScriptProcessing.ScriptHandler: every script the handler returns is modelled as a new object, and `createScript`/`writeToCache` never return null. The handler is not part of this model.
- Handler internals are left out: Groovy compilation, the timestamp check behind `loadFromCache` and the disk writes of `writeToCache`.
- Class loaders and the script base class are opaque values. The generic cast to `T` in `createScript` is not modelled.
- `getScriptHandler` is left out: it only returns the `handler` field.
- File-system queries are left out. `isFile`, `lastModified` and `getParentFile` are fields of `SourceFile`, read once, so a file changing during a call is not modelled.
