/**
 * The state contract of a build Task: an ordered list of actions, a set of dependency
 * paths resolved against the owning project's path, the enabled and dag-neutral flags,
 * and a live list of skip-property keys that, together with the system properties of a
 * run, decides whether the task's actions are suppressed.
 */
module Tasks {
  import opened Wrappers

  /** A step of work a task runs; only its identity matters here. */
  datatype TaskAction = TaskAction(id: nat)

  /** The separator between the segments of project and task paths. */
  const PathSeparator: char := ':'

  /** A path is absolute when it starts with the separator; otherwise it is a task name
      relative to a project. */
  predicate IsAbsolute(p: string) {
    |p| > 0 && p[0] == PathSeparator
  }

  /** The path of the task called `name` in the project at `projectPath`. */
  function TaskPath(projectPath: string, name: string): (path: string)
    ensures |path| == |projectPath| + 1 + |name|
    ensures path[..|projectPath|] == projectPath && path[|projectPath|] == PathSeparator
    ensures path[|projectPath| + 1..] == name
  {
    projectPath + [PathSeparator] + name
  }

  /** A name or path that never contains the separator. */
  predicate IsSimpleName(name: string) {
    forall i :: 0 <= i < |name| ==> name[i] != PathSeparator
  }

  /** Task paths are unique: two tasks whose names hold no separator have the same path
      only if they are the same name in the same project. */
  lemma TaskPathInjective(p1: string, n1: string, p2: string, n2: string)
    requires IsSimpleName(n1) && IsSimpleName(n2)
    requires TaskPath(p1, n1) == TaskPath(p2, n2)
    ensures p1 == p2 && n1 == n2
  {
  }

  /** Resolves a dependency path against the project path: a relative path names a task of
      that project, an absolute path is taken as it is. */
  function ResolvePath(projectPath: string, p: string): (r: string)
    ensures IsAbsolute(p) ==> r == p
    ensures !IsAbsolute(p) ==> r == TaskPath(projectPath, p)
    // the result names a task of the build: it is absolute for an absolute (or root, empty) project path
    ensures projectPath == [] || IsAbsolute(projectPath) ==> IsAbsolute(r)
  {
    if IsAbsolute(p) then p else TaskPath(projectPath, p)
  }

  /** The resolved form of every path in a dependsOn argument list. */
  function ResolveAll(projectPath: string, paths: seq<string>): set<string> {
    if paths == [] then {} else {ResolvePath(projectPath, paths[0])} + ResolveAll(projectPath, paths[1..])
  }

  /** A path lands in the resolved set exactly when some argument resolves to it. */
  lemma {:induction false} ResolveAllMembers(projectPath: string, paths: seq<string>, x: string)
    ensures x in ResolveAll(projectPath, paths) <==>
            exists i :: 0 <= i < |paths| && ResolvePath(projectPath, paths[i]) == x
  {
    if paths != [] {
      ResolveAllMembers(projectPath, paths[1..], x);
      if x in ResolveAll(projectPath, paths[1..]) {
        var i :| 0 <= i < |paths[1..]| && ResolvePath(projectPath, paths[1..][i]) == x;
        assert paths[i + 1] == paths[1..][i];
      }
      if exists i :: 0 <= i < |paths| && ResolvePath(projectPath, paths[i]) == x {
        var i :| 0 <= i < |paths| && ResolvePath(projectPath, paths[i]) == x;
        if i > 0 {
          assert paths[1..][i - 1] == paths[i];
        }
      }
    }
  }

  /** A single key of the skip list suppresses the actions when it is set, with no value
      or with any value other than "false". */
  predicate KeyForcesSkip(key: string, props: map<string, Option<string>>) {
    key in props && props[key] != Some("false")
  }

  /** The skip rule over a list of keys, checked key by key. */
  function Skips(keys: seq<string>, props: map<string, Option<string>>): (skip: bool)
    ensures skip <==> exists k :: k in keys && KeyForcesSkip(k, props)
  {
    if keys == [] then false else KeyForcesSkip(keys[0], props) || Skips(keys[1..], props)
  }

  /** The skip rule holds exactly when some key of the list forces a skip. */
  lemma SkipsIff(keys: seq<string>, props: map<string, Option<string>>)
    ensures Skips(keys, props) <==> exists i :: 0 <= i < |keys| && KeyForcesSkip(keys[i], props)
  {
  }

  /** Adding a key to the list makes it take part in the skip rule, and changes nothing else:
      an unset key, or one set to "false", never causes a skip. */
  lemma SkipsAfterAdd(keys: seq<string>, key: string, props: map<string, Option<string>>)
    ensures Skips(keys + [key], props) <==> Skips(keys, props) || KeyForcesSkip(key, props)
  {
  }

  /** The list that getSkipProperties hands out: callers append keys to it, and the task
      sees them because it holds the very same list. */
  class SkipPropertyList {
    var keys: seq<string>

    constructor ()
      ensures keys == []
    {
      keys := [];
    }

    method Add(key: string)
      modifies this
      ensures keys == old(keys) + [key]
    {
      keys := keys + [key];
    }
  }

  /** A task of a project. The constructor stands for a fresh task as the build creates it:
      no actions, no dependencies, enabled, not dag neutral, no skip properties. */
  class Task {
    const projectPath: string
    const name: string
    var actions: seq<TaskAction>
    var dependsOn: set<string>
    var enabled: bool
    var executed: bool
    var dagNeutral: bool
    const skipProperties: SkipPropertyList

    constructor (projectPath: string, name: string)
      ensures this.projectPath == projectPath && this.name == name
      ensures actions == [] && dependsOn == {} && enabled && !executed && !dagNeutral
      ensures fresh(skipProperties) && skipProperties.keys == []
    {
      this.projectPath := projectPath;
      this.name := name;
      actions := [];
      dependsOn := {};
      enabled := true;
      executed := false;
      dagNeutral := false;
      skipProperties := new SkipPropertyList();
    }

    /** The task's fully qualified path. */
    function Path(): (path: string)
      ensures |path| == |projectPath| + 1 + |name|
      ensures path[..|projectPath|] == projectPath && path[|projectPath|] == PathSeparator
      ensures path[|projectPath| + 1..] == name
    {
      TaskPath(projectPath, name)
    }

    /** The live skip-property list: the same object on every call. */
    function GetSkipProperties(): (list: SkipPropertyList)
      ensures list == skipProperties
    {
      skipProperties
    }

    /** Whether the skip properties suppress this task's actions under the given system properties. */
    function ShouldSkip(props: map<string, Option<string>>): (skip: bool)
      reads this, skipProperties
      ensures skip <==> exists i :: 0 <= i < |skipProperties.keys| && KeyForcesSkip(skipProperties.keys[i], props)
    {
      SkipsIff(skipProperties.keys, props);
      Skips(skipProperties.keys, props)
    }

    /** The actions a run executes, in order: none when the task is disabled or skipped. */
    function ActionsToRun(props: map<string, Option<string>>): (run: seq<TaskAction>)
      reads this, skipProperties
      ensures !enabled ==> run == []
      ensures (exists i :: 0 <= i < |skipProperties.keys| && KeyForcesSkip(skipProperties.keys[i], props)) ==> run == []
      ensures enabled && (forall i :: 0 <= i < |skipProperties.keys| ==> !KeyForcesSkip(skipProperties.keys[i], props)) ==>
                run == actions
    {
      if !enabled || ShouldSkip(props) then [] else actions
    }

    method DoFirst(action: TaskAction) returns (t: Task)
      modifies this
      ensures t == this
      ensures actions == [action] + old(actions)
      ensures dependsOn == old(dependsOn) && enabled == old(enabled) && executed == old(executed)
      ensures dagNeutral == old(dagNeutral) && unchanged(skipProperties)
    {
      actions := [action] + actions;
      t := this;
    }

    method DoLast(action: TaskAction) returns (t: Task)
      modifies this
      ensures t == this
      ensures actions == old(actions) + [action]
      ensures dependsOn == old(dependsOn) && enabled == old(enabled) && executed == old(executed)
      ensures dagNeutral == old(dagNeutral) && unchanged(skipProperties)
    {
      actions := actions + [action];
      t := this;
    }

    method DeleteAllActions() returns (t: Task)
      modifies this
      ensures t == this
      ensures actions == []
      ensures dependsOn == old(dependsOn) && enabled == old(enabled) && executed == old(executed)
      ensures dagNeutral == old(dagNeutral) && unchanged(skipProperties)
    {
      actions := [];
      t := this;
    }

    /** Adds the resolved form of each path; nothing is removed. */
    method DependsOn(paths: seq<string>) returns (t: Task)
      modifies this
      ensures t == this
      ensures dependsOn == old(dependsOn) + ResolveAll(projectPath, paths)
      ensures actions == old(actions) && enabled == old(enabled) && executed == old(executed)
      ensures dagNeutral == old(dagNeutral) && unchanged(skipProperties)
    {
      dependsOn := dependsOn + ResolveAll(projectPath, paths);
      t := this;
    }

    method SetDependsOn(paths: set<string>)
      modifies this
      ensures dependsOn == paths
      ensures actions == old(actions) && enabled == old(enabled) && executed == old(executed)
      ensures dagNeutral == old(dagNeutral) && unchanged(skipProperties)
    {
      dependsOn := paths;
    }

    method SetEnabled(enabled: bool)
      modifies this
      ensures this.enabled == enabled
      ensures actions == old(actions) && dependsOn == old(dependsOn) && executed == old(executed)
      ensures dagNeutral == old(dagNeutral) && unchanged(skipProperties)
    {
      this.enabled := enabled;
    }

    method SetDagNeutral(dagNeutral: bool)
      modifies this
      ensures this.dagNeutral == dagNeutral
      ensures actions == old(actions) && dependsOn == old(dependsOn) && executed == old(executed)
      ensures enabled == old(enabled) && unchanged(skipProperties)
    {
      this.dagNeutral := dagNeutral;
    }
  }

  /** A relative dependency on a name resolves to the path of the task with that name in
      the same project. */
  lemma DependsOnSibling(t: Task, sibling: Task)
    requires sibling.projectPath == t.projectPath && !IsAbsolute(sibling.name)
    ensures ResolvePath(t.projectPath, sibling.name) == sibling.Path()
  {
  }

  /** Started with `-Dskip.test` (no value), a task whose live skip list was given the key
      "skip.test" after creation runs none of its actions, although it stays enabled. */
  method SkipPropertyScenario() returns (skipped: bool, run: seq<TaskAction>)
    ensures skipped && run == []
  {
    var t := new Task(":sub", "test");
    var _ := t.DoLast(TaskAction(0));
    var props := map["skip.test" := None];
    var before := t.ActionsToRun(props);
    assert !t.ShouldSkip(props);
    assert before == [TaskAction(0)];
    var list := t.GetSkipProperties();
    list.Add("skip.test");
    SkipsAfterAdd([], "skip.test", props);
    skipped := t.ShouldSkip(props);
    run := t.ActionsToRun(props);
  }

  /** doFirst and doLast build the action list in execution order: a later doFirst goes in
      front of everything, a later doLast after everything. */
  method ActionOrderScenario() returns (acts: seq<TaskAction>)
    ensures acts == [TaskAction(1), TaskAction(2), TaskAction(3)]
  {
    var t := new Task(":sub", "compile");
    var t1 := t.DoLast(TaskAction(2));
    var t2 := t1.DoFirst(TaskAction(1));
    var t3 := t2.DoLast(TaskAction(3));
    acts := t3.actions;
  }
}
