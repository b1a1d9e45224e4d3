/**
 * The script-loading decision of DefaultScriptProcessor: given a script source it
 * either compiles the text directly, goes through the on-disk cache of compiled
 * scripts (load, then compile-and-write on a miss), or hands back the EmptyScript
 * sentinel. The compiler and the cache themselves (IScriptHandler) are opaque; the
 * model records every call made to them in a ghost log so that the contracts can
 * say which call happened, with which arguments, and whose result was returned.
 */
module ScriptProcessing {
  import opened Wrappers

  /** The global cache mode. Only ON and OFF are tested by the processor;
      Other stands for every remaining mode. */
  datatype CacheUsage = On | Off | Other

  /** A file path as its sequence of segments; the empty path is a null parent. */
  type FilePath = seq<string>

  /** A script's backing file, with the file-system facts the processor asks of it. */
  datatype SourceFile = SourceFile(parent: FilePath, name: string, isFile: bool, lastModified: int)

  /** Where a script comes from: an optional backing file, its text (possibly null) and its class name. */
  datatype ScriptSource = ScriptSource(sourceFile: Option<SourceFile>, text: Option<string>, className: string)

  /** The class loader and the script base class, passed through to the handler untouched. */
  datatype CompileContext = CompileContext(classLoader: nat, baseClass: string)

  /** One call made to the script handler, with its arguments. */
  datatype HandlerCall =
    | Compile(text: Option<string>, className: string, ctx: CompileContext)
    | CacheLoad(timestamp: int, className: string, cacheDir: FilePath, ctx: CompileContext)
    | CacheWrite(text: Option<string>, className: string, cacheDir: FilePath, ctx: CompileContext)
  {
    /** True for the two calls that read or write the on-disk cache. */
    predicate UsesCache() { CacheLoad? || CacheWrite? }
  }

  /** The name of the per-directory build cache directory (Project.CACHE_DIR_NAME). */
  const CacheDirName: string := ".gradle"

  /** The cache is used when it is not switched off and the source is backed by a regular file. */
  function IsCacheable(usage: CacheUsage, file: Option<SourceFile>): (cacheable: bool)
    ensures cacheable <==> (usage == On || usage == Other) && file.Some? && file.value.isFile
  {
    usage != Off && file.Some? && file.value.isFile
  }

  /** The directory holding the compiled form of one script:
      the script's directory, then the cache directory, then the script's file name. */
  function ScriptCacheDir(file: SourceFile): (dir: FilePath)
    ensures |dir| == |file.parent| + 2
    ensures dir[..|file.parent|] == file.parent
    ensures dir[|file.parent|] == CacheDirName && dir[|dir| - 1] == file.name
  {
    file.parent + [CacheDirName, file.name]
  }

  /** Two backing files share a script cache directory only if they are the same file. */
  lemma ScriptCacheDirInjective(f: SourceFile, g: SourceFile)
    requires ScriptCacheDir(f) == ScriptCacheDir(g)
    ensures f.parent == g.parent && f.name == g.name
  {
  }

  /** The handler calls of the uncached route: none for a text that GUtil.isTrue rejects,
      otherwise one direct compilation. */
  function UncachedCalls(source: ScriptSource, ctx: CompileContext, isTrue: Option<string> -> bool): (calls: seq<HandlerCall>)
    ensures calls == [] <==> !isTrue(source.text)
    ensures forall c :: c in calls ==> !c.UsesCache()
    ensures calls != [] ==> calls == [Compile(source.text, source.className, ctx)]
  {
    if !isTrue(source.text) then [] else [Compile(source.text, source.className, ctx)]
  }

  /** The handler calls of the cached route, given whether a cache load (if made) found a script. */
  function CachedCalls(usage: CacheUsage, file: SourceFile, source: ScriptSource, ctx: CompileContext, loadHit: bool): (calls: seq<HandlerCall>)
    ensures calls != []
    ensures forall c :: c in calls ==> c.UsesCache() && c.cacheDir == ScriptCacheDir(file)
    ensures forall c :: c in calls ==> c.className == source.className && c.ctx == ctx
    ensures (exists c :: c in calls && c.CacheLoad?) <==> usage == On
    ensures forall c :: c in calls && c.CacheLoad? ==> c == calls[0] && c.timestamp == file.lastModified
    ensures (exists c :: c in calls && c.CacheWrite?) <==> usage != On || !loadHit
    ensures forall c :: c in calls && c.CacheWrite? ==> c == calls[|calls| - 1] && c.text == source.text
  {
    var dir := ScriptCacheDir(file);
    var write := CacheWrite(source.text, source.className, dir, ctx);
    if usage == On then
      var load := CacheLoad(file.lastModified, source.className, dir, ctx);
      if loadHit then [load] else [load, write]
    else
      [write]
  }

  /** Every handler call createScript makes for a source, given whether a cache load found a script. */
  function CallsMade(usage: CacheUsage, source: ScriptSource, ctx: CompileContext, isTrue: Option<string> -> bool, loadHit: bool): (calls: seq<HandlerCall>)
    // the cache is touched exactly when caching is not OFF and the source is a regular file
    ensures (exists c :: c in calls && c.UsesCache()) <==>
            usage != Off && source.sourceFile.Some? && source.sourceFile.value.isFile
    // the EmptyScript sentinel (no handler call at all) only on the uncached route with rejected text
    ensures calls == [] <==> !IsCacheable(usage, source.sourceFile) && !isTrue(source.text)
    ensures !IsCacheable(usage, source.sourceFile) && isTrue(source.text) ==>
              calls == [Compile(source.text, source.className, ctx)]
    ensures forall c :: c in calls && c.UsesCache() ==>
              source.sourceFile.Some? && c.cacheDir == ScriptCacheDir(source.sourceFile.value)
    ensures (exists c :: c in calls && c.CacheLoad?) <==> usage == On && IsCacheable(usage, source.sourceFile)
    ensures forall c :: c in calls && c.CacheLoad? ==>
              source.sourceFile.Some? && c.timestamp == source.sourceFile.value.lastModified
    ensures (exists c :: c in calls && c.CacheWrite?) <==>
              IsCacheable(usage, source.sourceFile) && (usage != On || !loadHit)
    ensures forall c :: c in calls && c.CacheWrite? ==> c.text == source.text
  {
    if IsCacheable(usage, source.sourceFile) then
      CachedCalls(usage, source.sourceFile.value, source, ctx, loadHit)
    else
      UncachedCalls(source, ctx, isTrue)
  }

  /** A compiled script object; EmptyScript is the processor's own sentinel. */
  class Script {
    const isEmptyScript: bool
    var source: Option<ScriptSource>

    constructor Empty()
      ensures isEmptyScript && source == None
    {
      isEmptyScript := true;
      source := None;
    }

    constructor Compiled()
      ensures !isEmptyScript && source == None
    {
      isEmptyScript := false;
      source := None;
    }

    method SetSource(s: ScriptSource)
      modifies this
      ensures source == Some(s)
    {
      source := Some(s);
    }
  }

  /** One recorded handler call and the script it returned (null for a cache miss). */
  datatype Event = Event(call: HandlerCall, result: Script?)

  /** The calls of a log, without their results. */
  ghost function Calls(events: seq<Event>): seq<HandlerCall> {
    seq(|events|, i requires 0 <= i < |events| => events[i].call)
  }

  /** Some cache load in the log found a script. */
  ghost predicate LoadHit(events: seq<Event>) {
    exists e :: e in events && e.call.CacheLoad? && e.result != null
  }

  /** The compiler and cache behind the processor. Its internals (Groovy compilation, the
      timestamp check of a cached class) are not modelled: each call returns some new script,
      a cache load may also miss, and every call is appended to the ghost log. */
  class ScriptHandler {
    ghost var log: seq<Event>

    constructor ()
      ensures log == []
    {
      log := [];
    }

    method CreateScript(text: Option<string>, ctx: CompileContext, className: string) returns (script: Script)
      modifies this
      ensures fresh(script) && !script.isEmptyScript && script.source == None
      ensures log == old(log) + [Event(Compile(text, className, ctx), script)]
    {
      script := new Script.Compiled();
      log := log + [Event(Compile(text, className, ctx), script)];
    }

    method LoadFromCache(timestamp: int, ctx: CompileContext, className: string, cacheDir: FilePath) returns (script: Script?)
      modifies this
      ensures script != null ==> fresh(script) && !script.isEmptyScript && script.source == None
      ensures log == old(log) + [Event(CacheLoad(timestamp, className, cacheDir, ctx), script)]
    {
      var valid: bool := *;
      if valid {
        script := new Script.Compiled();
      } else {
        script := null;
      }
      log := log + [Event(CacheLoad(timestamp, className, cacheDir, ctx), script)];
    }

    method WriteToCache(text: Option<string>, ctx: CompileContext, className: string, cacheDir: FilePath) returns (script: Script)
      modifies this
      ensures fresh(script) && !script.isEmptyScript && script.source == None
      ensures log == old(log) + [Event(CacheWrite(text, className, cacheDir, ctx), script)]
    {
      script := new Script.Compiled();
      log := log + [Event(CacheWrite(text, className, cacheDir, ctx), script)];
    }
  }

  /** DefaultScriptProcessor: a script handler and a cache mode fixed at construction. */
  class ScriptProcessor {
    const handler: ScriptHandler
    const cacheUsage: CacheUsage
    /** GUtil.isTrue applied to a script text; GUtil is not part of this model. */
    const isTrue: Option<string> -> bool

    constructor (handler: ScriptHandler, cacheUsage: CacheUsage, isTrue: Option<string> -> bool)
      ensures this.handler == handler && this.cacheUsage == cacheUsage && this.isTrue == isTrue
    {
      this.handler := handler;
      this.cacheUsage := cacheUsage;
      this.isTrue := isTrue;
    }

    /** Picks the route, runs it, and attaches the source to whatever script comes back. */
    method CreateScript(source: ScriptSource, ctx: CompileContext) returns (script: Script)
      modifies handler
      ensures fresh(script) && script.source == Some(source)
      ensures |old(handler.log)| <= |handler.log| && handler.log[..|old(handler.log)|] == old(handler.log)
      ensures var events := handler.log[|old(handler.log)|..];
              && Calls(events) == CallsMade(cacheUsage, source, ctx, isTrue, LoadHit(events))
              && (script.isEmptyScript <==> events == [])
              && (events != [] ==> script == events[|events| - 1].result)
    {
      if IsCacheable(cacheUsage, source.sourceFile) {
        script := LoadViaCache(source, ctx);
      } else {
        script := LoadWithoutCache(source, ctx);
      }
      script.SetSource(source);
    }

    method LoadWithoutCache(source: ScriptSource, ctx: CompileContext) returns (script: Script)
      modifies handler
      ensures fresh(script) && script.source == None
      ensures |old(handler.log)| <= |handler.log| && handler.log[..|old(handler.log)|] == old(handler.log)
      ensures var events := handler.log[|old(handler.log)|..];
              && Calls(events) == UncachedCalls(source, ctx, isTrue)
              && !LoadHit(events)
              && (script.isEmptyScript <==> events == [])
              && (events != [] ==> script == events[|events| - 1].result)
    {
      if !isTrue(source.text) {
        script := new Script.Empty();
        return;
      }
      script := handler.CreateScript(source.text, ctx, source.className);
    }

    method LoadViaCache(source: ScriptSource, ctx: CompileContext) returns (script: Script)
      requires source.sourceFile.Some?
      modifies handler
      ensures fresh(script) && !script.isEmptyScript && script.source == None
      ensures |old(handler.log)| <= |handler.log| && handler.log[..|old(handler.log)|] == old(handler.log)
      ensures var events := handler.log[|old(handler.log)|..];
              && Calls(events) == CachedCalls(cacheUsage, source.sourceFile.value, source, ctx, LoadHit(events))
              && events != [] && script == events[|events| - 1].result
    {
      var sourceFile := source.sourceFile.value;
      var scriptCacheDir := ScriptCacheDir(sourceFile);
      var scriptClassName := source.className;
      if cacheUsage == On {
        var cachedScript := handler.LoadFromCache(sourceFile.lastModified, ctx, scriptClassName, scriptCacheDir);
        if cachedScript != null {
          return cachedScript;
        }
      }
      script := handler.WriteToCache(source.text, ctx, scriptClassName, scriptCacheDir);
    }
  }
}
