/** Layered logging settings. */
module ProductLogging {
  // Merging role and role group, and what a generator makes of the result.

  import opened Wrappers

  const ROOT_LOGGER_NAME := "ROOT"

  datatype LevelSpec = LevelSpec(level: string)

  /** One container's settings; a logger may be listed without an entry. */
  datatype ContainerLogging = ContainerLogging(
    console: Option<LevelSpec>,
    file: Option<LevelSpec>,
    loggers: Option<map<string, Option<LevelSpec>>>)

  datatype LoggingSpec = LoggingSpec(
    enableVectorAgent: Option<bool>,
    containers: Option<map<string, ContainerLogging>>)

  // ---------------------------------------------------------------------------------------------
  // What a layer states
  // ---------------------------------------------------------------------------------------------

  /** An entry without a level states nothing. */
  function Level(entry: Option<LevelSpec>): Option<string> {
    if entry.None? || entry.value.level == "" then None else Some(entry.value.level)
  }

  function LoggerLevel(c: ContainerLogging, name: string): Option<string> {
    if c.loggers.None? || name !in c.loggers.value then None else Level(c.loggers.value[name])
  }

  /** The upper layer's statement, or else the lower one's. */
  function Upper<T>(lower: Option<T>, upper: Option<T>): Option<T> {
    if upper.Some? then upper else lower
  }

  /** Every level of `merged` is the upper layer's, or else the lower one's. */
  ghost predicate LevelsMerged(lower: ContainerLogging, upper: ContainerLogging, merged: ContainerLogging) {
    && Level(merged.console) == Upper(Level(lower.console), Level(upper.console))
    && Level(merged.file) == Upper(Level(lower.file), Level(upper.file))
    && (forall name :: LoggerLevel(merged, name) == Upper(LoggerLevel(lower, name), LoggerLevel(upper, name)))
  }

  function ContainersOf(spec: Option<LoggingSpec>): map<string, ContainerLogging> {
    if spec.None? || spec.value.containers.None? then map[] else spec.value.containers.value
  }

  const NO_LOGGING := ContainerLogging(None, None, None)

  function ContainerOf(spec: Option<LoggingSpec>, name: string): ContainerLogging {
    if name in ContainersOf(spec) then ContainersOf(spec)[name] else NO_LOGGING
  }

  function VectorAgent(spec: Option<LoggingSpec>): Option<bool> {
    if spec.None? then None else spec.value.enableVectorAgent
  }

  // ---------------------------------------------------------------------------------------------
  // Merging
  // ---------------------------------------------------------------------------------------------

  /** Adds the entries that state a level. */
  method AddLoggers(loggers: map<string, Option<LevelSpec>>, more: map<string, Option<LevelSpec>>)
    returns (merged: map<string, Option<LevelSpec>>)
    ensures forall k :: k in merged <==> k in loggers || (k in more && Level(more[k]).Some?)
    ensures forall k :: k in merged ==> merged[k] == if k in more && Level(more[k]).Some? then more[k] else loggers[k]
  {
    merged := loggers;
    var todo := more.Keys;
    while todo != {}
      invariant todo <= more.Keys
      invariant forall k :: k in merged <==> k in loggers || (k in more && k !in todo && Level(more[k]).Some?)
      invariant forall k :: k in merged ==>
        merged[k] == if k in more && k !in todo && Level(more[k]).Some? then more[k] else loggers[k]
    {
      var k :| k in todo;
      todo := todo - {k};
      if more[k].None? || more[k].value.level == "" {
        continue;
      }
      merged := merged[k := more[k]];
    }
  }

  /** One container, the role group winning leaf by leaf. */
  method MergeContainerLogging(role: ContainerLogging, group: ContainerLogging) returns (merged: ContainerLogging)
    ensures LevelsMerged(role, group, merged)
    ensures merged.loggers.Some? <==> role.loggers.Some? || group.loggers.Some?
    ensures merged.loggers.Some? ==> forall k :: k in merged.loggers.value ==> Level(merged.loggers.value[k]).Some?
  {
    var console, file := role.console, role.file;
    if group.console.Some? && group.console.value.level != "" {
      console := group.console;
    }
    if group.file.Some? && group.file.value.level != "" {
      file := group.file;
    }
    var loggers: Option<map<string, Option<LevelSpec>>> := None;
    if role.loggers.Some? || group.loggers.Some? {
      var entries: map<string, Option<LevelSpec>> := map[];
      if role.loggers.Some? {
        entries := AddLoggers(entries, role.loggers.value);
      }
      if group.loggers.Some? {
        entries := AddLoggers(entries, group.loggers.value);
      }
      loggers := Some(entries);
    }
    merged := ContainerLogging(console, file, loggers);
  }

  ghost predicate ContainerMerged(role: Option<LoggingSpec>, group: Option<LoggingSpec>, merged: Option<LoggingSpec>, name: string) {
    && (name in ContainersOf(merged) <==> name in ContainersOf(role) || name in ContainersOf(group))
    && LevelsMerged(ContainerOf(role, name), ContainerOf(group, name), ContainerOf(merged, name))
  }

  /** The whole specification: containers are united by name, and within each the role group wins leaf by
      leaf. */
  method MergeLoggingSpec(role: Option<LoggingSpec>, group: Option<LoggingSpec>) returns (merged: Option<LoggingSpec>)
    ensures merged.None? <==> role.None? && group.None?
    ensures VectorAgent(merged) == Upper(VectorAgent(role), VectorAgent(group))
    ensures forall name :: ContainerMerged(role, group, merged, name)
  {
    if role.None? {
      return group;
    }
    if group.None? {
      return role;
    }
    var agent := role.value.enableVectorAgent;
    if group.value.enableVectorAgent.Some? {
      agent := group.value.enableVectorAgent;
    }
    if role.value.containers.None? && group.value.containers.None? {
      return Some(LoggingSpec(agent, None));
    }
    var containers := ContainersOf(role);
    var todo := ContainersOf(group).Keys;
    while todo != {}
      invariant todo <= ContainersOf(group).Keys
      invariant forall name :: MergedSoFar(role, group, containers, todo, name)
    {
      var name :| name in todo;
      ghost var before, left := containers, todo;
      assert MergedSoFar(role, group, containers, todo, name);
      if name in containers {
        var container := MergeContainerLogging(containers[name], ContainersOf(group)[name]);
        containers := containers[name := container];
      } else {
        containers := containers[name := ContainersOf(group)[name]];
      }
      todo := todo - {name};
      forall other
        ensures MergedSoFar(role, group, containers, todo, other)
      {
        assert MergedSoFar(role, group, before, left, other);
      }
    }
    merged := Some(LoggingSpec(agent, Some(containers)));
    forall name
      ensures ContainerMerged(role, group, merged, name)
    {
      assert MergedSoFar(role, group, containers, {}, name);
    }
  }

  /** A container of the role group that is still to do is as the role has it. */
  ghost predicate MergedSoFar(role: Option<LoggingSpec>, group: Option<LoggingSpec>, containers: map<string, ContainerLogging>,
                              todo: set<string>, name: string) {
    if name in todo then
      (name in containers <==> name in ContainersOf(role)) && (name in containers ==> containers[name] == ContainersOf(role)[name])
    else
      && (name in containers <==> name in ContainersOf(role) || name in ContainersOf(group))
      && (name in containers ==> LevelsMerged(ContainerOf(role, name), ContainerOf(group, name), containers[name]))
  }

  // ---------------------------------------------------------------------------------------------
  // What a generator is given
  // ---------------------------------------------------------------------------------------------

  /** The framework-neutral settings; an empty level means the generator's default. */
  datatype LogConfig = LogConfig(
    rootLevel: string,
    loggers: map<string, string>,
    consoleLevel: string,
    fileLevel: string)

  function Text(level: Option<string>): string {
    if level.None? then "" else level.value
  }

  /** The settings of one container as a generator needs them. */
  ghost predicate Renders(spec: ContainerLogging, lc: LogConfig) {
    && lc.rootLevel == Text(LoggerLevel(spec, ROOT_LOGGER_NAME))
    && lc.consoleLevel == Text(Level(spec.console))
    && lc.fileLevel == Text(Level(spec.file))
    && (forall name :: name in lc.loggers <==> name != ROOT_LOGGER_NAME && LoggerLevel(spec, name).Some?)
    && (forall name :: name in lc.loggers ==> Some(lc.loggers[name]) == LoggerLevel(spec, name))
  }

  method LogConfigFromSpec(spec: Option<ContainerLogging>) returns (lc: LogConfig)
    ensures Renders(if spec.Some? then spec.value else NO_LOGGING, lc)
  {
    var rootLevel, loggers, consoleLevel, fileLevel := "", map[], "", "";
    if spec.None? {
      return LogConfig(rootLevel, loggers, consoleLevel, fileLevel);
    }
    var entries := if spec.value.loggers.Some? then spec.value.loggers.value else map[];
    var todo := entries.Keys;
    while todo != {}
      invariant todo <= entries.Keys
      invariant rootLevel == if ROOT_LOGGER_NAME in todo then "" else Text(LoggerLevel(spec.value, ROOT_LOGGER_NAME))
      invariant forall name :: name in loggers <==>
        name !in todo && name != ROOT_LOGGER_NAME && LoggerLevel(spec.value, name).Some?
      invariant forall name :: name in loggers ==> Some(loggers[name]) == LoggerLevel(spec.value, name)
    {
      var name :| name in todo;
      todo := todo - {name};
      var entry := entries[name];
      if entry.None? || entry.value.level == "" {
        continue;
      }
      if name == ROOT_LOGGER_NAME {
        rootLevel := entry.value.level;
        continue;
      }
      loggers := loggers[name := entry.value.level];
    }
    if spec.value.console.Some? && spec.value.console.value.level != "" {
      consoleLevel := spec.value.console.value.level;
    }
    if spec.value.file.Some? && spec.value.file.value.level != "" {
      fileLevel := spec.value.file.value.level;
    }
    lc := LogConfig(rootLevel, loggers, consoleLevel, fileLevel);
  }

  /** Rendered settings, the upper ones over the lower ones, point by point. */
  function Override(lower: LogConfig, upper: LogConfig): LogConfig {
    LogConfig(
      if upper.rootLevel != "" then upper.rootLevel else lower.rootLevel,
      lower.loggers + upper.loggers,
      if upper.consoleLevel != "" then upper.consoleLevel else lower.consoleLevel,
      if upper.fileLevel != "" then upper.fileLevel else lower.fileLevel)
  }

  lemma LoggerNotEmpty(c: ContainerLogging, name: string)
    ensures LoggerLevel(c, name).Some? ==> LoggerLevel(c, name).value != ""
  {
  }

  /** Merging and then rendering is the same as rendering both and overriding point by point. */
  lemma RenderIsHomomorphic(role: ContainerLogging, group: ContainerLogging, merged: ContainerLogging,
                            r: LogConfig, g: LogConfig, m: LogConfig)
    requires LevelsMerged(role, group, merged)
    requires Renders(role, r) && Renders(group, g) && Renders(merged, m)
    ensures m == Override(r, g)
  {
    LoggerNotEmpty(group, ROOT_LOGGER_NAME);
    assert LoggerLevel(merged, ROOT_LOGGER_NAME) == Upper(LoggerLevel(role, ROOT_LOGGER_NAME), LoggerLevel(group, ROOT_LOGGER_NAME));
    var both := r.loggers + g.loggers;
    forall name
      ensures name in m.loggers <==> name in both
      ensures name in m.loggers ==> m.loggers[name] == both[name]
    {
      assert LoggerLevel(merged, name) == Upper(LoggerLevel(role, name), LoggerLevel(group, name));
    }
    assert m.loggers == both;
  }
}
