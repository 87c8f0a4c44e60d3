/** The filter of the debug logger: whether one call at a given category and
    severity produces output under the configuration read at call time. */
module Filter {
  import opened Levels

  /** The logger's configuration record: a global switch, a per-category
      switch map (a category absent from the map counts as switched off) and
      the configured minimum level, kept as the string the configuration holds. */
  datatype DebugConfig = DebugConfig(enabled: bool, modules: map<DebugModule, bool>, logLevel: string)

  /** The category's switch is present and on. */
  predicate ModuleEnabled(cfg: DebugConfig, m: DebugModule)
  {
    m in cfg.modules && cfg.modules[m]
  }

  /** The level list whose positions rank the levels. */
  const LevelOrder: seq<string> := ["debug", "info", "warn", "error"]

  /** The first position of x in xs, or -1 when x does not occur. */
  function IndexOf(xs: seq<string>, x: string): (i: int)
    ensures -1 <= i < |xs|
    ensures 0 <= i ==> xs[i] == x && forall j :: 0 <= j < i ==> xs[j] != x
    ensures i == -1 <==> x !in xs
  {
    if xs == [] then -1
    else if xs[0] == x then 0
    else
      var k := IndexOf(xs[1..], x);
      if k == -1 then -1 else k + 1
  }

  /** Whether a call at level `level` in category `category` produces output. */
  function ShouldLog(cfg: DebugConfig, category: DebugModule, level: LogLevel): (r: bool)
    ensures r ==> cfg.enabled
    ensures r ==> ModuleEnabled(cfg, category)
  {
    if !cfg.enabled then false
    else if !ModuleEnabled(cfg, category) then false
    else
      var configLevelIndex := IndexOf(LevelOrder, cfg.logLevel);
      var currentLevelIndex := IndexOf(LevelOrder, LevelName(level));
      currentLevelIndex >= configLevelIndex
  }

  /** The position of each level's name in the level list. */
  lemma LevelPositions()
    ensures IndexOf(LevelOrder, "debug") == 0
    ensures IndexOf(LevelOrder, "info") == 1
    ensures IndexOf(LevelOrder, "warn") == 2
    ensures IndexOf(LevelOrder, "error") == 3
  {
  }

  /** Comparing positions in the level list is the severity order. */
  lemma IndexOrderIsSeverityOrder(a: LogLevel, b: LogLevel)
    ensures IndexOf(LevelOrder, LevelName(a)) >= IndexOf(LevelOrder, LevelName(b)) <==> AtLeast(a, b)
  {
  }

  /** A configured string that names no level is not in the level list. */
  lemma UnknownLevelIndex(s: string)
    requires ParseLevel(s).None?
    ensures IndexOf(LevelOrder, s) == -1
  {
  }

  /** The filter's decision, in full: output happens exactly when logging is
      on, the category is on, and the level is at least the configured one;
      a configured level that names no level lets every level through. */
  lemma ShouldLogExactly(cfg: DebugConfig, category: DebugModule, level: LogLevel)
    ensures ShouldLog(cfg, category, level) <==>
      cfg.enabled && ModuleEnabled(cfg, category) &&
      match ParseLevel(cfg.logLevel)
      case None => true
      case Some(min) => AtLeast(level, min)
  {
    match ParseLevel(cfg.logLevel)
    case None =>
      UnknownLevelIndex(cfg.logLevel);
    case Some(min) =>
      IndexOrderIsSeverityOrder(level, min);
  }

  /** With logging and the category on and `warn` configured, `debug` and
      `info` are suppressed and `warn` and `error` pass. */
  lemma WarnThresholdExample(cfg: DebugConfig, category: DebugModule)
    requires cfg.enabled && ModuleEnabled(cfg, category) && cfg.logLevel == "warn"
    ensures !ShouldLog(cfg, category, Debug) && !ShouldLog(cfg, category, Info)
    ensures ShouldLog(cfg, category, Warn) && ShouldLog(cfg, category, Error)
  {
  }

  /** A configured level outside the four names lets every level through. */
  lemma UnknownLevelPassesAll(cfg: DebugConfig, category: DebugModule, level: LogLevel)
    requires cfg.enabled && ModuleEnabled(cfg, category) && ParseLevel(cfg.logLevel).None?
    ensures ShouldLog(cfg, category, level)
  {
  }

  /** A level that passes keeps passing when the level is raised. */
  lemma ShouldLogUpwardClosed(cfg: DebugConfig, category: DebugModule, level: LogLevel, higher: LogLevel)
    requires ShouldLog(cfg, category, level) && AtLeast(higher, level)
    ensures ShouldLog(cfg, category, higher)
  {
  }

  /** Switching one category off silences that category at every level and
      leaves every other category's decisions as they were. */
  lemma SwitchingOffOneModule(cfg: DebugConfig, off: DebugModule, category: DebugModule, level: LogLevel)
    ensures ShouldLog(cfg.(modules := cfg.modules[off := false]), category, level) ==
      (category != off && ShouldLog(cfg, category, level))
  {
  }
}
