/** Expo's fork of Metro's Babel transformer: how it classifies source files,
    memoises the default preset and the project Babel config, assembles the
    Babel options for one file, and drives the parse/transform calls with
    `BABEL_ENV` set around them. */
module BabelTransformer {
  import opened Js

  // ---------------------------------------------------------------------------
  // File classification
  // ---------------------------------------------------------------------------

  /** `isTypeScriptSource`: a non-empty name that ends in `.ts`. */
  predicate IsTypeScriptSource(fileName: string) {
    Truthy(fileName) && EndsWith(fileName, ".ts")
  }

  /** `isTSXSource`: a non-empty name that ends in `.tsx`. */
  predicate IsTSXSource(fileName: string) {
    Truthy(fileName) && EndsWith(fileName, ".tsx")
  }

  /** A file is a TypeScript source exactly when it is some stem followed by `.ts`;
      the `!!fileName` guard adds nothing. */
  lemma TypeScriptSourceIff(fileName: string)
    ensures IsTypeScriptSource(fileName) <==> exists stem :: fileName == stem + ".ts"
    ensures IsTypeScriptSource(fileName) <==> EndsWith(fileName, ".ts")
  {
    EndsWithIff(fileName, ".ts");
  }

  /** A file is a TSX source exactly when it is some stem followed by `.tsx`. */
  lemma TSXSourceIff(fileName: string)
    ensures IsTSXSource(fileName) <==> exists stem :: fileName == stem + ".tsx"
    ensures IsTSXSource(fileName) <==> EndsWith(fileName, ".tsx")
  {
    EndsWithIff(fileName, ".tsx");
  }

  /** No file is classified as both `.ts` and `.tsx`. */
  lemma TypeScriptKindsExclusive(fileName: string)
    ensures !(IsTypeScriptSource(fileName) && IsTSXSource(fileName))
  {
    EndsWithLast(fileName, ".ts");
    EndsWithLast(fileName, ".tsx");
  }

  // ---------------------------------------------------------------------------
  // Babel option records
  // ---------------------------------------------------------------------------

  /** A Babel plugin as an opaque token; only the inline-requires plugin is named. */
  datatype Plugin = InlineRequires | ExternalPlugin(id: string)

  /** The transform options Metro hands to the transformer (the fields this code
      reads; every other option is carried in `passThrough`). */
  datatype TransformOptions = TransformOptions(
    projectRoot: string,
    extendsBabelConfigPath: Option<string>,
    enableBabelRCLookup: Option<bool>,     // None: the option is not a boolean
    inlineRequires: bool,
    dev: bool,
    hot: bool,
    hermesParser: bool,
    experimentalImportSupport: Option<bool>,
    enableBabelRuntime: Option<bool>,
    platform: Option<string>,
    customTransformOptions: Option<map<string, string>>,
    passThrough: map<string, string>)

  /** The options object given to the default React Native preset: the transform
      options without `projectRoot`, `extendsBabelConfigPath` and
      `experimentalImportSupport`, plus `projectRoot` and the two derived flags. */
  datatype PresetOptions = PresetOptions(
    projectRoot: string,
    enableBabelRCLookup: Option<bool>,
    inlineRequires: bool,
    dev: bool,
    hot: bool,
    hermesParser: bool,
    platform: Option<string>,
    customTransformOptions: Option<map<string, string>>,
    passThrough: map<string, string>,
    disableImportExportTransform: Option<bool>,
    enableBabelRuntime: Option<bool>)

  /** A `[preset, options]` pair; the only preset used is
      `metro-react-native-babel-preset`. */
  datatype PresetEntry = ReactNativePreset(options: PresetOptions)

  /** The `caller` record handed to Babel. */
  datatype Caller = Caller(name: string, bundler: string, platform: Option<string>, environment: Option<string>)

  /** A Babel options object; `None` is a key that is absent. */
  datatype BabelOptions = BabelOptions(
    plugins: Option<seq<Plugin>>,
    extendsConfig: Option<string>,   // the `extends` key
    presets: Option<seq<PresetEntry>>,
    babelrc: Option<bool>,
    code: Option<bool>,
    cwd: Option<string>,
    filename: Option<string>,
    highlightCode: Option<bool>,
    sourceType: Option<string>,
    caller: Option<Caller>,
    ast: Option<bool>,
    cloneInputAst: Option<bool>)
  {
    /** Whether the object has key `k`. */
    predicate Has(k: Key) {
      match k
      case PluginsKey => plugins.Some?
      case ExtendsKey => extendsConfig.Some?
      case PresetsKey => presets.Some?
      case BabelrcKey => babelrc.Some?
      case CodeKey => code.Some?
      case CwdKey => cwd.Some?
      case FilenameKey => filename.Some?
      case HighlightCodeKey => highlightCode.Some?
      case SourceTypeKey => sourceType.Some?
      case CallerKey => caller.Some?
      case AstKey => ast.Some?
      case CloneInputAstKey => cloneInputAst.Some?
    }
  }

  /** The keys of a Babel options object. */
  datatype Key =
    | PluginsKey | ExtendsKey | PresetsKey | BabelrcKey | CodeKey | CwdKey | FilenameKey
    | HighlightCodeKey | SourceTypeKey | CallerKey | AstKey | CloneInputAstKey

  /** `{}` */
  const NoOptions := BabelOptions(None, None, None, None, None, None, None, None, None, None, None, None)

  /** One key of `{...a, ...b}`. */
  function Override<T>(a: Option<T>, b: Option<T>): Option<T> {
    if b.Some? then b else a
  }

  /** `{...a, ...b}`: every key of `b` replaces the same key of `a`; the
      result has the keys of both. */
  function Merge(a: BabelOptions, b: BabelOptions): (r: BabelOptions)
    ensures forall k :: r.Has(k) <==> a.Has(k) || b.Has(k)
  {
    BabelOptions(
      Override(a.plugins, b.plugins), Override(a.extendsConfig, b.extendsConfig),
      Override(a.presets, b.presets), Override(a.babelrc, b.babelrc),
      Override(a.code, b.code), Override(a.cwd, b.cwd),
      Override(a.filename, b.filename), Override(a.highlightCode, b.highlightCode),
      Override(a.sourceType, b.sourceType), Override(a.caller, b.caller),
      Override(a.ast, b.ast), Override(a.cloneInputAst, b.cloneInputAst))
  }

  /** Spreading `a` under an object that already has all of `a`'s keys changes nothing. */
  lemma MergeAbsorbs(a: BabelOptions, b: BabelOptions)
    requires forall k :: a.Has(k) ==> b.Has(k)
    ensures Merge(a, b) == b
  {
    assert a.plugins.Some? ==> b.plugins.Some? by { assert a.Has(PluginsKey) ==> b.Has(PluginsKey); }
    assert a.extendsConfig.Some? ==> b.extendsConfig.Some? by { assert a.Has(ExtendsKey) ==> b.Has(ExtendsKey); }
    assert a.presets.Some? ==> b.presets.Some? by { assert a.Has(PresetsKey) ==> b.Has(PresetsKey); }
    assert a.babelrc.Some? ==> b.babelrc.Some? by { assert a.Has(BabelrcKey) ==> b.Has(BabelrcKey); }
    assert a.code.Some? ==> b.code.Some? by { assert a.Has(CodeKey) ==> b.Has(CodeKey); }
    assert a.cwd.Some? ==> b.cwd.Some? by { assert a.Has(CwdKey) ==> b.Has(CwdKey); }
    assert a.filename.Some? ==> b.filename.Some? by { assert a.Has(FilenameKey) ==> b.Has(FilenameKey); }
    assert a.highlightCode.Some? ==> b.highlightCode.Some? by { assert a.Has(HighlightCodeKey) ==> b.Has(HighlightCodeKey); }
    assert a.sourceType.Some? ==> b.sourceType.Some? by { assert a.Has(SourceTypeKey) ==> b.Has(SourceTypeKey); }
    assert a.caller.Some? ==> b.caller.Some? by { assert a.Has(CallerKey) ==> b.Has(CallerKey); }
    assert a.ast.Some? ==> b.ast.Some? by { assert a.Has(AstKey) ==> b.Has(AstKey); }
    assert a.cloneInputAst.Some? ==> b.cloneInputAst.Some? by { assert a.Has(CloneInputAstKey) ==> b.Has(CloneInputAstKey); }
  }

  // ---------------------------------------------------------------------------
  // Memo cells
  // ---------------------------------------------------------------------------

  /** One call of a memoised lookup: a filled cell answers from the cell,
      an empty one with what the call computes (`onMiss`). */
  function MemoLookup<T>(cell: Option<T>, onMiss: T): T {
    if cell.Some? then cell.value else onMiss
  }

  /** The answers a memo cell gives to successive calls, where `onMiss[i]` is what
      call `i` would compute if the cell were empty. */
  function MemoAnswers<T>(cell: Option<T>, onMiss: seq<T>): (answers: seq<T>)
    ensures |answers| == |onMiss|
    decreases |onMiss|
  {
    if onMiss == [] then []
    else
      var answer := MemoLookup(cell, onMiss[0]);
      [answer] + MemoAnswers(Some(answer), onMiss[1..])
  }

  /** Every call answers what the first one did: the cell's value if it was
      filled, otherwise what the first call computed; later arguments never matter. */
  lemma {:induction false} MemoAnswersConstant<T>(cell: Option<T>, onMiss: seq<T>)
    requires |onMiss| > 0
    ensures forall i :: 0 <= i < |onMiss| ==>
      MemoAnswers(cell, onMiss)[i] == MemoLookup(cell, onMiss[0])
    decreases |onMiss|
  {
    var first := MemoLookup(cell, onMiss[0]);
    if |onMiss| > 1 {
      MemoAnswersConstant(Some(first), onMiss[1..]);
    }
  }

  // ---------------------------------------------------------------------------
  // The Expo preset cache
  // ---------------------------------------------------------------------------

  /** `babelPresetExpo`: `None` is `undefined` (not yet resolved), `Some(None)` is
      `null`, `Some(Some(p))` a resolved path. */
  type PresetCache = Option<Option<string>>

  /** The value the module starts with: `null`. */
  const InitialPresetCache: PresetCache := Some(None)

  /** The module name looked up by `getBabelPresetExpo`. */
  const ExpoPresetName := "babel-preset-expo"

  /** Starting from the initial `null`, the cache answers `null` to every call,
      whatever the resolver would have found for any project root. */
  lemma {:induction false} ExpoPresetNeverResolved(resolved: seq<Option<string>>)
    requires |resolved| > 0
    ensures forall i :: 0 <= i < |resolved| ==> MemoAnswers(InitialPresetCache, resolved)[i] == None
  {
    MemoAnswersConstant(InitialPresetCache, resolved);
  }

  /** `options.extendsBabelConfigPath = getBabelPresetExpo(...) ?? undefined`. */
  function WithExtendsPath(options: TransformOptions, preset: Option<string>): (r: TransformOptions)
    ensures r.extendsBabelConfigPath == preset
    ensures r.(extendsBabelConfigPath := options.extendsBabelConfigPath) == options
  {
    options.(extendsBabelConfigPath := preset)
  }

  // ---------------------------------------------------------------------------
  // The project Babel config (`getBabelRC` without its cache)
  // ---------------------------------------------------------------------------

  /** The cached `babelRC` object: always has `plugins` (empty) and `extends`
      (possibly `undefined`); `presets` only when no config file is extended. */
  datatype BabelRC = BabelRC(plugins: seq<Plugin>, extendsConfig: Option<string>, presets: Option<seq<PresetEntry>>)
  {
    /** The object as a Babel options object. */
    function AsOptions(): BabelOptions {
      NoOptions.(plugins := Some(plugins), extendsConfig := extendsConfig, presets := presets)
    }
  }

  /** The config file names looked for in the project root, in order of precedence. */
  const ConfigFileNames: seq<string> := [".babelrc", ".babelrc.js", "babel.config.js"]

  /** The first path of `paths` that exists. */
  function FirstExisting(paths: seq<string>, existing: set<string>): (r: Option<string>)
    ensures r.None? <==> forall i :: 0 <= i < |paths| ==> paths[i] !in existing
    ensures r.Some? ==> exists k :: 0 <= k < |paths| && paths[k] == r.value && r.value in existing &&
                                   forall j :: 0 <= j < k ==> paths[j] !in existing
  {
    if paths == [] then None
    else if paths[0] in existing then Some(paths[0])
    else
      var r := FirstExisting(paths[1..], existing);
      assert forall i :: 1 <= i < |paths| ==> paths[i] == paths[1..][i - 1];
      if r.Some? then
        var k :| 0 <= k < |paths[1..]| && paths[1..][k] == r.value && r.value in existing &&
                 forall j :: 0 <= j < k ==> paths[1..][j] !in existing;
        assert paths[k + 1] == r.value;
        r
      else
        r
  }

  /** The config file found in the project root: nothing when the root is empty
      (or resolves to an empty path), otherwise the first existing one of
      `.babelrc`, `.babelrc.js`, `babel.config.js`. */
  function ProjectConfigFile(projectRoot: string, existing: set<string>, resolve: (string, string) -> string): (r: Option<string>)
    ensures r.Some? ==> Truthy(projectRoot) && r.value in existing
    ensures r.Some? ==> exists k :: 0 <= k < |ConfigFileNames| && r.value == resolve(projectRoot, ConfigFileNames[k]) &&
                                   forall j :: 0 <= j < k ==> resolve(projectRoot, ConfigFileNames[j]) !in existing
    ensures r.None? && Truthy(projectRoot) && Truthy(resolve(projectRoot, ".babelrc")) ==>
              forall k :: 0 <= k < |ConfigFileNames| ==> resolve(projectRoot, ConfigFileNames[k]) !in existing
  {
    if !Truthy(projectRoot) || !Truthy(resolve(projectRoot, ".babelrc")) then None
    else
      var candidates := [resolve(projectRoot, ConfigFileNames[0]),
                         resolve(projectRoot, ConfigFileNames[1]),
                         resolve(projectRoot, ConfigFileNames[2])];
      assert forall k :: 0 <= k < |ConfigFileNames| ==> candidates[k] == resolve(projectRoot, ConfigFileNames[k]);
      FirstExisting(candidates, existing)
  }

  /** The options given to the default preset. */
  function DefaultPresetOptions(options: TransformOptions): PresetOptions {
    PresetOptions(
      projectRoot := options.projectRoot,
      enableBabelRCLookup := options.enableBabelRCLookup,
      inlineRequires := options.inlineRequires,
      dev := options.dev,
      hot := options.hot,
      hermesParser := options.hermesParser,
      platform := options.platform,
      customTransformOptions := options.customTransformOptions,
      passThrough := options.passThrough,
      disableImportExportTransform := options.experimentalImportSupport,
      enableBabelRuntime := options.enableBabelRuntime)
  }

  /** The transform options recovered from the preset's options: the preset sees
      every option except `extendsBabelConfigPath`, with
      `experimentalImportSupport` renamed `disableImportExportTransform`. */
  function TransformOptionsOf(preset: PresetOptions, extendsBabelConfigPath: Option<string>): TransformOptions {
    TransformOptions(
      projectRoot := preset.projectRoot,
      extendsBabelConfigPath := extendsBabelConfigPath,
      enableBabelRCLookup := preset.enableBabelRCLookup,
      inlineRequires := preset.inlineRequires,
      dev := preset.dev,
      hot := preset.hot,
      hermesParser := preset.hermesParser,
      experimentalImportSupport := preset.disableImportExportTransform,
      enableBabelRuntime := preset.enableBabelRuntime,
      platform := preset.platform,
      customTransformOptions := preset.customTransformOptions,
      passThrough := preset.passThrough)
  }

  /** Nothing but `extendsBabelConfigPath` is lost on the way to the preset. */
  lemma PresetOptionsLoseOnlyExtends(options: TransformOptions)
    ensures TransformOptionsOf(DefaultPresetOptions(options), options.extendsBabelConfigPath) == options
    ensures DefaultPresetOptions(options).disableImportExportTransform == options.experimentalImportSupport
    ensures DefaultPresetOptions(options).enableBabelRuntime == options.enableBabelRuntime
  {
  }

  /** What `getBabelRC` builds on its first call. */
  function DefaultBabelRC(options: TransformOptions, existing: set<string>, resolve: (string, string) -> string): (rc: BabelRC)
    ensures rc.plugins == []
    ensures TruthyOpt(options.extendsBabelConfigPath) ==>
              rc.extendsConfig == options.extendsBabelConfigPath && rc.presets == None
    ensures !TruthyOpt(options.extendsBabelConfigPath) ==>
              rc.extendsConfig == (match ProjectConfigFile(options.projectRoot, existing, resolve)
                                   case Some(p) => Some(p)
                                   case None => options.extendsBabelConfigPath)
    ensures rc.presets.Some? <==> !TruthyOpt(rc.extendsConfig)
    ensures rc.presets.Some? ==> rc.presets.value == [ReactNativePreset(DefaultPresetOptions(options))]
  {
    var initial := BabelRC([], options.extendsBabelConfigPath, None);
    if TruthyOpt(options.extendsBabelConfigPath) then initial
    else
      var found := ProjectConfigFile(options.projectRoot, existing, resolve);
      var withExtends := if found.Some? then initial.(extendsConfig := found) else initial;
      if TruthyOpt(withExtends.extendsConfig) then withExtends
      else withExtends.(presets := Some([ReactNativePreset(DefaultPresetOptions(options))]))
  }

  /** With `extendsBabelConfigPath` unset, as the initial preset cache leaves it,
      the cached config extends the project's own config file if there is one
      and otherwise uses the default React Native preset. */
  lemma ProjectConfigOrDefaultPreset(options: TransformOptions, existing: set<string>, resolve: (string, string) -> string)
    requires options.extendsBabelConfigPath == None
    ensures var rc := DefaultBabelRC(options, existing, resolve);
            var found := ProjectConfigFile(options.projectRoot, existing, resolve);
            && rc.extendsConfig == found
            && (rc.presets.Some? <==> !TruthyOpt(found))
  {
  }

  // ---------------------------------------------------------------------------
  // Config assembly (`buildBabelConfig` without the `getBabelRC` call)
  // ---------------------------------------------------------------------------

  /** The object `makeHMRConfig()` returns; only its plugins matter here. */
  datatype HmrConfig = HmrConfig(plugins: seq<Plugin>)

  /** `babelrc`: the `enableBabelRCLookup` option when it is a boolean, else `true`. */
  function BabelRCLookup(options: TransformOptions): bool {
    if options.enableBabelRCLookup.Some? then options.enableBabelRCLookup.value else true
  }

  /** Hot-reload plugins are added for a development, hot-reloading build of a
      file outside `node_modules`. */
  predicate HotReloadApplies(fileName: string, options: TransformOptions) {
    options.dev && options.hot && !Includes(fileName, "node_modules")
  }

  /** The config `buildBabelConfig` returns for the cached `rc`: `rc` spread under
      the per-file fields, its plugins prefixed by inline-requires and followed
      by the call's plugins, then the hot-reload plugins when they apply, and
      finally `rc` spread under the whole again. */
  function BuiltConfig(rc: BabelRC, fileName: string, options: TransformOptions, plugins: seq<Plugin>, hmr: HmrConfig): (config: BabelOptions)
    ensures config.babelrc == Some(BabelRCLookup(options))
    ensures config.code == Some(false)
    ensures config.cwd == Some(options.projectRoot)
    ensures config.filename == Some(fileName)
    ensures config.highlightCode == Some(true)
    ensures config.extendsConfig == rc.extendsConfig && config.presets == rc.presets
    ensures config.plugins == Some((if options.inlineRequires then [InlineRequires] else []) + rc.plugins + plugins +
                                   (if HotReloadApplies(fileName, options) then hmr.plugins else []))
    ensures config.sourceType == None && config.caller == None && config.ast == None && config.cloneInputAst == None
  {
    var extraConfig := NoOptions.(
      babelrc := Some(BabelRCLookup(options)),
      code := Some(false),
      cwd := Some(options.projectRoot),
      filename := Some(fileName),
      highlightCode := Some(true));
    var config := Merge(rc.AsOptions(), extraConfig);
    var extraPlugins := if options.inlineRequires then [InlineRequires] else [];
    var withExtraPlugins := extraPlugins + config.plugins.value + plugins;
    var config := config.(plugins := Some(withExtraPlugins));
    var config :=
      if options.dev && options.hot && !Includes(fileName, "node_modules") then
        var hmrConfig := hmr.(plugins := withExtraPlugins + hmr.plugins);
        assert hmrConfig.plugins == extraPlugins + rc.plugins + plugins + hmr.plugins;
        Merge(config, NoOptions.(plugins := Some(hmrConfig.plugins)))
      else
        assert withExtraPlugins == extraPlugins + rc.plugins + plugins + [];
        config;
    Merge(rc.AsOptions(), config)
  }

  /** The final `{...babelRC, ...config}` spread in `buildBabelConfig` is a no-op:
      the config already has every key of the cached object. */
  lemma FinalSpreadIsNoOp(rc: BabelRC, fileName: string, options: TransformOptions, plugins: seq<Plugin>, hmr: HmrConfig)
    ensures Merge(rc.AsOptions(), BuiltConfig(rc, fileName, options, plugins, hmr)) == BuiltConfig(rc, fileName, options, plugins, hmr)
  {
    MergeAbsorbs(rc.AsOptions(), BuiltConfig(rc, fileName, options, plugins, hmr));
  }

  // ---------------------------------------------------------------------------
  // `transform`: BABEL_ENV, the final config, the parser and the result
  // ---------------------------------------------------------------------------

  /** `BABEL_ENV` while the transform runs: `development` for a dev build,
      otherwise the previous value when set, else `production`. */
  function EnvDuring(previous: Option<string>, dev: bool): (env: Option<string>)
    ensures TruthyOpt(env)
    ensures dev ==> env == Some("development")
    ensures !dev && TruthyOpt(previous) ==> env == previous
    ensures !dev && !TruthyOpt(previous) ==> env == Some("production")
  {
    if dev then Some("development")
    else if TruthyOpt(previous) then previous
    else Some("production")
  }

  /** `BABEL_ENV` after the transform, however it exits: the previous value if it
      was non-empty, otherwise the value set for the call stays. */
  function EnvAfter(previous: Option<string>, dev: bool): Option<string> {
    if TruthyOpt(previous) then previous else EnvDuring(previous, dev)
  }

  /** A non-empty `BABEL_ENV` is restored; an unset or empty one is left at the
      value chosen for the call, so the variable is always set afterwards. */
  lemma EnvRestoredOnlyWhenSet(previous: Option<string>, dev: bool)
    ensures TruthyOpt(previous) ==> EnvAfter(previous, dev) == previous
    ensures !TruthyOpt(previous) ==> EnvAfter(previous, dev) == EnvDuring(previous, dev)
    ensures TruthyOpt(EnvAfter(previous, dev))
  {
  }

  /** `BABEL_ENV` after a run of transforms with the given `dev` flags. */
  function EnvAfterRun(env: Option<string>, devs: seq<bool>): Option<string>
    decreases |devs|
  {
    if devs == [] then env else EnvAfterRun(EnvAfter(env, devs[0]), devs[1..])
  }

  /** After a run of transforms `BABEL_ENV` holds what it held after the first:
      once the first call has set it, every later call restores it. */
  lemma {:induction false} EnvFixedByFirstCall(env: Option<string>, devs: seq<bool>)
    requires |devs| > 0
    ensures EnvAfterRun(env, devs) == EnvAfter(env, devs[0])
    decreases |devs|
  {
    var first := EnvAfter(env, devs[0]);
    if |devs| > 1 {
      EnvFixedByFirstCall(first, devs[1..]);
      assert EnvAfter(first, devs[1]) == first;
    }
  }

  /** A consequence: starting unset, a development transform makes every later
      production transform run with `BABEL_ENV=development`. */
  lemma DevelopmentEnvPersists(devs: seq<bool>)
    requires |devs| > 1 && devs[0]
    ensures EnvDuring(EnvAfterRun(None, devs[..|devs| - 1]), devs[|devs| - 1]) ==
            Some("development")
  {
    EnvFixedByFirstCall(None, devs[..|devs| - 1]);
  }

  /** `caller` as the transformer reports itself to Babel. */
  function MetroCaller(options: TransformOptions): Caller {
    Caller("metro", "metro", options.platform,
           if options.customTransformOptions.Some? && "environment" in options.customTransformOptions.value
           then Some(options.customTransformOptions.value["environment"]) else None)
  }

  /** The options passed to Babel: `sourceType` defaults to `unambiguous`, the
      built config comes next, and `caller`, `ast` and `cloneInputAst` are forced. */
  function FinalConfig(built: BabelOptions, options: TransformOptions): (config: BabelOptions)
    ensures config.sourceType == (if built.sourceType.Some? then built.sourceType else Some("unambiguous"))
    ensures config.caller == Some(MetroCaller(options)) && config.caller.value.name == "metro" && config.caller.value.bundler == "metro"
    ensures config.ast == Some(true) && config.cloneInputAst == Some(false)
    ensures config.(sourceType := built.sourceType, caller := built.caller, ast := built.ast, cloneInputAst := built.cloneInputAst) == built
  {
    Merge(Merge(NoOptions.(sourceType := Some("unambiguous")), built),
          NoOptions.(caller := Some(MetroCaller(options)), ast := Some(true), cloneInputAst := Some(false)))
  }

  /** Every file is parsed as `unambiguous`: nothing in the built config sets a
      source type. */
  lemma SourceTypeAlwaysUnambiguous(rc: BabelRC, fileName: string, options: TransformOptions, plugins: seq<Plugin>, hmr: HmrConfig)
    ensures FinalConfig(BuiltConfig(rc, fileName, options, plugins, hmr), options).sourceType == Some("unambiguous")
  {
  }

  /** The two parsers. */
  datatype Parser = BabelParser | HermesParser

  /** Babel parses TypeScript and TSX sources and everything when the Hermes
      parser is off; Hermes parses the rest. */
  function ParserFor(fileName: string, hermesParser: bool): (p: Parser)
    ensures p == HermesParser <==> hermesParser && !EndsWith(fileName, ".ts") && !EndsWith(fileName, ".tsx")
  {
    TypeScriptSourceIff(fileName);
    TSXSourceIff(fileName);
    if IsTypeScriptSource(fileName) || IsTSXSource(fileName) || !hermesParser then BabelParser else HermesParser
  }

  /** A syntax tree or transform metadata, as an opaque token. */
  datatype Ast = Ast(id: nat)
  datatype Metadata = Metadata(id: nat)

  /** What a foreign call throws. */
  datatype Failure = Thrown(message: string) | UnexpectedNull

  /** The options `hermes-parser` is called with. */
  datatype HermesOptions = HermesOptions(babel: bool, sourceType: Option<string>)

  /** The non-null value `transformFromAstSync` returns. */
  datatype BabelResult = BabelResult(ast: Option<Ast>, metadata: Metadata)

  /** What `transform` returns: `{ast, metadata}`, or `{ast: null}` for an ignored file. */
  datatype TransformOutput = TransformOutput(ast: Option<Ast>, metadata: Option<Metadata>)

  /** The foreign code the transformer calls. The parsers and the transformer
      are given the `BABEL_ENV` value in force when they are called. */
  datatype Library = Library(
    resolvePath: (string, string) -> string,                  // path.resolve(root, name)
    resolvePackage: (string, string) -> Option<string>,       // resolveFrom.silent(root, name)
    hmrConfig: HmrConfig,                                     // makeHMRConfig()
    babelParse: (string, BabelOptions, Option<string>) -> Result<Ast, Failure>,
    hermesParse: (string, HermesOptions, Option<string>) -> Result<Ast, Failure>,
    transformFromAst: (Ast, string, BabelOptions, Option<string>) -> Result<Option<BabelResult>, Failure>)

  /** The parse and transform steps of `transform` for the final config. */
  function RunTransform(lib: Library, fileName: string, src: string, config: BabelOptions, hermesParser: bool, env: Option<string>): (r: Result<TransformOutput, Failure>)
    ensures r.Success? ==> (r.value.ast.None? <==> r.value.metadata.None?)
  {
    var parsed :=
      match ParserFor(fileName, hermesParser)
      case BabelParser => lib.babelParse(src, config, env)
      case HermesParser => lib.hermesParse(src, HermesOptions(true, config.sourceType), env);
    if parsed.Failure? then Failure(parsed.error)
    else
      match lib.transformFromAst(parsed.value, src, config, env)
      case Failure(e) => Failure(e)
      case Success(None) => Success(TransformOutput(None, None))
      case Success(Some(result)) =>
        if result.ast.None? then Failure(UnexpectedNull)
        else Success(TransformOutput(result.ast, Some(result.metadata)))
  }

  /** The outcomes of `transform`: errors of the parser and of the transformer
      propagate unchanged, a null transform result is `{ast: null}`, a result
      whose tree is null throws (`nullthrows`), and any other result keeps its
      tree and metadata. */
  lemma RunTransformOutcomes(lib: Library, fileName: string, src: string, config: BabelOptions, hermesParser: bool, env: Option<string>)
    ensures var parsed := match ParserFor(fileName, hermesParser)
                          case BabelParser => lib.babelParse(src, config, env)
                          case HermesParser => lib.hermesParse(src, HermesOptions(true, config.sourceType), env);
            var r := RunTransform(lib, fileName, src, config, hermesParser, env);
            && (parsed.Failure? ==> r == Failure(parsed.error))
            && (parsed.Success? ==>
                  var t := lib.transformFromAst(parsed.value, src, config, env);
                  && (t.Failure? ==> r == Failure(t.error))
                  && (t == Success(None) ==> r == Success(TransformOutput(None, None)))
                  && (t.Success? && t.value.Some? && t.value.value.ast.None? ==> r == Failure(UnexpectedNull))
                  && (t.Success? && t.value.Some? && t.value.value.ast.Some? ==>
                        r == Success(TransformOutput(t.value.value.ast, Some(t.value.value.metadata)))))
  {
  }

  // ---------------------------------------------------------------------------
  // The transformer and its process-wide state
  // ---------------------------------------------------------------------------

  /** The transformer module as loaded in one process: its two caches, the
      `BABEL_ENV` environment variable, the files on disk and the foreign code. */
  class Transformer {
    /** `babelPresetExpo`, the module-level cache. */
    var babelPresetExpo: PresetCache
    /** `babelRC`, the cache in `getBabelRC`'s closure; `None` is `null`. */
    var babelRC: Option<BabelRC>
    /** `process.env.BABEL_ENV`; `None` when unset. */
    var babelEnv: Option<string>
    /** How many times `resolveFrom.silent` has been called. */
    ghost var presetResolutions: nat
    /** The paths `fs.existsSync` reports as existing. */
    const existingPaths: set<string>
    const lib: Library

    /** The state when the module is first loaded. */
    constructor (existingPaths: set<string>, lib: Library, babelEnv: Option<string>)
      ensures babelPresetExpo == InitialPresetCache && babelRC == None && presetResolutions == 0
      ensures this.babelEnv == babelEnv && this.existingPaths == existingPaths && this.lib == lib
    {
      babelPresetExpo := InitialPresetCache;
      babelRC := None;
      this.babelEnv := babelEnv;
      presetResolutions := 0;
      this.existingPaths := existingPaths;
      this.lib := lib;
    }

    /** `getBabelPresetExpo`: answers from the cache unless it is `undefined`,
        in which case it resolves `babel-preset-expo` once and caches the answer. */
    method GetBabelPresetExpo(projectRoot: string) returns (preset: Option<string>)
      modifies this`babelPresetExpo, this`presetResolutions
      ensures preset == MemoLookup(old(babelPresetExpo), lib.resolvePackage(projectRoot, ExpoPresetName))
      ensures babelPresetExpo == Some(preset)
      ensures presetResolutions == old(presetResolutions) + (if old(babelPresetExpo).None? then 1 else 0)
    {
      if babelPresetExpo.Some? {
        return babelPresetExpo.value;
      }
      presetResolutions := presetResolutions + 1;
      preset := lib.resolvePackage(projectRoot, ExpoPresetName);
      babelPresetExpo := Some(preset);
    }

    /** `getBabelRC`: the cached object once there is one, whatever the options;
        on the first call, the object built from these options. */
    method GetBabelRC(options: TransformOptions) returns (rc: BabelRC)
      modifies this`babelRC
      ensures rc == MemoLookup(old(babelRC), DefaultBabelRC(options, existingPaths, lib.resolvePath))
      ensures babelRC == Some(rc)
    {
      if babelRC.Some? {
        return babelRC.value;
      }
      rc := BabelRC([], options.extendsBabelConfigPath, None);
      if TruthyOpt(options.extendsBabelConfigPath) {
        babelRC := Some(rc);
        return;
      }
      var projectRoot := options.projectRoot;
      var projectBabelRCPath: Option<string> := None;
      if Truthy(projectRoot) {
        projectBabelRCPath := Some(lib.resolvePath(projectRoot, ".babelrc"));
      }
      if TruthyOpt(projectBabelRCPath) {
        if projectBabelRCPath.value !in existingPaths {
          projectBabelRCPath := Some(lib.resolvePath(projectRoot, ".babelrc.js"));
        }
        if projectBabelRCPath.value !in existingPaths {
          projectBabelRCPath := Some(lib.resolvePath(projectRoot, "babel.config.js"));
        }
        if projectBabelRCPath.value in existingPaths {
          rc := rc.(extendsConfig := projectBabelRCPath);
        }
      }
      if !TruthyOpt(rc.extendsConfig) {
        rc := rc.(presets := Some([ReactNativePreset(DefaultPresetOptions(options))]));
      }
      babelRC := Some(rc);
    }

    /** `buildBabelConfig`; `plugins` defaults to `[]`. */
    method BuildBabelConfig(fileName: string, options: TransformOptions, plugins: Option<seq<Plugin>>) returns (config: BabelOptions)
      modifies this`babelRC
      ensures babelRC == Some(MemoLookup(old(babelRC), DefaultBabelRC(options, existingPaths, lib.resolvePath)))
      ensures config == BuiltConfig(babelRC.value, fileName, options, plugins.GetOr([]), lib.hmrConfig)
    {
      var rc := GetBabelRC(options);
      config := BuiltConfig(rc, fileName, options, plugins.GetOr([]), lib.hmrConfig);
    }

    /** `transform`: sets `BABEL_ENV` for the call, points
        `extendsBabelConfigPath` at the Expo preset, builds the config, parses
        with Babel or Hermes, transforms, and restores a previously non-empty
        `BABEL_ENV` on every exit. */
    method Transform(fileName: string, options: TransformOptions, src: string, plugins: Option<seq<Plugin>>)
      returns (out: Result<TransformOutput, Failure>)
      modifies this`babelPresetExpo, this`presetResolutions, this`babelRC, this`babelEnv
      ensures babelEnv == EnvAfter(old(babelEnv), options.dev)
      ensures var preset := MemoLookup(old(babelPresetExpo), lib.resolvePackage(options.projectRoot, ExpoPresetName));
              var callOptions := WithExtendsPath(options, preset);
              && babelPresetExpo == Some(preset)
              && babelRC == Some(MemoLookup(old(babelRC), DefaultBabelRC(callOptions, existingPaths, lib.resolvePath)))
              && out == RunTransform(lib, fileName, src,
                                     FinalConfig(BuiltConfig(babelRC.value, fileName, callOptions, plugins.GetOr([]), lib.hmrConfig), options),
                                     options.hermesParser, EnvDuring(old(babelEnv), options.dev))
      ensures presetResolutions == old(presetResolutions) + (if old(babelPresetExpo).None? then 1 else 0)
    {
      var oldBabelEnv := babelEnv;
      babelEnv := if options.dev then Some("development") else if TruthyOpt(babelEnv) then babelEnv else Some("production");

      var preset := GetBabelPresetExpo(options.projectRoot);
      var callOptions := WithExtendsPath(options, preset);

      // try
      var built := BuildBabelConfig(fileName, callOptions, plugins);
      var babelConfig := FinalConfig(built, options);
      var sourceAst: Result<Ast, Failure>;
      if IsTypeScriptSource(fileName) || IsTSXSource(fileName) || !options.hermesParser {
        sourceAst := lib.babelParse(src, babelConfig, babelEnv);
      } else {
        sourceAst := lib.hermesParse(src, HermesOptions(true, babelConfig.sourceType), babelEnv);
      }
      if sourceAst.Failure? {
        out := Failure(sourceAst.error);
      } else {
        var result := lib.transformFromAst(sourceAst.value, src, babelConfig, babelEnv);
        if result.Failure? {
          out := Failure(result.error);
        } else if result.value.None? {
          out := Success(TransformOutput(None, None));
        } else if result.value.value.ast.None? {
          out := Failure(UnexpectedNull);
        } else {
          out := Success(TransformOutput(result.value.value.ast, Some(result.value.value.metadata)));
        }
      }
      // finally
      if TruthyOpt(oldBabelEnv) {
        babelEnv := oldBabelEnv;
      }
    }
  }

  /** A run of transforms in a freshly loaded process. The config cache hands
      out what a memo cell does over the run: every call gets the config built
      from the first call's options, with no `extends` path from the Expo
      preset. The preset is never resolved, and `BABEL_ENV` ends as the first
      call left it. */
  method TransformsInFreshProcess(existingPaths: set<string>, lib: Library, babelEnv: Option<string>,
                                  fileNames: seq<string>, options: seq<TransformOptions>, src: string)
    returns (configs: seq<BabelRC>, envAfter: Option<string>)
    requires |fileNames| == |options| > 0
    ensures configs == MemoAnswers(None, seq(|options|, i requires 0 <= i < |options| =>
                                             DefaultBabelRC(WithExtendsPath(options[i], None), existingPaths, lib.resolvePath)))
    ensures forall i :: 0 <= i < |configs| ==>
              configs[i] == DefaultBabelRC(WithExtendsPath(options[0], None), existingPaths, lib.resolvePath)
    ensures envAfter == EnvAfterRun(babelEnv, seq(|options|, i requires 0 <= i < |options| => options[i].dev))
    ensures envAfter == EnvAfter(babelEnv, options[0].dev)
  {
    var first := DefaultBabelRC(WithExtendsPath(options[0], None), existingPaths, lib.resolvePath);
    var t := new Transformer(existingPaths, lib, babelEnv);
    configs := [];
    var i := 0;
    while i < |options|
      invariant 0 <= i <= |options| && |configs| == i
      invariant t.existingPaths == existingPaths && t.lib == lib
      invariant t.babelPresetExpo == InitialPresetCache && t.presetResolutions == 0
      invariant i == 0 ==> t.babelRC == None && t.babelEnv == babelEnv
      invariant i > 0 ==> t.babelRC == Some(first) && t.babelEnv == EnvAfter(babelEnv, options[0].dev)
      invariant forall j :: 0 <= j < i ==> configs[j] == first
    {
      EnvRestoredOnlyWhenSet(t.babelEnv, options[i].dev);
      var _ := t.Transform(fileNames[i], options[i], src, None);
      configs := configs + [t.babelRC.value];
      i := i + 1;
    }
    envAfter := t.babelEnv;
    var onMiss := seq(|options|, i requires 0 <= i < |options| =>
                        DefaultBabelRC(WithExtendsPath(options[i], None), existingPaths, lib.resolvePath));
    MemoAnswersConstant(None, onMiss);
    EnvFixedByFirstCall(babelEnv, seq(|options|, i requires 0 <= i < |options| => options[i].dev));
  }
}
