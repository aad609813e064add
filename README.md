# Expo's Metro Babel transformer, modelled in Dafny

This project models the configuration-selection core of Expo's fork of Metro's
Babel transformer (`packages/@expo/metro-config/src/babel-transformer.ts`). That
code does five things:

- It classifies a file as a TypeScript (`.ts`) or TSX (`.tsx`) source.
- It memoises the lookup of `babel-preset-expo` in a module-level cache.
- It memoises, in a closure cache, the project's Babel config. That is either an
  explicit `extendsBabelConfigPath`, or the first existing file among `.babelrc`,
  `.babelrc.js` and `babel.config.js` in the project root, or else the default
  React Native preset with options derived from the transform options.
- It assembles the Babel options for one file. The cached config is spread under
  per-file fields, and the plugin list is built in a fixed order. Hot-reload
  plugins are added for dev + hot builds of files whose name does not contain
  the substring `node_modules`.
- It drives one transform. It sets `BABEL_ENV` for the call; on every exit it
  restores a non-empty previous value, and otherwise the value set for the call
  stays. It overlays `sourceType`, `caller`, `ast` and `cloneInputAst`,
  parses with Babel or Hermes, transforms, and maps a null result to `{ast: null}`.

Files:

- `js.dfy` (module `Js`): the JavaScript built-ins the code relies on.
  - `undefined`/`null` as `Option`, a throw as `Result.Failure`.
  - String truthiness.
  - `endsWith` and `includes`, with their characterisations (`EndsWithIff`,
    `Includes`).
- `babel_transformer.dfy` (module `BabelTransformer`): the core.
  - Babel option objects are one record with optional fields. JS object spread
    `{...a, ...b}` is `Merge`.
  - The memo caches are `Option` cells, whose behaviour over any run of calls is
    `MemoAnswers`.
  - The pure specifications are `DefaultBabelRC`, `BuiltConfig`, `FinalConfig`,
    `EnvDuring`/`EnvAfter`, `ParserFor` and `RunTransform`.
  - The class `Transformer` holds the process-wide state: the two caches,
    `BABEL_ENV`, the existing files and the foreign code. Its methods
    (`GetBabelPresetExpo`, `GetBabelRC`, `BuildBabelConfig`, `Transform`) are
    written imperatively, as the source is. Each is proved against those
    specifications.

Behaviour worth knowing, all proved (the environment facts on the assumption,
stated under "## Left out", that the foreign calls do not write `BABEL_ENV`):

- The preset cache starts at `null`, not `undefined`. The guard therefore
  answers from the cache on every call: `babel-preset-expo` is never resolved,
  and `transform` always sets `extendsBabelConfigPath` to `undefined`
  (`ExpoPresetNeverResolved`, `TransformsInFreshProcess`). So the preset
  lookup, though written as a memoised resolution, never resolves anything.
- `BABEL_ENV` is restored only if it was set to a non-empty value before the
  call. Otherwise the value chosen for the first call stays, and every later call
  runs with it (`EnvFixedByFirstCall`). For example, after a development build in
  a process that started without `BABEL_ENV`, later production builds run with
  `BABEL_ENV=development` (`DevelopmentEnvPersists`). The `try/finally` reads
  as if it always restored the variable; it does not, and this model follows
  the code.
- The getBabelRC cache is filled by the first call. Every later call returns it
  whatever options are passed (`Transformer.GetBabelRC`, `MemoAnswersConstant`).

The foreign code sits in a `Library` value: `path.resolve`,
`resolveFrom.silent`, `makeHMRConfig`, `parseSync`, the Hermes parser and
`transformFromAstSync`. The parsers and the transformer receive the `BABEL_ENV`
value in force when they are called. `fs.existsSync` is membership in the set
`existingPaths`.

## Model

| member | source | states |
|---|---|---|
| `Js.EndsWithIff` | packages/@expo/metro-config/src/babel-transformer.ts:28 | `endsWith(suffix)` holds iff the string is some stem followed by the suffix |
| `Js.Includes` | packages/@expo/metro-config/src/babel-transformer.ts:165 | `includes(sub)` holds iff `sub` occurs at some index of the string |
| `BabelTransformer.TypeScriptSourceIff` | packages/@expo/metro-config/src/babel-transformer.ts:27-29 | a file is a TypeScript source iff it is a stem followed by `.ts`; the non-empty guard is redundant |
| `BabelTransformer.TSXSourceIff` | packages/@expo/metro-config/src/babel-transformer.ts:31-33 | a file is a TSX source iff it is a stem followed by `.tsx`; the non-empty guard is redundant |
| `BabelTransformer.TypeScriptKindsExclusive` | packages/@expo/metro-config/src/babel-transformer.ts:27-33 | no file is both a `.ts` and a `.tsx` source |
| `BabelTransformer.Merge` | packages/@expo/metro-config/src/babel-transformer.ts:145-148 | object spread: the result has exactly the keys of both objects |
| `BabelTransformer.MergeAbsorbs` | packages/@expo/metro-config/src/babel-transformer.ts:174-177 | spreading an object under one that already has all its keys changes nothing |
| `BabelTransformer.MemoAnswersConstant` | packages/@expo/metro-config/src/babel-transformer.ts:51-63 | over any run of calls, a memo cell answers every call as it answered the first; later arguments never matter |
| `BabelTransformer.ExpoPresetNeverResolved` | packages/@expo/metro-config/src/babel-transformer.ts:35-44 | from the initial `null`, every call of the preset lookup answers `null`, whatever the resolver would find |
| `BabelTransformer.WithExtendsPath` | packages/@expo/metro-config/src/babel-transformer.ts:190 | only `extendsBabelConfigPath` of the options changes, to the preset lookup's answer |
| `BabelTransformer.FirstExisting` | packages/@expo/metro-config/src/babel-transformer.ts:77-98 | the answer is the earliest existing candidate; there is no answer iff no candidate exists |
| `BabelTransformer.ProjectConfigFile` | packages/@expo/metro-config/src/babel-transformer.ts:74-99 | a found config file exists and is the first existing of `.babelrc`, `.babelrc.js`, `babel.config.js`; none is found for an empty root, and otherwise only when none exists |
| `BabelTransformer.PresetOptionsLoseOnlyExtends` | packages/@expo/metro-config/src/babel-transformer.ts:106-117 | the preset options keep every transform option except `extendsBabelConfigPath`; `disableImportExportTransform` is `experimentalImportSupport`, `enableBabelRuntime` is copied |
| `BabelTransformer.DefaultBabelRC` | packages/@expo/metro-config/src/babel-transformer.ts:65-120 | empty plugins; a truthy `extendsBabelConfigPath` is the `extends` with no presets; otherwise `extends` is the found project config file or stays the falsy input; presets are set iff `extends` is falsy, and are then the single default preset entry |
| `BabelTransformer.ProjectConfigOrDefaultPreset` | packages/@expo/metro-config/src/babel-transformer.ts:65-120 | with `extendsBabelConfigPath` unset, `extends` is the project config file found, and the default preset is used iff none was found |
| `BabelTransformer.BuiltConfig` | packages/@expo/metro-config/src/babel-transformer.ts:130-178 | `babelrc` is `enableBabelRCLookup` when boolean, else `true`; `code=false`, `cwd=projectRoot`, `filename`, `highlightCode=true`; `extends` and `presets` come from the cached config; plugins are inline-requires (if enabled), then the cached plugins, then the call's plugins, then the HMR plugins iff dev and hot and the name has no `node_modules`; no other key is set |
| `BabelTransformer.FinalSpreadIsNoOp` | packages/@expo/metro-config/src/babel-transformer.ts:174-177 | the closing `{...babelRC, ...config}` equals `config` |
| `BabelTransformer.EnvDuring` | packages/@expo/metro-config/src/babel-transformer.ts:186-187 | during the call `BABEL_ENV` is set: `development` for dev, else the previous value if truthy, else `production` |
| `BabelTransformer.EnvRestoredOnlyWhenSet` | packages/@expo/metro-config/src/babel-transformer.ts:232-236 | a truthy previous `BABEL_ENV` is restored; otherwise the value set for the call remains; either way it is set afterwards |
| `BabelTransformer.EnvFixedByFirstCall` | packages/@expo/metro-config/src/babel-transformer.ts:186-236 | after any run of transforms `BABEL_ENV` holds what the first call left |
| `BabelTransformer.DevelopmentEnvPersists` | packages/@expo/metro-config/src/babel-transformer.ts:186-236 | from an unset `BABEL_ENV`, after a first dev transform every later transform runs with `development` |
| `BabelTransformer.FinalConfig` | packages/@expo/metro-config/src/babel-transformer.ts:193-213 | `sourceType` defaults to `unambiguous` unless the built config has one; `caller` is metro/metro with the platform and environment; `ast=true`, `cloneInputAst=false`; every other key is the built config's |
| `BabelTransformer.SourceTypeAlwaysUnambiguous` | packages/@expo/metro-config/src/babel-transformer.ts:193-196 | the built config never sets `sourceType`, so every file is parsed as `unambiguous` |
| `BabelTransformer.ParserFor` | packages/@expo/metro-config/src/babel-transformer.ts:214-220 | Hermes is used iff the Hermes parser is on and the file ends in neither `.ts` nor `.tsx`; Babel otherwise |
| `BabelTransformer.RunTransform` | packages/@expo/metro-config/src/babel-transformer.ts:214-231 | a successful output has a tree iff it has metadata |
| `BabelTransformer.RunTransformOutcomes` | packages/@expo/metro-config/src/babel-transformer.ts:222-231 | parser and transformer errors propagate unchanged; a null transform result gives `{ast: null}`; a non-null result with a null tree throws (`nullthrows`); otherwise the tree and metadata are returned |
| `BabelTransformer.Transformer.constructor` | packages/@expo/metro-config/src/babel-transformer.ts:35-52 | at load, the preset cache is `null`, the config cache is empty, and no resolution has happened |
| `BabelTransformer.Transformer.GetBabelPresetExpo` | packages/@expo/metro-config/src/babel-transformer.ts:37-44 | answers from the cache unless it is `undefined`; only then calls the resolver once and caches its answer (`?? null`) |
| `BabelTransformer.Transformer.GetBabelRC` | packages/@expo/metro-config/src/babel-transformer.ts:51-124 | returns the cached config if there is one, else builds `DefaultBabelRC` of these options with its chain of path reassignments and caches it |
| `BabelTransformer.Transformer.BuildBabelConfig` | packages/@expo/metro-config/src/babel-transformer.ts:130-178 | fills the config cache as `getBabelRC` does and returns `BuiltConfig` of the cached config; `plugins` defaults to `[]` |
| `BabelTransformer.Transformer.Transform` | packages/@expo/metro-config/src/babel-transformer.ts:180-237 | `BABEL_ENV` ends as `EnvAfter` on every exit; the preset and config caches are updated as memo cells; the output is `RunTransform` of the final config, run with `EnvDuring` as `BABEL_ENV` and with the options carrying the preset lookup's `extendsBabelConfigPath` |
| `BabelTransformer.TransformsInFreshProcess` | packages/@expo/metro-config/src/babel-transformer.ts:180-237 | in a fresh process, over any run of transforms, the config cache answers as a memo cell (`MemoAnswers`): every call sees the config built from the first call's options with `extendsBabelConfigPath` unset; `BABEL_ENV` ends as the first call left it |

## Left out

- `getCacheKey` and `cacheKeyParts` are left out. They compute an MD5 digest of the
  transformer's own file bytes, which needs crypto and file I/O.
- `packages/expo-font/src/FontHooks.ts` is not part of this model. It is a React
  hook: asynchronous UI state around an external font loader.
- `parseSync`, `transformFromAstSync` and the Hermes parser are opaque functions.
  Each returns a tree, a result or a thrown failure. Their internals are foreign.
- `makeHMRConfig` returns an opaque record. Only its plugin list is used.
- `path.resolve`, `resolveFrom.silent` and `fs.existsSync` are an uninterpreted
  function, an uninterpreted function and a fixed set of paths. The file system
  does not change during a run.
- The foreign calls do not modify `process.env`. In the real system
  `parseSync` and `transformFromAstSync` may run the project's own Babel config
  files, which could write `BABEL_ENV`; if one did while the previous value was
  empty, the source would keep the written value rather than `EnvDuring`.
  `EnvAfter`, the environment clause of `Transformer.Transform`,
  `EnvFixedByFirstCall` and `DevelopmentEnvPersists` rest on this assumption.
- `fs.existsSync("")` is false in Node, but the model does not exclude `""` from
  `existingPaths`. The set is meant to hold resolved (absolute, hence non-empty)
  paths; with `""` in it the model could extend an empty path, which the source
  cannot.
- Loading `metro-react-native-babel-preset` and the inline-requires plugin with
  `require` is not modelled. Both are tokens (`ReactNativePreset`,
  `InlineRequires`). A failing `require` is not modelled either.
- JS objects are records with optional fields, and only the keys this code
  touches are modelled. An absent key and a key holding `undefined` are treated
  as the same, which changes nothing in this code's spreads.
- The cached `babelRC` is a value, not an object reference. "Returns the same
  object" is modelled as "returns an equal value". The source mutates the object
  only before its first return.
- `Transformer.Transform`: the write to `options.extendsBabelConfigPath` is
  applied to a copy, which is passed on to `buildBabelConfig`. The caller does
  not see it after the call.
- Transform options are typed: `dev`, `hot`, `inlineRequires` and
  `hermesParser` are booleans, with `undefined` read as `false`.
  `enableBabelRCLookup`, `experimentalImportSupport` and `enableBabelRuntime`
  are optional booleans. Options the code does not read are an opaque
  string map that is passed through to the preset.
