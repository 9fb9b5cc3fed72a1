# broccoli-lint-remark, modelled in Dafny

broccoli-lint-remark is a plugin for the Broccoli build pipeline. It runs the
remark markdown linter over every markdown file in its input tree. The plugin
produces output for a file only when a test generator is configured and at
least one fatal, rule-tagged lint message survives its filter; otherwise the
plugin's `output` for that file is undefined. With no `testGenerator` option,
the default, there is never output. When the configured generator is a
built-in one (QUnit or Mocha), the output is a failing test that lists those
messages; a caller-supplied generator function produces whatever it returns.
This project models the plugin's own logic and proves properties of it:

- `test_generators.dfy` (module `TestGenerators`, lib/test-generators.js):
  deciding pass or fail from a list of lint messages (`hasPassed`), rendering
  the fatal ones as `name - reason (ruleId)` lines (`render`), building the
  assertion message (`createAssertionMessage`), and composing a dialect's
  generators: the full suite, `testOnly`, `header` and `footer`. The dialect
  templates (`suiteHeader`, `test`, `suiteFooter`) come from the
  aot-test-generators library. They are uninterpreted function values in a
  `Template`, and the model is parametric in them.
- `plugin.dfy` (module `Plugin`, lib/index.js):
  - resolving the configuration directory from the input node
    (`resolveInputDirectory`);
  - the constructor, as `BroccoliRemark.Create`. It defaults `persist` in the
    caller's options object, resolves the directory and selects the test
    generator. It returns the plugin object, or the error the constructor
    throws;
  - the filtering and generator call that run after linting
    (`BroccoliRemark.ProcessResults`);
  - the `testGenerators` getter.
- `messages.dfy` (module `Messages`): the fields of a lint message the plugin
  reads (`name`, `reason`, `ruleId`, `fatal`), JavaScript truthiness, and how a
  template literal prints an absent field.
- `lists.dfy` (module `Lists`): the JavaScript array operations the code is
  written with (`filter`, `map`, `join`) and `split` as the inverse of `join`,
  with their lemmas.
- `wrappers.dfy` (module `Wrappers`): `Option` (a value left `undefined`) and
  `Result` (a thrown error).

The headline property is `Plugin.BuiltinOutputIsFailingTest`. When the plugin
emits output from a built-in generator, that output is a test asserting
`false`. Its message is `<path> should pass RemarkLint`, a blank line, and one
line per fatal, rule-tagged message, in input order. `ProcessResults` adds that
output is emitted exactly when such a message exists.

A transform node with no inputs is resolved as the code does it:
`resolveInputDirectory` reads `inputNodes[0]`, gets `undefined` and fails with
a TypeError. The model returns the error `MissingInput` there.

Generator selection in the model is the intended one: a name outside the
registry is always rejected. The code also accepts names inherited from
`Object.prototype` (see "## Findings" and "## Left out").

## Model

| member | source | states |
|---|---|---|
| `Messages.Show` | lib/test-generators.js:42 | definition only, no contract of its own: a `${…}` interpolation gives a present field's text and `undefined` for an absent one; what it produces is stated by `TestGenerators.Line` and `TestGenerators.TwoFatalMessagesFixture` |
| `TestGenerators.DialectNamed` | lib/test-generators.js:7-10 | a name is found exactly when it is one of the registry's names (`qunit`, `mocha`), and the dialect found has that name |
| `TestGenerators.NamesRoundTrip` | lib/test-generators.js:7-10 | every dialect has a registry name, and looking that name up returns the dialect |
| `TestGenerators.Line` | lib/test-generators.js:42 | a message's line starts with its name followed by ` - ` |
| `TestGenerators.Listed` | lib/test-generators.js:38 | definition only, no contract of its own: `results` or the empty list when it is absent (also at line 47); the consequences are stated by `TestGenerators.HasPassed`, `TestGenerators.Render` and `TestGenerators.OutcomeDependsOnlyOnFatal` |
| `TestGenerators.FirstFatal` | lib/test-generators.js:49 | `find` returns the first fatal message, or nothing exactly when no message is fatal |
| `TestGenerators.HasPassed` | lib/test-generators.js:46-50 | a null list passes, and a list passes exactly when no element has `fatal` set (so `[]` and `[{}]` pass) |
| `TestGenerators.Render` | lib/test-generators.js:37-44 | a null or empty list renders as the empty string |
| `TestGenerators.RenderEmptyIffPassed` | lib/test-generators.js:37-50 | the rendering is empty exactly when the list passes, so a failing list always renders at least one line |
| `TestGenerators.RenderLines` | lib/test-generators.js:40-43 | splitting the rendering at newlines gives exactly the `name - reason (ruleId)` lines of the fatal messages, in input order, with no trailing separator (when no line contains a newline itself) |
| `TestGenerators.CreateAssertionMessage` | lib/test-generators.js:52-61 | the message always starts with `<path> should pass RemarkLint`; it is exactly that prefix iff the list passes; otherwise it is prefix + blank line + the non-empty rendering |
| `TestGenerators.Generate` | lib/test-generators.js:10-19 | the full suite opens with the suite header for the group named by the path and closes with the suite footer |
| `TestGenerators.TestOnly` | lib/test-generators.js:21-26 | the test alone, named by the path: it asserts `true` with the bare prefix for a passing list, and `false` with the prefix, a blank line and the fatal messages' lines otherwise |
| `TestGenerators.Header` | lib/test-generators.js:28-30 | `header(g)` is the header that every full suite for path `g` begins with |
| `TestGenerators.Footer` | lib/test-generators.js:32-34 | `footer()` is the footer that every full suite ends with |
| `TestGenerators.PassingFileGivesPassingTest` | lib/test-generators.js:10-19 | for a passing list the full suite is header + a `should pass RemarkLint` test asserting `true` with the bare prefix message + footer |
| `TestGenerators.FailingFileGivesFailingTest` | lib/test-generators.js:10-19 | for a failing list the full suite is header + a `should pass RemarkLint` test asserting `false` whose message is the prefix, a blank line and one line per fatal message in input order + footer |
| `TestGenerators.OutcomeDependsOnlyOnFatal` | lib/test-generators.js:37-61 | the verdict, the rendering and the message are unchanged when the non-fatal messages are removed, and `null` behaves as `[]` |
| `TestGenerators.GeneratedTextIgnoresNonFatal` | lib/test-generators.js:10-26 | the generated suite and the `testOnly` test are unchanged when the non-fatal messages are removed |
| `TestGenerators.TwoFatalMessagesFixture` | test/test-generators-test.js:40-46 | the two-error fixture fails, and its message is the prefix, a blank line and the two expected lines |
| `TestGenerators.EmptyRecordPasses` | test/test-generators-test.js:31-37 | a record without `fatal` passes with the bare message |
| `Plugin.ThrownMessage` | lib/index.js:59 | the unknown-generator error text starts with `Could not find '` and the name can be read back from it (the fan-in text is the constant at line 26, the unknown-name text is built at line 59) |
| `Plugin.ResolveInputDirectory` | lib/index.js:12-30 | resolving fails only with the many:* error or the missing-input TypeError |
| `Plugin.ChainDecomposition` | lib/index.js:24-29 | every node is a chain of single-input transforms over a node that has no single input |
| `Plugin.ResolveOutcome` | lib/index.js:12-30 | follow single inputs down to the bottom node; a string gives itself, a source node its directory, a fan-in node the many:* error, and a transform without inputs the TypeError |
| `Plugin.ResolveThroughChain` | lib/index.js:24-29 | any number of single-input transforms resolve exactly as the node beneath them |
| `Plugin.SelectGenerator` | lib/index.js:53-63 | an error iff the option is a name outside the registry, with the text `Could not find '<name>' test generator.`; a registry name selects that dialect, in its `testOnly` form iff `group` is set; an absent option or a function is kept as given |
| `Plugin.Reported` | lib/index.js:120 | definition only, no contract of its own: the filter condition (a truthy `ruleId` and `fatal` set); what the filter keeps is stated by `Plugin.Normalise` |
| `Plugin.Normalise` | lib/index.js:116-120 | every kept message has a truthy `ruleId` and `fatal` set and comes from the input; every such input message is kept |
| `Plugin.NormaliseKeepsOrder` | lib/index.js:116-120 | the filter distributes over concatenation, so kept messages stay in input order |
| `Plugin.NormaliseIdempotent` | lib/index.js:116-120 | normalising twice equals normalising once |
| `Plugin.NormaliseEmptyIff` | lib/index.js:116-122 | nothing is kept exactly when no message is both rule-tagged and fatal |
| `Plugin.Options.constructor` | lib/index.js:37-41 | an options object holds the `persist`, `testGenerator` and `group` it was given |
| `Plugin.CallGenerator` | lib/index.js:123 | a built-in generator always yields text, and a full suite opens with the header for the path; a custom generator is called with exactly the path and the filtered list, and its result is the output |
| `Plugin.BroccoliRemark.constructor` | lib/index.js:48-63 | the plugin holds the options object, the configuration directory and the selected generator |
| `Plugin.BroccoliRemark.Create` | lib/index.js:32-64 | `persist` is set to true only when absent, in the caller's own options object, even if construction then throws; the directory error comes before the generator error; on success the plugin holds the caller's options (or a fresh object), the resolved directory and the selected generator |
| `Plugin.BroccoliRemark.ProcessResults` | lib/index.js:113-130 | `results` is always the normalised list; the generator is called with the path and that list only when a generator is set and the list is non-empty, otherwise `output` is undefined; a built-in generator emits output exactly when the list is non-empty |
| `Plugin.BroccoliRemark.TestGenerators` | lib/index.js:173-177 | each read returns a freshly allocated array holding `qunit`, `mocha` |
| `Plugin.BroccoliRemark.ReadsAreIndependent` | test/remark-lint-test.js:38-44 | overwriting the array from one read leaves another read's array and later reads unchanged |
| `Plugin.BuiltinOutputIsFailingTest` | lib/index.js:116-124 | with a built-in generator, any output is a test asserting `false`; its message is the prefix, a blank line and the lines of exactly the normalised messages in input order, wrapped in the suite header and footer unless `testOnly` |
| `Plugin.LookupAsWritten` | lib/index.js:54 | indexing the registry object finds an own generator exactly for the registry names, and an inherited member exactly for `Object.prototype`'s other names |
| `Plugin.SelectAsWritten` | lib/index.js:53-63 | the constructor's selection as written: an inherited `Object.prototype` name is kept without an error, and throws only when `group` is set; on every other option it agrees with `SelectGenerator` |
| `Plugin.InheritedNameAccepted` | lib/index.js:53-60 | `toString` is not a generator name, yet as written it is accepted, while the intended selection rejects it |

## Left out

- Plugin.BroccoliRemark.Create: selects the generator with the intended `SelectGenerator`, not as the code does. So `Create`, and through it `ProcessResults` and `BuiltinOutputIsFailingTest`, reject a name inherited from `Object.prototype` (such as `toString` without `group`). The constructor at lib/index.js:53-60 accepts such a name and keeps the inherited member as the generator. `SelectAsWritten` models that behaviour.
- The lint engine call and its Promise/callback plumbing (lib/index.js:85-113 and all of lib/remark-engine.js) are not modelled. They call into unified-engine and remark and do file I/O. `ProcessResults` starts from the list of messages the engine reported.
- The cache key (lib/index.js:76-82) is not modelled. It is an md5 hash of the content, the path and `JSON.stringify(options)`, and both of those functions are external.
- The host framework's wiring is not modelled: the `Filter` base class call (which passes `persist: false` and the annotation), `extensions`, `targetExtension` and `baseDir` (lib/index.js:43-46, 66-74).
- Console and reporter handling is not modelled. This covers the `console` and `reporter` defaults (the reporter default is also written into the options object) and the logging in `postProcess` (lib/index.js:49-50, 135-144). All of it is I/O.
- Calling `BroccoliRemark` without `new` (lib/index.js:33-35) is not modelled separately. It constructs the same object.
- The concrete QUnit and Mocha text of aot-test-generators is not modelled. That library is not part of this model, so its templates are parameters.
- The commented-out `processString` (lib/index.js:146-171) is not modelled.
- Lint messages carry only `name`, `reason`, `ruleId` and `fatal`. The engine's other properties (`message`, `line`, `column`, `location`, `source`, `file`) are not modelled. So `Object.assign({}, result)` is the identity on values.
- A `fatal` that is `false`, `null` or absent is one value, `false`. A field holding `null` rather than a string or nothing is not modelled. JavaScript would print it as `null`.
- A results argument to the generators is either absent/`null` or a list. Other falsy values are not distinguished.
- `persist` is present-with-a-boolean or absent. An explicit non-boolean value is not modelled, though the code would also leave it unchanged.
- For the `testGenerator` option, every falsy non-string value is `Unset`. The empty string is a name (`Named("")`), which the constructor rejects. A truthy value that is neither a string nor a function is not modelled: the code stores it and then fails with a TypeError when calling it. A custom generator is a total function returning a string or `undefined`. Its exceptions and other return values are not modelled.
- `Plugin.BroccoliRemark.ReadsAreIndependent` overwrites an element of the returned array where the source's test calls `push`. Dafny arrays have a fixed length.

## Findings

| source | as written | input that shows it | evidently intended | confidence | as-written member | corrected member |
|---|---|---|---|---|---|---|
| lib/index.js:53-60 | `testGenerators[name]` indexes a plain object literal, so names inherited from `Object.prototype` are found and are truthy | `testGenerator: 'toString'` without `group`: nothing is thrown, and `Object.prototype.toString` is kept as the generator | throw `Could not find 'toString' test generator.` for every name outside the registry | high, not executed | `Plugin.InheritedNameAccepted` (on `Plugin.SelectAsWritten`) | `Plugin.SelectGenerator` |
