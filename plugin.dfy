/**
 * The plugin adapter of lib/index.js: resolving the directory that holds the
 * lint configuration from the input pipeline node, choosing a test generator
 * from the options, filtering the lint engine's messages and turning them into
 * generated test output.
 *
 * The lint engine itself, the host build framework (its Filter base class,
 * persistent cache and file wiring) and console output are not part of this
 * model: `ProcessResults` starts from the list of messages the engine reported.
 */
module Plugin {
  import opened Wrappers
  import opened Lists
  import opened Messages
  import opened TestGenerators

  // ---------------------------------------------------------------------------
  // Input nodes and the configuration directory

  /**
   * A node of the host's build pipeline: a plain directory path, a source node
   * (a directory read from disk), or a transform node with its input nodes.
   */
  datatype Node =
    | Path(path: string)
    | Source(sourceDirectory: string)
    | Transform(inputNodes: seq<Node>)

  /** What the plugin's construction can throw. */
  datatype Error =
    | ManyNode                        // a fan-in node on the way down the pipeline
    | MissingInput                    // a transform without inputs: reading `undefined` fails with a TypeError
    | UnknownGenerator(name: string)  // a generator name the registry does not hold

  /** The text of the error thrown at a fan-in node. */
  const ManyNodeMessage: string :=
    "EslintValidationFilter can only handle one:* broccoli nodes, but part of the given input pipeline is a many:* node. (broccoli-merge-trees is an example of a many:* node) Please perform many:* operations after linting."

  /** The text of the errors the plugin throws itself (the TypeError's text is the JavaScript engine's). */
  function ThrownMessage(e: Error): (r: string)
    requires !e.MissingInput?
    ensures e.UnknownGenerator? ==>
      "Could not find '" <= r && |r| >= 33 && r[16..|r| - 17] == e.name
  {
    match e
    case ManyNode => ManyNodeMessage
    case UnknownGenerator(name) =>
      "Could not find '" + name + "' test generator."
  }

  /** `resolveInputDirectory`: follow single inputs down to a path or a source node. */
  function ResolveInputDirectory(n: Node): (r: Result<string, Error>)
    ensures r.Err? ==> r.error == ManyNode || r.error == MissingInput
  {
    match n
    case Path(p) => Ok(p)
    case Source(dir) => Ok(dir)
    case Transform(inputs) =>
      if |inputs| > 1 then Err(ManyNode)
      else if |inputs| == 0 then Err(MissingInput)
      else
        assert inputs[0] in inputs;
        ResolveInputDirectory(inputs[0])
  }

  /** `k` single-input transforms stacked on `base`. */
  function Wrap(k: nat, base: Node): Node {
    if k == 0 then base else Transform([Wrap(k - 1, base)])
  }

  predicate SingleInput(n: Node) {
    n.Transform? && |n.inputNodes| == 1
  }

  /** The node reached by following single inputs from `n`. */
  function Bottom(n: Node): (b: Node)
    ensures !SingleInput(b)
  {
    if SingleInput(n) then
      assert n.inputNodes[0] in n.inputNodes;
      Bottom(n.inputNodes[0])
    else n
  }

  /** The number of single-input transforms above `Bottom(n)`. */
  function Depth(n: Node): nat {
    if SingleInput(n) then
      assert n.inputNodes[0] in n.inputNodes;
      1 + Depth(n.inputNodes[0])
    else 0
  }

  /** A chain of single-input transforms resolves exactly as the node at its bottom does. */
  lemma {:induction false} ResolveThroughChain(k: nat, base: Node)
    ensures ResolveInputDirectory(Wrap(k, base)) == ResolveInputDirectory(base)
  {
    if k > 0 {
      ResolveThroughChain(k - 1, base);
    }
  }

  /** Every node is such a chain over its bottom node. */
  lemma {:induction false} ChainDecomposition(n: Node)
    ensures n == Wrap(Depth(n), Bottom(n))
  {
    if SingleInput(n) {
      assert n.inputNodes[0] in n.inputNodes;
      ChainDecomposition(n.inputNodes[0]);
      assert n.inputNodes == [n.inputNodes[0]];
    }
  }

  /**
   * What resolving gives, decided by the bottom node of the single-input chain:
   * the path or the source directory there, the many:* error at a fan-in node,
   * the TypeError at a transform without inputs.
   */
  lemma ResolveOutcome(n: Node)
    ensures ResolveInputDirectory(n) ==
      match Bottom(n)
      case Path(p) => Ok(p)
      case Source(dir) => Ok(dir)
      case Transform(inputs) => if |inputs| > 1 then Err(ManyNode) else Err(MissingInput)
  {
    ChainDecomposition(n);
    ResolveThroughChain(Depth(n), Bottom(n));
  }

  // ---------------------------------------------------------------------------
  // Choosing the test generator

  /** A caller-supplied generator: called with the path and the filtered messages; `None` is `undefined`. */
  type CustomGenerator = (string, seq<Message>) -> Option<string>

  /** The `testGenerator` option: falsy (absent), a registry name, or a function. */
  datatype GeneratorOption = Unset | Named(name: string) | Function(f: CustomGenerator)

  /** The generator the plugin keeps: none, a built-in dialect (full suite or `testOnly`), or the caller's. */
  datatype Selected = NoGenerator | Builtin(dialect: Dialect, testOnly: bool) | Custom(f: CustomGenerator)

  /**
   * Generator selection of the constructor: a name must be in the registry and
   * selects that dialect, its `testOnly` variant when `group` is set; any other
   * option is kept as given.
   */
  function SelectGenerator(option: GeneratorOption, group: bool): (r: Result<Selected, Error>)
    ensures r.Err? <==> option.Named? && option.name !in GeneratorNames
    ensures r.Err? ==> r.error == UnknownGenerator(option.name)
    ensures r.Err? ==> ThrownMessage(r.error) == "Could not find '" + option.name + "' test generator."
    ensures option.Named? && r.Ok? ==>
      r.value.Builtin? && NameOf(r.value.dialect) == option.name && r.value.testOnly == group
    ensures option.Unset? ==> r.Ok? && r.value.NoGenerator?
    ensures option.Function? ==> r.Ok? && r.value.Custom? && r.value.f == option.f
  {
    match option
    case Unset => Ok(NoGenerator)
    case Function(f) => Ok(Custom(f))
    case Named(name) =>
      match DialectNamed(name)
      case None => Err(UnknownGenerator(name))
      case Some(d) => Ok(Builtin(d, group))
  }

  // ---------------------------------------------------------------------------
  // Options

  /** The options object the caller passes; the constructor writes `persist` into it. */
  class Options {
    /** `None`: the object has no own `persist` property. */
    var persist: Option<bool>
    var testGenerator: GeneratorOption
    /** Truthiness of the `group` option. */
    var group: bool

    constructor (persist: Option<bool>, testGenerator: GeneratorOption, group: bool)
      ensures this.persist == persist && this.testGenerator == testGenerator && this.group == group
    {
      this.persist := persist;
      this.testGenerator := testGenerator;
      this.group := group;
    }
  }

  // ---------------------------------------------------------------------------
  // Normalising the engine's messages

  /** A message is reported when it names its rule and is fatal. */
  predicate Reported(m: Message) {
    Truthy(m.ruleId) && m.fatal
  }

  /** The result filter of `processString`: the reported messages, in their order. */
  function Normalise(messages: seq<Message>): (r: seq<Message>)
    ensures forall i :: 0 <= i < |r| ==> Reported(r[i]) && r[i] in messages
    ensures forall i :: 0 <= i < |messages| && Reported(messages[i]) ==> messages[i] in r
  {
    Filter(Reported, messages)
  }

  /** Normalising keeps the input order: it distributes over concatenation. */
  lemma NormaliseKeepsOrder(a: seq<Message>, b: seq<Message>)
    ensures Normalise(a + b) == Normalise(a) + Normalise(b)
  {
    FilterAppend(Reported, a, b);
  }

  /** Normalising twice is normalising once. */
  lemma NormaliseIdempotent(messages: seq<Message>)
    ensures Normalise(Normalise(messages)) == Normalise(messages)
  {
    FilterWeaker(Reported, Reported, messages);
  }

  /** Nothing survives exactly when no message is both rule-tagged and fatal. */
  lemma NormaliseEmptyIff(messages: seq<Message>)
    ensures Normalise(messages) == [] <==> forall i :: 0 <= i < |messages| ==> !Reported(messages[i])
  {
    FilterEmptyIff(Reported, messages);
  }

  /** What `processString` resolves to: the filtered messages and the generated text, if any. */
  datatype Processed = Processed(results: seq<Message>, output: Option<string>)

  /** Calling the kept generator with the path and the filtered messages. */
  function CallGenerator(lib: Dialect -> Template, generator: Selected, relativePath: string, results: seq<Message>): (r: Option<string>)
    requires !generator.NoGenerator?
    ensures generator.Builtin? ==> r.Some?
    ensures generator.Builtin? && !generator.testOnly ==>
      lib(generator.dialect).suiteHeader("RemarkLint | " + relativePath) <= r.value
    ensures generator.Custom? ==> r == generator.f(relativePath, results)
  {
    match generator
    case Builtin(d, testOnly) =>
      Some(if testOnly then TestOnly(lib(d), relativePath, Some(results))
           else Generate(lib(d), relativePath, Some(results)))
    case Custom(f) => f(relativePath, results)
  }

  /** The outcome of `new BroccoliRemark(...)`: the plugin object, or what was thrown. */
  datatype Construction = Built(plugin: BroccoliRemark) | Failed(error: Error)

  // ---------------------------------------------------------------------------
  // The plugin object

  class BroccoliRemark {
    var options: Options
    /** The directory the lint engine runs in, where it looks for `.remarkrc`. */
    var remarkrc: string
    var testGenerator: Selected

    constructor (options: Options, remarkrc: string, testGenerator: Selected)
      ensures this.options == options && this.remarkrc == remarkrc && this.testGenerator == testGenerator
    {
      this.options := options;
      this.remarkrc := remarkrc;
      this.testGenerator := testGenerator;
    }

    /**
     * `new BroccoliRemark(inputNode, options)`: default `persist` in the
     * caller's options (before anything can throw), resolve the configuration
     * directory, then choose the generator; the first failure is what is thrown.
     * Without options a fresh empty options object is used.
     */
    static method Create(inputNode: Node, given: Options?) returns (r: Construction)
      modifies given
      ensures given != null ==>
        given.persist == (if old(given.persist).None? then Some(true) else old(given.persist)) &&
        given.testGenerator == old(given.testGenerator) && given.group == old(given.group)
      ensures ResolveInputDirectory(inputNode).Err? ==> r == Failed(ResolveInputDirectory(inputNode).error)
      ensures ResolveInputDirectory(inputNode).Ok? ==>
        var selected :=
          if given == null then SelectGenerator(Unset, false)
          else SelectGenerator(old(given.testGenerator), old(given.group));
        (selected.Err? ==> r == Failed(selected.error)) &&
        (selected.Ok? ==>
          r.Built? && fresh(r.plugin) &&
          r.plugin.remarkrc == ResolveInputDirectory(inputNode).value &&
          r.plugin.testGenerator == selected.value)
      ensures r.Built? && given != null ==> r.plugin.options == given
      ensures r.Built? && given == null ==>
        fresh(r.plugin.options) && r.plugin.options.persist == Some(true) &&
        r.plugin.options.testGenerator.Unset? && !r.plugin.options.group
    {
      var options: Options;
      if given == null {
        options := new Options(None, Unset, false);
      } else {
        options := given;
      }
      if options.persist.None? {
        options.persist := Some(true);
      }
      var directory := ResolveInputDirectory(inputNode);
      if directory.Err? {
        return Failed(directory.error);
      }
      var selected := SelectGenerator(options.testGenerator, options.group);
      if selected.Err? {
        return Failed(selected.error);
      }
      var plugin := new BroccoliRemark(options, directory.value, selected.value);
      return Built(plugin);
    }

    /**
     * The continuation of `processString` once the engine has reported
     * `messages` for `relativePath`: keep the reported messages, and call the
     * generator, once, only when there is one and some message survived.
     */
    function ProcessResults(lib: Dialect -> Template, relativePath: string, messages: seq<Message>): (p: Processed)
      reads this
      ensures p.results == Normalise(messages)
      ensures testGenerator.NoGenerator? || p.results == [] ==> p.output.None?
      ensures !testGenerator.NoGenerator? && p.results != [] ==>
        p.output == CallGenerator(lib, testGenerator, relativePath, p.results)
      ensures testGenerator.Builtin? ==> (p.output.Some? <==> p.results != [])
    {
      var results := Normalise(messages);
      var output := if !testGenerator.NoGenerator? && |results| > 0
        then CallGenerator(lib, testGenerator, relativePath, results) else None;
      Processed(results, output)
    }

    /** The `testGenerators` getter: a fresh array of the registry's names on every read. */
    static method TestGenerators() returns (names: array<string>)
      ensures fresh(names) && names[..] == GeneratorNames
    {
      names := new string[|GeneratorNames|](i requires 0 <= i < |GeneratorNames| => GeneratorNames[i]);
    }

    /** A caller that overwrites one read's array does not change another read's. */
    static method ReadsAreIndependent() returns (other: seq<string>, later: seq<string>)
      ensures other == ["qunit", "mocha"] && later == ["qunit", "mocha"]
    {
      var first := TestGenerators();
      var second := TestGenerators();
      first[0] := "jest";
      var third := TestGenerators();
      other, later := second[..], third[..];
    }
  }

  /**
   * The end-to-end property: with a built-in generator, any output is a failing
   * test whose message lists the reported messages, one
   * `name - reason (ruleId)` line each, in input order.
   */
  lemma BuiltinOutputIsFailingTest(plugin: BroccoliRemark, lib: Dialect -> Template, relativePath: string, messages: seq<Message>)
    requires plugin.testGenerator.Builtin?
    ensures var p := plugin.ProcessResults(lib, relativePath, messages);
      var t := lib(plugin.testGenerator.dialect);
      var message := AssertionPrefix(relativePath) + "\n\n" + Join(Map(Line, Normalise(messages)), '\n');
      p.output.Some? ==>
        p.output.value ==
          if plugin.testGenerator.testOnly then t.test(relativePath, false, message)
          else Header(t, relativePath) + t.test(TestName, false, message) + Footer(t)
  {
    var results := Normalise(messages);
    if results != [] {
      FilterAll(IsFatal, results);
      assert !HasPassed(Some(results)) by {
        assert results[0].fatal;
      }
    }
  }

  // ---------------------------------------------------------------------------
  // The registry lookup as written

  /** The property names every plain object inherits from `Object.prototype`. */
  const ObjectPrototypeMembers: set<string> := {
    "constructor", "hasOwnProperty", "isPrototypeOf", "propertyIsEnumerable",
    "toLocaleString", "toString", "valueOf", "__proto__",
    "__defineGetter__", "__defineSetter__", "__lookupGetter__", "__lookupSetter__"}

  /** What `testGenerators[name]` finds on the registry object. */
  datatype Lookup = OwnGenerator(dialect: Dialect) | InheritedMember(member: string) | Missing

  function LookupAsWritten(name: string): (r: Lookup)
    ensures r.OwnGenerator? <==> name in GeneratorNames
    ensures r.InheritedMember? <==> name !in GeneratorNames && name in ObjectPrototypeMembers
  {
    match DialectNamed(name)
    case Some(d) => OwnGenerator(d)
    case None => if name in ObjectPrototypeMembers then InheritedMember(name) else Missing
  }

  /** What the constructor keeps as written: a generator, or an inherited member that is not one. */
  datatype Stored = Generator(selected: Selected) | NotAGenerator(member: string)

  /**
   * Generator selection exactly as the constructor does it, with the registry
   * read as a plain object: an inherited member is truthy, so it is kept, and
   * only `group` (whose `testOnly` it lacks) makes it throw. Outside those names
   * it agrees with `SelectGenerator`.
   */
  function SelectAsWritten(option: GeneratorOption, group: bool): (r: Result<Stored, Error>)
    ensures option.Named? && option.name in ObjectPrototypeMembers && option.name !in GeneratorNames ==>
      r == if group then Err(UnknownGenerator(option.name)) else Ok(NotAGenerator(option.name))
    ensures !(option.Named? && option.name in ObjectPrototypeMembers) ==>
      match SelectGenerator(option, group)
      case Ok(s) => r == Ok(Generator(s))
      case Err(e) => r == Err(e)
  {
    match option
    case Unset => Ok(Generator(NoGenerator))
    case Function(f) => Ok(Generator(Custom(f)))
    case Named(name) =>
      match LookupAsWritten(name)
      case OwnGenerator(d) => Ok(Generator(Builtin(d, group)))
      case InheritedMember(m) => if group then Err(UnknownGenerator(name)) else Ok(NotAGenerator(m))
      case Missing => Err(UnknownGenerator(name))
  }

  /**
   * The discrepancy: `toString` is not a generator name, yet as written it is
   * accepted without an error, where the intended selection rejects it.
   */
  lemma InheritedNameAccepted()
    ensures "toString" !in GeneratorNames
    ensures SelectAsWritten(Named("toString"), false) == Ok(NotAGenerator("toString"))
    ensures SelectGenerator(Named("toString"), false) == Err(UnknownGenerator("toString"))
  {
  }
}
