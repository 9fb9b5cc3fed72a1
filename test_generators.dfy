/**
 * The test-stub generators of lib/test-generators.js. For every dialect of the
 * template library (QUnit and Mocha) the source builds a generator that turns a
 * file path and its lint messages into the text of a test asserting that the
 * file passed lint, plus `testOnly`, `header` and `footer` variants.
 *
 * The dialect templates themselves (`suiteHeader`, `test`, `suiteFooter`) come
 * from a library that is not part of this model; a `Template` holds them as
 * uninterpreted function values.
 */
module TestGenerators {
  import opened Wrappers
  import opened Lists
  import opened Messages

  /** The dialects of the template library, in the library's key order. */
  datatype Dialect = QUnit | Mocha

  /** The registry's names, `Object.keys` of the template library. */
  const GeneratorNames: seq<string> := ["qunit", "mocha"]

  function NameOf(d: Dialect): string {
    match d
    case QUnit => "qunit"
    case Mocha => "mocha"
  }

  /** Looking a name up in the generator registry (own keys only). */
  function DialectNamed(name: string): (r: Option<Dialect>)
    ensures r.Some? <==> name in GeneratorNames
    ensures r.Some? ==> NameOf(r.value) == name
  {
    if name == "qunit" then Some(QUnit)
    else if name == "mocha" then Some(Mocha)
    else None
  }

  /** The registry names every dialect, and its name leads back to it. */
  lemma NamesRoundTrip(d: Dialect)
    ensures NameOf(d) in GeneratorNames && DialectNamed(NameOf(d)) == Some(d)
  {
  }

  /** One dialect's templates: a suite header, a single test, a suite footer. */
  datatype Template = Template(
    suiteHeader: string -> string,
    test: (string, bool, string) -> string,
    suiteFooter: () -> string)

  /** The name of the single test in a full generated suite. */
  const TestName: string := "should pass RemarkLint"

  /** `results || []`: an absent list of messages is the empty list. */
  function Listed(results: Option<seq<Message>>): seq<Message>
  {
    match results
    case None => []
    case Some(ms) => ms
  }

  predicate IsFatal(m: Message) {
    m.fatal
  }

  /** The line shown for one message: `name - reason (ruleId)`. */
  function Line(m: Message): (r: string)
    ensures Show(m.name) + " - " <= r && |r| > |Show(m.name)|
  {
    Show(m.name) + " - " + Show(m.reason) + " (" + Show(m.ruleId) + ")"
  }

  /** The index of the first fatal message (`Array.prototype.find`), if any. */
  function FirstFatal(ms: seq<Message>): (r: Option<nat>)
    ensures r.Some? ==> r.value < |ms| && IsFatal(ms[r.value])
    ensures r.Some? ==> forall j :: 0 <= j < r.value ==> !IsFatal(ms[j])
    ensures r.None? <==> forall j :: 0 <= j < |ms| ==> !IsFatal(ms[j])
  {
    if ms == [] then None
    else if IsFatal(ms[0]) then Some(0)
    else
      match FirstFatal(ms[1..])
      case None => None
      case Some(k) => Some(k + 1)
  }

  /** `hasPassed`: a file passes exactly when none of its messages is fatal. */
  function HasPassed(results: Option<seq<Message>>): (r: bool)
    ensures results.None? ==> r
    ensures r <==> forall i :: 0 <= i < |Listed(results)| ==> !IsFatal(Listed(results)[i])
  {
    FirstFatal(Listed(results)).None?
  }

  /** `render`: one line per fatal message, in input order, separated by newlines. */
  function Render(results: Option<seq<Message>>): (r: string)
    ensures Listed(results) == [] ==> r == ""
  {
    Join(Map(Line, Filter(IsFatal, Listed(results))), '\n')
  }

  /** Passing and rendering nothing go together: a failing file always renders a non-empty list. */
  lemma RenderEmptyIffPassed(results: Option<seq<Message>>)
    ensures Render(results) == "" <==> HasPassed(results)
  {
    var ms := Listed(results);
    var fatal := Filter(IsFatal, ms);
    FilterEmptyIff(IsFatal, ms);
    if fatal != [] {
      var lines := Map(Line, fatal);
      JoinStartsWithFirst(lines, '\n');
      assert |Line(fatal[0])| > 0;
    }
  }

  /** The rendered text splits back into exactly the lines of the fatal messages, in order. */
  lemma RenderLines(results: Option<seq<Message>>)
    requires !HasPassed(results)
    requires forall m :: m in Listed(results) && m.fatal ==> '\n' !in Line(m)
    ensures Split(Render(results), '\n') == Map(Line, Filter(IsFatal, Listed(results)))
  {
    var fatal := Filter(IsFatal, Listed(results));
    FilterEmptyIff(IsFatal, Listed(results));
    var lines := Map(Line, fatal);
    forall i | 0 <= i < |lines| ensures '\n' !in lines[i] {
      assert fatal[i] in fatal;
    }
    SplitJoin(lines, '\n');
  }

  /** The first words of every assertion message. */
  function AssertionPrefix(relativePath: string): string {
    relativePath + " should pass RemarkLint"
  }

  /**
   * `createAssertionMessage`: `<path> should pass RemarkLint`, followed for a
   * failing file by a blank line and the rendered fatal messages.
   */
  function CreateAssertionMessage(relativePath: string, results: Option<seq<Message>>): (r: string)
    ensures AssertionPrefix(relativePath) <= r
    ensures HasPassed(results) <==> r == AssertionPrefix(relativePath)
    ensures !HasPassed(results) ==>
      r == AssertionPrefix(relativePath) + "\n\n" + Render(results) && Render(results) != ""
  {
    RenderEmptyIffPassed(results);
    var message := AssertionPrefix(relativePath);
    if HasPassed(results) then message else message + "\n\n" + Render(results)
  }

  /**
   * `_generators[name](relativePath, results)`: a whole suite holding one
   * test. The suite opens with the header of the group named by the path and
   * closes with the footer.
   */
  function Generate(t: Template, relativePath: string, results: Option<seq<Message>>): (r: string)
    ensures t.suiteHeader("RemarkLint | " + relativePath) <= r
    ensures |t.suiteFooter()| <= |r| && r[|r| - |t.suiteFooter()|..] == t.suiteFooter()
  {
    var passed := HasPassed(results);
    var message := CreateAssertionMessage(relativePath, results);
    var suite := t.suiteHeader("RemarkLint | " + relativePath) + t.test(TestName, passed, message);
    assert (suite + t.suiteFooter())[|suite|..] == t.suiteFooter();
    suite + t.suiteFooter()
  }

  /**
   * `_generators[name].testOnly(relativePath, results)`: the test alone, named
   * by the path; it asserts `true` with the bare message for a passing file and
   * `false` with the fatal messages' lines for a failing one.
   */
  function TestOnly(t: Template, relativePath: string, results: Option<seq<Message>>): (r: string)
    ensures HasPassed(results) ==> r == t.test(relativePath, true, AssertionPrefix(relativePath))
    ensures !HasPassed(results) ==> r == t.test(relativePath, false,
      AssertionPrefix(relativePath) + "\n\n" + Join(Map(Line, Filter(IsFatal, Listed(results))), '\n'))
  {
    var passed := HasPassed(results);
    var message := CreateAssertionMessage(relativePath, results);
    t.test(relativePath, passed, message)
  }

  /** `_generators[name].header(group)`: the header every full suite for `group` begins with. */
  function Header(t: Template, group: string): (r: string)
    ensures forall results :: r <= Generate(t, group, results)
  {
    t.suiteHeader("RemarkLint | " + group)
  }

  /** `_generators[name].footer()`: the footer every full suite ends with. */
  function Footer(t: Template): (r: string)
    ensures forall relativePath, results :: var suite := Generate(t, relativePath, results);
      |r| <= |suite| && suite[|suite| - |r|..] == r
  {
    t.suiteFooter()
  }

  /** A passing file yields a full suite whose test asserts `true` with the bare message. */
  lemma PassingFileGivesPassingTest(t: Template, relativePath: string, results: Option<seq<Message>>)
    requires HasPassed(results)
    ensures Generate(t, relativePath, results) ==
      Header(t, relativePath) + t.test(TestName, true, AssertionPrefix(relativePath)) + Footer(t)
  {
  }

  /**
   * A failing file yields a full suite whose test asserts `false`, with the
   * prefix, a blank line and one line per fatal message in input order.
   */
  lemma FailingFileGivesFailingTest(t: Template, relativePath: string, results: Option<seq<Message>>)
    requires !HasPassed(results)
    ensures Generate(t, relativePath, results) ==
      Header(t, relativePath) +
      t.test(TestName, false,
        AssertionPrefix(relativePath) + "\n\n" + Join(Map(Line, Filter(IsFatal, Listed(results))), '\n')) +
      Footer(t)
  {
  }

  /** The verdict and the message depend only on the fatal messages, and `null` is the same as `[]`. */
  lemma OutcomeDependsOnlyOnFatal(relativePath: string, results: Option<seq<Message>>)
    ensures var only := Some(Filter(IsFatal, Listed(results)));
      HasPassed(only) == HasPassed(results) &&
      Render(only) == Render(results) &&
      CreateAssertionMessage(relativePath, only) == CreateAssertionMessage(relativePath, results)
  {
    var ms := Listed(results);
    var fatal := Filter(IsFatal, ms);
    FilterEmptyIff(IsFatal, ms);
    FilterEmptyIff(IsFatal, fatal);
    FilterAll(IsFatal, fatal) by {
      forall i | 0 <= i < |fatal| ensures IsFatal(fatal[i]) {
        assert fatal[i] in fatal;
      }
    }
  }

  /** Non-fatal messages never change the generated text. */
  lemma GeneratedTextIgnoresNonFatal(t: Template, relativePath: string, results: Option<seq<Message>>)
    ensures var only := Some(Filter(IsFatal, Listed(results)));
      Generate(t, relativePath, only) == Generate(t, relativePath, results) &&
      TestOnly(t, relativePath, only) == TestOnly(t, relativePath, results)
  {
    OutcomeDependsOnlyOnFatal(relativePath, results);
  }

  /**
   * The two-error fixture of the generator tests yields the expected message,
   * written here piece by piece: the prefix, a blank line, then one
   * `name - reason (ruleId)` line per message.
   */
  lemma TwoFatalMessagesFixture()
    ensures var fixture := [
        Message(Str("file.md:42:13"), Str("This is not a valid foo"), Str("validate-foo"), true),
        Message(Str("file.md:123:1"), Str("foobar"), Str("comma-dangle"), true)];
      !HasPassed(Some(fixture)) &&
      CreateAssertionMessage("some/file.md", Some(fixture)) ==
        "some/file.md" + " should pass RemarkLint" + "\n\n" +
        ("file.md:42:13" + " - " + "This is not a valid foo" + " (" + "validate-foo" + ")") + "\n" +
        ("file.md:123:1" + " - " + "foobar" + " (" + "comma-dangle" + ")")
  {
    var a := Message(Str("file.md:42:13"), Str("This is not a valid foo"), Str("validate-foo"), true);
    var b := Message(Str("file.md:123:1"), Str("foobar"), Str("comma-dangle"), true);
    assert [a, b][1..] == [b];
    assert Filter(IsFatal, [a, b]) == [a, b];
    assert Map(Line, [a, b]) == [Line(a), Line(b)];
    assert [Line(a), Line(b)][1..] == [Line(b)];
    assert Listed(Some([a, b])) == [a, b];
    assert Join([Line(a), Line(b)], '\n') == Line(a) + "\n" + Line(b);
  }

  /** A record without a `fatal` property passes: `[{}]` gives the bare message. */
  lemma EmptyRecordPasses(relativePath: string)
    ensures var blank := Message(Undefined, Undefined, Undefined, false);
      HasPassed(Some([blank])) &&
      CreateAssertionMessage(relativePath, Some([blank])) == relativePath + " should pass RemarkLint"
  {
  }
}
