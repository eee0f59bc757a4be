/**
 * Ruby values and the library calls the core hands them to. Regular-expression
 * matching, Rack's query parser, ActiveSupport's JSON decoder and RSpec's object
 * formatter are not part of this model: they enter as the fields of a Libraries value.
 */
module RubyObjects {
  import opened Wrappers

  /** The Ruby data the matchers look at: parsed queries, decoded JSON and raw bodies. */
  datatype Value =
    | Nil
    | Symbol(name: string)
    | Text(text: string)
    | Number(number: int)
    | Boolean(truth: bool)
    | List(items: seq<Value>)
    | Hash(pairs: seq<(Value, Value)>)

  /** A string that may be nil, as a Ruby value. */
  function OptionalText(s: Option<string>): (v: Value)
    ensures v == Nil <==> s.None?
  {
    match s
    case None => Nil
    case Some(t) => Text(t)
  }

  /** Something used on the left of `===` against a string: a String or a Regexp. */
  datatype Pattern = Literal(text: string) | Regexp(source: string)

  datatype Libraries = Libraries(
    /** Regexp#match?: does the regular expression with this source match this subject? */
    regexpMatch: (string, string) -> bool,
    /**
     * Rack::Utils.parse_nested_query followed by deep_symbolize_keys!: the pairs of a
     * hash. Nothing is assumed about it; Rack gives `{}` for a nil query, and
     * ParsesNilQueryAsEmpty states that for the lemmas that need it.
     */
    parseNestedQuery: Option<string> -> seq<(Value, Value)>,
    /** ActiveSupport::JSON.decode followed by deep_symbolize_keys!. */
    decodeJson: Option<string> -> Value,
    /** RSpec::Support::ObjectFormatter.format. */
    formatObject: Value -> string)

  /** Rack's behaviour on a missing query string: `parse_nested_query(nil)` is `{}`. */
  predicate ParsesNilQueryAsEmpty(libs: Libraries)
  {
    libs.parseNestedQuery(None) == []
  }

  /**
   * `pattern === subject`: String#=== is equality, Regexp#=== matches and is
   * false for nil.
   */
  function CaseEqual(pattern: Pattern, subject: Option<string>, libs: Libraries): (b: bool)
    ensures pattern.Literal? ==> (b <==> subject == Some(pattern.text))
    ensures subject.None? ==> !b
  {
    match pattern
    case Literal(text) => subject == Some(text)
    case Regexp(source) => subject.Some? && libs.regexpMatch(source, subject.value)
  }

  /** `"#{pattern}"`: a String as itself, a Regexp without flags as Regexp#to_s writes it. */
  function PatternToS(pattern: Pattern): string
  {
    match pattern
    case Literal(text) => text
    case Regexp(source) => "(?-mix:" + source + ")"
  }
}
