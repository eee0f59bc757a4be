/**
 * The intercepted-request matcher: it filters recorded transactions to the ones
 * with the expected method and path ("similar") and, of those, the ones whose
 * query and body also satisfy the optional matchers ("matching"), then checks
 * the number of matching transactions against an expected count range.
 */
module Matchers {
  import opened Wrappers
  import opened RubyText
  import opened RubyObjects
  import opened Transaction

  /** The upper end of a count range: an integer or Float::INFINITY. */
  datatype End = Finite(last: int) | Infinity

  /** A Ruby Range of counts: `first..last` or, with excludeEnd, `first...last`. */
  datatype CountRange = CountRange(first: int, end: End, excludeEnd: bool)

  /** Range#cover?. */
  predicate Covers(r: CountRange, n: int)
  {
    r.first <= n &&
    match r.end
    case Infinity => true
    case Finite(last) => if r.excludeEnd then n < last else n <= last
  }

  /** The range a new matcher starts with: `1..Float::INFINITY`. */
  const DefaultCount := CountRange(1, Infinity, false)

  /** `count(n)` for an Integer: `n..n`. */
  function Exactly(n: int): CountRange
  {
    CountRange(n, Finite(n), false)
  }

  /** The argument given to `count`: none (or nil), an Integer, a Range, or anything else. */
  datatype CountArgument = NoCount | IntegerCount(n: int) | RangeCount(range: CountRange) | OtherCount

  /** What `count` gives back: the current range, the receiver, or an ArgumentError. */
  datatype CountResult = CurrentRange(range: CountRange) | Chained(receiver: InterceptedRequest) | ArgumentError

  /** The header objects of all recorded requests: what the transaction filters read. */
  function Messages(ts: seq<Transaction>): set<object>
  {
    set t | t in ts :: t.request.message
  }

  predicate IsSimilar(t: Transaction, m: string, p: Pattern, libs: Libraries)
  {
    t.request.HasMethod(m) && t.request.HasPath(p, libs)
  }

  predicate IsMatching(t: Transaction, m: string, p: Pattern, q: Option<Matcher>, b: Option<Matcher>, libs: Libraries)
    reads t.request.message
  {
    t.request.HasMethod(m) && t.request.HasPath(p, libs) &&
    t.request.QueryMatches(q, libs) && t.request.BodyMatches(b, libs)
  }

  /** `similar_transactions`: those with the expected method and path, in recorded order. */
  function Similar(ts: seq<Transaction>, m: string, p: Pattern, libs: Libraries): seq<Transaction>
  {
    if ts == [] then []
    else (if IsSimilar(ts[0], m, p, libs) then [ts[0]] else []) + Similar(ts[1..], m, p, libs)
  }

  /** `matching_transactions`: those satisfying all four predicates, in recorded order. */
  function Matching(ts: seq<Transaction>, m: string, p: Pattern, q: Option<Matcher>, b: Option<Matcher>, libs: Libraries): seq<Transaction>
    reads Messages(ts)
  {
    if ts == [] then []
    else (if IsMatching(ts[0], m, p, q, b, libs) then [ts[0]] else []) + Matching(ts[1..], m, p, q, b, libs)
  }

  /** Keeps the transactions whose query and body satisfy the matchers, in order. */
  function WithQueryAndBody(ts: seq<Transaction>, q: Option<Matcher>, b: Option<Matcher>, libs: Libraries): seq<Transaction>
    reads Messages(ts)
  {
    if ts == [] then []
    else
      (if ts[0].request.QueryMatches(q, libs) && ts[0].request.BodyMatches(b, libs) then [ts[0]] else [])
      + WithQueryAndBody(ts[1..], q, b, libs)
  }

  /**
   * Matching is Similar narrowed by the query and body predicates: the matching
   * transactions are, in order, the similar ones whose query and body also match.
   */
  lemma {:induction false} MatchingNarrowsSimilar(ts: seq<Transaction>, m: string, p: Pattern, q: Option<Matcher>, b: Option<Matcher>, libs: Libraries)
    ensures Matching(ts, m, p, q, b, libs) == WithQueryAndBody(Similar(ts, m, p, libs), q, b, libs)
  {
    if ts != [] {
      MatchingNarrowsSimilar(ts[1..], m, p, q, b, libs);
      var rest := Similar(ts[1..], m, p, libs);
      if IsSimilar(ts[0], m, p, libs) {
        assert Similar(ts, m, p, libs) == [ts[0]] + rest;
        assert ([ts[0]] + rest)[1..] == rest;
      } else {
        assert Similar(ts, m, p, libs) == rest;
      }
    }
  }

  /** A transaction is matching exactly when it was recorded and satisfies all four predicates. */
  lemma {:induction false} MatchingMembers(ts: seq<Transaction>, m: string, p: Pattern, q: Option<Matcher>, b: Option<Matcher>, libs: Libraries, t: Transaction)
    ensures t in Matching(ts, m, p, q, b, libs) <==> t in ts && IsMatching(t, m, p, q, b, libs)
  {
    if ts != [] {
      MatchingMembers(ts[1..], m, p, q, b, libs, t);
      assert ts == [ts[0]] + ts[1..];
    }
  }

  /** A transaction is similar exactly when it was recorded with the expected method and path. */
  lemma {:induction false} SimilarMembers(ts: seq<Transaction>, m: string, p: Pattern, libs: Libraries, t: Transaction)
    ensures t in Similar(ts, m, p, libs) <==> t in ts && IsSimilar(t, m, p, libs)
  {
    if ts != [] {
      SimilarMembers(ts[1..], m, p, libs, t);
      assert ts == [ts[0]] + ts[1..];
    }
  }

  /** Every matching transaction is similar, and there are no more matching than similar ones. */
  lemma {:induction false} MatchingWithinSimilar(ts: seq<Transaction>, m: string, p: Pattern, q: Option<Matcher>, b: Option<Matcher>, libs: Libraries)
    ensures |Matching(ts, m, p, q, b, libs)| <= |Similar(ts, m, p, libs)| <= |ts|
    ensures forall t :: t in Matching(ts, m, p, q, b, libs) ==> t in Similar(ts, m, p, libs)
  {
    if ts != [] {
      MatchingWithinSimilar(ts[1..], m, p, q, b, libs);
      assert ts == [ts[0]] + ts[1..];
    }
  }

  /** With neither a query nor a body matcher, the matching transactions are the similar ones. */
  lemma {:induction false} NoMatchersMatchingIsSimilar(ts: seq<Transaction>, m: string, p: Pattern, libs: Libraries)
    ensures Matching(ts, m, p, None, None, libs) == Similar(ts, m, p, libs)
  {
    if ts != [] {
      NoMatchersMatchingIsSimilar(ts[1..], m, p, libs);
    }
  }

  /** When every recorded transaction matches, all of them are matching. */
  lemma {:induction false} AllMatching(ts: seq<Transaction>, m: string, p: Pattern, q: Option<Matcher>, b: Option<Matcher>, libs: Libraries)
    requires forall i :: 0 <= i < |ts| ==> IsMatching(ts[i], m, p, q, b, libs)
    ensures Matching(ts, m, p, q, b, libs) == ts
  {
    if ts != [] {
      AllMatching(ts[1..], m, p, q, b, libs);
      assert ts == [ts[0]] + ts[1..];
    }
  }

  /** With the default range, the expectation holds exactly when at least one transaction matches. */
  lemma DefaultCountMeansAtLeastOne(n: nat)
    ensures Covers(DefaultCount, n) <==> n >= 1
  {
  }

  /** `count(n)` asks for exactly n matching transactions. */
  lemma ExactlyMeansEqual(n: int, k: int)
    ensures Covers(Exactly(n), k) <==> k == n
  {
  }

  /** `" with query …"`, `" and"` and `" with body …"`, each added only when its condition holds. */
  function Clauses(q: Option<Matcher>, b: Option<Matcher>): string
  {
    var withQuery := if q.Some? then " with query " + q.value.formatted else "";
    var conjunction := if q.Some? && b.Some? then " and" else "";
    var withBody := if b.Some? then " with body " + b.value.formatted else "";
    withQuery + conjunction + withBody
  }

  /** The four shapes the clauses can take; " and" appears only when both matchers are set. */
  lemma ClausesShapes(q: Option<Matcher>, b: Option<Matcher>)
    ensures q.None? && b.None? ==> Clauses(q, b) == ""
    ensures q.Some? && b.None? ==> Clauses(q, b) == " with query " + q.value.formatted
    ensures q.None? && b.Some? ==> Clauses(q, b) == " with body " + b.value.formatted
    ensures q.Some? && b.Some? ==>
              Clauses(q, b) == " with query " + q.value.formatted + " and with body " + b.value.formatted
  {
  }

  /** One line of the "got:" list for the similar transaction at an index. */
  function SimilarLine(t: Transaction, index: nat, libs: Libraries): string
    reads t.request.message
  {
    var request := t.request;
    var query := request.Query(libs);
    var body := request.message.body;
    var line := Upcase(request.httpMethod) + " " + request.Path();
    var line := line + (if query.Hash? && query.pairs == [] then " with no query"
                        else " with query " + libs.formatObject(query));
    var line := line + (if body.None? || body.value == "" then " and with no body"
                        else " and with body " + libs.formatObject(Text(body.value)));
    if index != 0 then "          " + line else line
  }

  /** The lines describing the similar transactions, numbered from a starting index. */
  function SimilarLines(ts: seq<Transaction>, from: nat, libs: Libraries): (lines: seq<string>)
    reads Messages(ts)
    ensures |lines| == |ts|
    ensures forall i :: 0 <= i < |ts| ==> lines[i] == SimilarLine(ts[i], from + i, libs)
  {
    if ts == [] then [] else [SimilarLine(ts[0], from, libs)] + SimilarLines(ts[1..], from + 1, libs)
  }

  /**
   * A similar request without a query string is listed " with no query" when the
   * query parser behaves as Rack's does on nil.
   */
  lemma NoQueryStringListedWithoutQuery(t: Transaction, index: nat, libs: Libraries)
    requires ParsesNilQueryAsEmpty(libs) && t.request.uri.query.None?
    ensures var head := Upcase(t.request.httpMethod) + " " + t.request.Path() + " with no query";
      |SimilarLine(t, index, libs)| >= |head| &&
      (index == 0 ==> SimilarLine(t, index, libs)[..|head|] == head)
  {
    NoQueryStringIsEmptyHash(t.request, libs);
  }

  /** The "got:" list: one line per similar transaction, or "none" when there is none. */
  function GotLines(similar: seq<Transaction>, libs: Libraries): seq<string>
    reads Messages(similar)
  {
    var lines := SimilarLines(similar, 0, libs);
    if lines == [] then ["none"] else lines
  }

  /** Only the first line of the "got:" list is unindented; every later one starts with ten spaces. */
  lemma GotLinesLayout(similar: seq<Transaction>, libs: Libraries)
    ensures similar == [] ==> GotLines(similar, libs) == ["none"]
    ensures similar != [] ==> |GotLines(similar, libs)| == |similar|
    ensures forall i :: 1 <= i < |similar| ==>
              GotLines(similar, libs)[i] == "          " + SimilarLine(similar[i], 0, libs)
  {
  }

  class InterceptedRequest {
    /** The expected method and path as given; the method is upper-cased only when compared or shown. */
    const httpMethod: string
    const path: Pattern
    var count: CountRange
    var query: Option<Matcher>
    var body: Option<Matcher>
    var transactions: seq<Transaction>

    constructor (httpMethod: string, path: Pattern)
      ensures this.httpMethod == httpMethod && this.path == path
      ensures count == DefaultCount && query == None && body == None && transactions == []
    {
      this.httpMethod := httpMethod;
      this.path := path;
      count := DefaultCount;
      query := None;
      body := None;
      transactions := [];
    }

    /**
     * `count(arg)`: with no argument the current range, unchanged; an Integer n sets
     * `n..n` and a Range sets itself, returning the receiver; anything else raises.
     */
    method Count(arg: CountArgument) returns (result: CountResult)
      modifies this`count
      ensures arg.NoCount? ==> result == CurrentRange(count) && count == old(count)
      ensures arg.IntegerCount? ==> result == Chained(this) && count == Exactly(arg.n)
      ensures arg.RangeCount? ==> result == Chained(this) && count == arg.range
      ensures arg.OtherCount? ==> result == ArgumentError && count == old(count)
    {
      if arg.NoCount? {
        result := CurrentRange(count);
      } else if arg.OtherCount? {
        result := ArgumentError;
      } else {
        count := if arg.IntegerCount? then Exactly(arg.n) else arg.range;
        result := Chained(this);
      }
    }

    /** `with_query(matcher)`: records the query matcher and returns the receiver. */
    method WithQuery(matcher: Matcher) returns (receiver: InterceptedRequest)
      modifies this`query
      ensures receiver == this && query == Some(matcher)
    {
      query := Some(matcher);
      receiver := this;
    }

    /** `with_body(matcher)`: records the body matcher and returns the receiver. */
    method WithBody(matcher: Matcher) returns (receiver: InterceptedRequest)
      modifies this`body
      ensures receiver == this && body == Some(matcher)
    {
      body := Some(matcher);
      receiver := this;
    }

    function MatchingTransactions(libs: Libraries): seq<Transaction>
      reads this, Messages(transactions)
    {
      Matching(transactions, httpMethod, path, query, body, libs)
    }

    function SimilarTransactions(libs: Libraries): seq<Transaction>
      reads this
    {
      Similar(transactions, httpMethod, path, libs)
    }

    /** `matches?(ts)`: stores the transactions and checks how many match against the range. */
    method Matches(ts: seq<Transaction>, libs: Libraries) returns (matched: bool)
      modifies this`transactions
      ensures transactions == ts
      ensures matched <==> Covers(count, |Matching(ts, httpMethod, path, query, body, libs)|)
    {
      transactions := ts;
      matched := Covers(count, |MatchingTransactions(libs)|);
    }

    function Description(): string
      reads this
    {
      "should intercept a " + Upcase(httpMethod) + " request to " + PatternToS(path)
    }

    /** The "expected:" part of the failure message. */
    function ExpectedRequest(): string
      reads this
    {
      Upcase(httpMethod) + " " + PatternToS(path) + Clauses(query, body)
    }

    function FailureMessage(libs: Libraries): string
      reads this, Messages(Similar(transactions, httpMethod, path, libs))
    {
      "\nexpected: " + ExpectedRequest() + "\n     got: " + Join(GotLines(SimilarTransactions(libs), libs), "\n")
    }

    function FailureMessageWhenNegated(): string
      reads this
    {
      "intercepted a " + Upcase(httpMethod) + " request to " + PatternToS(path) + Clauses(query, body)
    }
  }

  /** What the messages say is expected after the method: the path, then the clauses. */
  function ExpectedTarget(r: InterceptedRequest): string
    reads r
  {
    PatternToS(r.path) + Clauses(r.query, r.body)
  }

  /**
   * The "expected:" line, the negated message and the description name the same
   * upper-cased method and the same path; the two messages also share the clauses.
   */
  lemma NegatedMessageMirrorsExpected(r: InterceptedRequest)
    ensures r.ExpectedRequest() == Upcase(r.httpMethod) + " " + ExpectedTarget(r)
    ensures r.FailureMessageWhenNegated() ==
              "intercepted a " + Upcase(r.httpMethod) + " request to " + ExpectedTarget(r)
    ensures r.Description() + Clauses(r.query, r.body) ==
              "should intercept a " + Upcase(r.httpMethod) + " request to " + ExpectedTarget(r)
  {
  }

  /** The description names the method in upper case, whatever case it was given in. */
  lemma DescriptionUpcasesMethod(r: InterceptedRequest)
    requires r.httpMethod == "post" && r.path == Literal("/articles")
    ensures r.Description() == "should intercept a POST request to /articles"
  {
    assert Upcase("post") == "POST";
  }

  /** With no similar transaction the "got:" line reads "none". */
  lemma FailureMessageWithoutSimilar(r: InterceptedRequest, libs: Libraries)
    requires r.SimilarTransactions(libs) == []
    ensures r.FailureMessage(libs) == "\nexpected: " + r.ExpectedRequest() + "\n     got: none"
  {
  }

  /**
   * Two recorded transactions that both match: a `count(2)` expectation is met and a
   * `count(1)` expectation is not.
   */
  lemma TwoMatchingTransactions(ts: seq<Transaction>, m: string, p: Pattern, q: Option<Matcher>, b: Option<Matcher>, libs: Libraries)
    requires |ts| == 2
    requires forall i :: 0 <= i < |ts| ==> IsMatching(ts[i], m, p, q, b, libs)
    ensures Covers(Exactly(2), |Matching(ts, m, p, q, b, libs)|)
    ensures !Covers(Exactly(1), |Matching(ts, m, p, q, b, libs)|)
    ensures Covers(DefaultCount, |Matching(ts, m, p, q, b, libs)|)
  {
    AllMatching(ts, m, p, q, b, libs);
  }
}
