# request_interceptor, modelled in Dafny

request_interceptor lets a Ruby test declare fake applications and run a block
whose outbound Net::HTTP calls are answered by those applications. This project
models the core of that library and proves properties of the model. It covers
five things. The status registry maps a code to a reason phrase. Recorded
transactions are requests and responses with private header dictionaries. The
RSpec matcher filters the recorded transactions. WebMock's global configuration
is saved and restored around a session, from two entry points. The runner picks
the first application whose hostname pattern matches the Host header.

Modules, one per source file plus three shared helpers:

- `Wrappers`: `Option`, `Result` and `Outcome`. An `Outcome` says whether a
  block returned or raised.
- `RubyText`: `String#upcase`, `Integer#to_s` with the parser that inverts it,
  and `Array#join`.
- `RubyObjects`: Ruby values and `===` on a String or a Regexp. The `Libraries`
  record carries the collaborators the core calls but does not implement
  (regular-expression matching, Rack's query parser, the JSON decoder, RSpec's
  object formatter). Each one is a function-valued field.
- `Status` (status.rb), `Transaction` (transaction.rb), `Matchers`
  (matchers.rb), `WebMock` (WebMock's state plus the webmock_patches.rb flag),
  `WebMockSession` (the setup and teardown logic shared by webmock_manager.rb
  and setup_webmock.rb), `WebMockManager`, `SetupWebmock` and `Runner`
  (runner.rb).

Objects whose fields the source updates in place are classes: `HTTPMessage`,
`InterceptedRequest`, `WebMock`, `HTTPResponse` and `NetHTTP`. Their methods
state the whole new state. Ruby's `Request < HTTPMessage` inheritance becomes
composition: a `Request` or a `Response` holds its own `HTTPMessage`. Header
dictionaries are Dafny maps, which are values. So the copy made in `initialize`
and the copy returned by `headers` can never alias the message's own dictionary.

WebMock is not part of this model. Its registries and flags are the fields of
the `WebMock` class, and each of its operations changes only the field its name
says. New stubs are put first in the registry, so the most recently declared
stub is the one WebMock applies. webmock_manager.rb:24-59 and
setup_webmock.rb:28-63 are the same sequence of statements, line for line.
`WebMockSession.Setup` and `WebMockSession.Teardown` model both copies.
`WebMockManager.RunSimulation` and `SetupWebmock.Perform` are the two entry
points.

A caller's block is given as a function. It takes the state it starts in and
gives the state it leaves behind plus its `Outcome`. Teardown therefore runs and
is proved on both exit paths.

Where a reader might expect more, the model follows the code:

- Only GET is simulated. Every other method raises NotImplementedError.
- Hosts are matched with `pattern === request["Host"]`. There is no
  case-insensitive comparison and no port normalisation.
- There is no pass-through: with no matching application, Rack is handed nil.
- The reason phrase as written is always "Unknown" (see Findings). The runner
  uses the corrected lookup, and `Runner.AsWrittenResponseMessage` states what
  the code as written would put in the response instead.

## Model

| member | source | states |
|---|---|---|
| `Status.FromCodeAsWritten` | lib/request_interceptor/status.rb:67-70 | `from_code` as written. `value` is `code.to_s`, and a supplied description is kept. Without one the description is always "Unknown", because the String key never hits the Symbol-keyed table. |
| `Status.Statuses` | lib/request_interceptor/status.rb:2-65 | The STATUSES hash as written. Every key is a Symbol whose name is a listed code in decimal, so no String key finds an entry. No entry reads "Unknown", so that phrase means the code is not listed. |
| `Status.Phrase` | lib/request_interceptor/status.rb:2-65 | The 62 reason phrases of the hash, from 100 to 511, by the code their key spells. It has no contract of its own. `Status.Statuses` and `Status.FromCode` state how the lookups reach it. |
| `Status.Fetch` | lib/request_interceptor/status.rb:68 | `Hash#fetch` with a default: the entry under the key when there is one, otherwise the default. The lookups above state what it gives for this table. |
| `Status.FromCode` | lib/request_interceptor/status.rb:2-70 | The corrected `from_code`, which the runner uses. `value` is the decimal form of the code and reads back as the code. The Symbol key it builds finds the table entry for the code. A supplied description is kept. Otherwise the description is the table's phrase, and "Unknown" exactly when the code is not listed. |
| `Status.AsWrittenNeverHitsTable` | lib/request_interceptor/status.rb:2-68 | No String is a key of STATUSES, so the as-written description is "Unknown" for every code. |
| `Status.AsWrittenMisses404` | lib/request_interceptor/status.rb:28-68 | 404 is listed as "Not Found", yet the as-written lookup gives "Unknown". The corrected lookup gives "Not Found". |
| `Status.FromCodeHitsTable` | lib/request_interceptor/status.rb:7-68 | The corrected lookup gives "Not Found" for 404 and "Created" for 201. |
| `Status.OkUnderBothLookups` | lib/request_interceptor/status.rb:6-69 | For 200, the corrected lookup gives ("200", "OK"), while the lookup as written gives ("200", "Unknown"). |
| `Status.UnassignedEntries` | lib/request_interceptor/status.rb:45-68 | 425, 427, 430 and 509 read "Unassigned", which is not the miss result "Unknown". |
| `Status.FromCodeUnlistedIsUnknown` | lib/request_interceptor/status.rb:67-69 | An unlisted code (999) gives ("999", "Unknown") instead of raising. |
| `RubyText.NatToS` | lib/request_interceptor/status.rb:69 | `Integer#to_s` of a natural number: at least one digit, only digits, no leading zero. |
| `RubyText.NatToSValue` | lib/request_interceptor/status.rb:69 | The digits NatToS writes have the value of the number. |
| `RubyText.IntToSRoundTrip` | lib/request_interceptor/status.rb:69 | Parsing `code.to_s` gives back the code, negative codes included. |
| `RubyText.IntToSInjective` | lib/request_interceptor/status.rb:69 | Distinct codes have distinct `value` strings. |
| `RubyText.IntToS` | lib/request_interceptor/status.rb:69 | `Integer#to_s`: a minus sign for a negative number, then the digits of its magnitude. `RubyText.NatToS`, `RubyText.IntToSRoundTrip` and `RubyText.IntToSInjective` state what the string means. |
| `RubyText.Upcase` | lib/request_interceptor/transaction.rb:25 | Upcasing keeps the length and maps each character through the ASCII upper-case mapping. |
| `RubyText.UpcaseIdempotent` | lib/request_interceptor/transaction.rb:25-32 | An upcased string has no lower-case letter, and upcasing it again changes nothing. |
| `RubyText.UpcaseIgnoresCase` | lib/request_interceptor/transaction.rb:29-32 | Spellings that differ only in case upcase to the same string. |
| `RubyText.DigitChar` | lib/request_interceptor/status.rb:69 | A digit value below ten becomes the character of that digit. |
| `RubyText.Join` | lib/request_interceptor/matchers.rb:104 | `Array#join`: no parts give "", one part gives itself, and the result starts with the first part. |
| `RubyText.JoinAppend` | lib/request_interceptor/matchers.rb:104 | Joining one more part adds the separator and then that part, so the separator stands exactly between neighbours. |
| `RubyObjects.OptionalText` | lib/request_interceptor/transaction.rb:65-66 | A body is nil exactly when it is absent. |
| `RubyObjects.CaseEqual` | lib/request_interceptor/transaction.rb:34-36 | `===`: for a String it is equality. Nil never matches. |
| `RubyObjects.PatternToS` | lib/request_interceptor/matchers.rb:82 | `"#{path}"` of a String or a flagless Regexp. It has no contract of its own. `ExpectedRequest`, `Description` and `NegatedMessageMirrorsExpected` show where it appears (also matchers.rb:108 and 116). |
| `Transaction.HTTPMessage.constructor` | lib/request_interceptor/transaction.rb:6-9 | The message starts with a copy of the given headers and the given body. |
| `Transaction.HTTPMessage.Get` | lib/request_interceptor/transaction.rb:11-13 | `message[name]` looks the name up exactly as spelled, giving nil when it is absent. `Set` and `Headers` state how it relates to writes and to the copied dictionary. |
| `Transaction.HTTPMessage.Set` | lib/request_interceptor/transaction.rb:15-17 | `msg[k] = v` changes only key k, and `msg[k]` then returns v. |
| `Transaction.HTTPMessage.Headers` | lib/request_interceptor/transaction.rb:19-21 | `headers` returns a dictionary that agrees with `msg[name]` on every name. |
| `Transaction.Request.constructor` | lib/request_interceptor/transaction.rb:24-27 | The method is stored upper-cased. The URI, body and headers are stored as given. |
| `Transaction.Request.HasMethod` | lib/request_interceptor/transaction.rb:29-32 | `method?(m)` holds when m, upcased, is the stored method. `HasMethodIgnoresCase`, `GetMatchesEverySpelling` and `ConstructedMatchesGiven` state its case rules. |
| `Transaction.Request.Path` | lib/request_interceptor/transaction.rb:38-40 | `path` is the URI's path. |
| `Transaction.Request.HasPath` | lib/request_interceptor/transaction.rb:34-36 | `path?(p)` is `p === path`, so a String must equal the path and a Regexp must match it. `HasPathLiteral` states the String case. |
| `Transaction.Request.RequestUri` | lib/request_interceptor/transaction.rb:46-48 | `request_uri` is the path with `?query` appended when there is a query. `RequestUriLayout` states its shape. |
| `Transaction.Request.HasRequestUri` | lib/request_interceptor/transaction.rb:42-44 | `request_uri?(p)` is `p === request_uri`. |
| `Transaction.Request.Query` | lib/request_interceptor/transaction.rb:50-52 | `query` is the URI's query string handed to Rack's nested-query parser, and is a Hash. |
| `Transaction.Request.QueryMatches` | lib/request_interceptor/transaction.rb:54-57 | `query?(m)` holds for nil, otherwise when `m === query`. `NilMatchersAcceptAll` states the nil case. |
| `Transaction.Request.BodySubject` | lib/request_interceptor/transaction.rb:62-67 | The value the body matcher is shown: the decoded JSON for Content-Type "application/json", otherwise the raw body or nil. |
| `Transaction.Request.BodyMatches` | lib/request_interceptor/transaction.rb:59-70 | `body?(m)` holds for nil, otherwise when `m ===` the subject above. `BodyMatcherSubject` states both branches. |
| `Transaction.Response.constructor` | lib/request_interceptor/transaction.rb:73-76 | A response stores its status code, body and a copy of its headers. |
| `Transaction.HasMethodIgnoresCase` | lib/request_interceptor/transaction.rb:29-32 | `method?` gives the same answer for two spellings of a method that differ only in case. |
| `Transaction.GetMatchesEverySpelling` | lib/request_interceptor/transaction.rb:29-32 | A GET request matches "get", "Get" and "GET", and does not match "POST". |
| `Transaction.ConstructedMatchesGiven` | lib/request_interceptor/transaction.rb:25-32 | A request built from any spelling of a method is well formed: its stored method is upper-cased. It matches that spelling and its own stored method. |
| `Transaction.HasPathLiteral` | lib/request_interceptor/transaction.rb:34-40 | For a String p, `path?(p)` holds exactly when p equals the URI's path. |
| `Transaction.RequestUriLayout` | lib/request_interceptor/transaction.rb:42-48 | `request_uri` is the path, followed by `?query` when there is a query, and always starts with "/". |
| `Transaction.NoQueryStringIsEmptyHash` | lib/request_interceptor/transaction.rb:50-52 | With a parser that, like Rack, reads a nil query as `{}`, a request without a query string has the empty hash as its query. |
| `Transaction.NilMatchersAcceptAll` | lib/request_interceptor/transaction.rb:54-60 | `query?(nil)` and `body?(nil)` are always true. |
| `Transaction.BodyMatcherSubject` | lib/request_interceptor/transaction.rb:59-70 | The body matcher sees the decoded body exactly when Content-Type is "application/json". Otherwise it sees the raw body. |
| `Matchers.InterceptedRequest.constructor` | lib/request_interceptor/matchers.rb:19-24 | A new matcher has range 1..Infinity, no query or body matcher, and no transactions. |
| `Matchers.InterceptedRequest.Count` | lib/request_interceptor/matchers.rb:30-44 | No argument returns the range unchanged. An Integer n sets n..n and a Range sets itself; both return the receiver. Anything else raises ArgumentError and changes nothing. |
| `Matchers.InterceptedRequest.WithQuery` | lib/request_interceptor/matchers.rb:46-57 | Records the query matcher and returns the receiver. |
| `Matchers.InterceptedRequest.WithBody` | lib/request_interceptor/matchers.rb:59-70 | Records the body matcher and returns the receiver. |
| `Matchers.InterceptedRequest.Matches` | lib/request_interceptor/matchers.rb:76-79 | Stores the transactions and is true exactly when the count range covers the number of matching transactions. |
| `Matchers.Covers` | lib/request_interceptor/matchers.rb:78 | `Range#cover?` on a count range: at least `first`, and below or up to the end, depending on whether the end is excluded. `DefaultCountMeansAtLeastOne` and `ExactlyMeansEqual` state it for the two ranges the matcher builds. |
| `Matchers.Exactly` | lib/request_interceptor/matchers.rb:35-36 | The range `n..n` that `count(n)` builds for an Integer. |
| `Matchers.IsSimilar` | lib/request_interceptor/matchers.rb:144-147 | The condition of `similar_transactions`: `method?` and `path?` both hold. |
| `Matchers.IsMatching` | lib/request_interceptor/matchers.rb:134-140 | The condition of `matching_transactions`: `method?`, `path?`, `query?` and `body?` all hold. |
| `Matchers.Similar` | lib/request_interceptor/matchers.rb:143-148 | `select` with the similar condition, in recorded order. `SimilarMembers` and `MatchingWithinSimilar` state what it keeps. |
| `Matchers.Matching` | lib/request_interceptor/matchers.rb:133-141 | `select` with the matching condition, in recorded order. `MatchingMembers`, `MatchingNarrowsSimilar` and `AllMatching` state what it keeps. |
| `Matchers.InterceptedRequest.SimilarTransactions` | lib/request_interceptor/matchers.rb:143-148 | `similar_transactions` on the stored transactions, with the matcher's method and path. |
| `Matchers.InterceptedRequest.MatchingTransactions` | lib/request_interceptor/matchers.rb:133-141 | `matching_transactions` on the stored transactions, with the matcher's method, path, query and body. |
| `Matchers.InterceptedRequest.Description` | lib/request_interceptor/matchers.rb:115-117 | `description` names the upper-cased method and the path. `DescriptionUpcasesMethod` and `NegatedMessageMirrorsExpected` state its form. |
| `Matchers.InterceptedRequest.ExpectedRequest` | lib/request_interceptor/matchers.rb:82-85 | The "expected:" request: the upper-cased method, the path, then the query and body clauses. |
| `Matchers.InterceptedRequest.FailureMessage` | lib/request_interceptor/matchers.rb:81-105 | `failure_message`: the expected request, then the "got:" lines joined by newlines. `FailureMessageWithoutSimilar` states the case with no similar transaction. |
| `Matchers.InterceptedRequest.FailureMessageWhenNegated` | lib/request_interceptor/matchers.rb:107-113 | `failure_message_when_negated`: "intercepted a <METHOD> request to <path>" followed by the same clauses as the expected request, as `NegatedMessageMirrorsExpected` states. |
| `Matchers.Clauses` | lib/request_interceptor/matchers.rb:83-85 | The query and body clauses shared by both messages. `ClausesShapes` lists their four shapes. |
| `Matchers.SimilarLine` | lib/request_interceptor/matchers.rb:88-98 | One "got:" line: method, path, "with no query" for an empty query, "and with no body" for a nil or empty body, and ten spaces of indentation after the first line. |
| `Matchers.NoQueryStringListedWithoutQuery` | lib/request_interceptor/matchers.rb:94-95 | With a parser that reads a nil query as `{}`, the first similar request without a query string is listed as "<METHOD> <path> with no query". |
| `Matchers.GotLines` | lib/request_interceptor/matchers.rb:87-101 | The "got:" list: the similar lines, or ["none"] when there are none. `GotLinesLayout` states its layout. |
| `Matchers.DefaultCountMeansAtLeastOne` | lib/request_interceptor/matchers.rb:76-78 | With the default range, `matches?` holds exactly when at least one transaction matches. |
| `Matchers.ExactlyMeansEqual` | lib/request_interceptor/matchers.rb:33-37 | The range made by `count(n)` covers exactly n. |
| `Matchers.TwoMatchingTransactions` | spec/rspec_matchers_spec.rb:15-26 | With two matching transactions, count(2) is met, count(1) is not, and the default range is met. |
| `Matchers.MatchingNarrowsSimilar` | lib/request_interceptor/matchers.rb:133-148 | The matching transactions are, in input order, the similar ones whose query and body also match. |
| `Matchers.MatchingMembers` | lib/request_interceptor/matchers.rb:133-141 | A transaction is matching if and only if it was recorded and all four predicates hold for it. |
| `Matchers.SimilarMembers` | lib/request_interceptor/matchers.rb:143-148 | A transaction is similar if and only if it was recorded and its method and path match. |
| `Matchers.MatchingWithinSimilar` | lib/request_interceptor/matchers.rb:133-148 | Matching is a subset of similar, and similar is no larger than the input. |
| `Matchers.NoMatchersMatchingIsSimilar` | lib/request_interceptor/matchers.rb:133-148 | With no query or body matcher, matching equals similar. |
| `Matchers.AllMatching` | lib/request_interceptor/matchers.rb:133-141 | When every transaction satisfies the four predicates, all of them are matching, in order. |
| `Matchers.ClausesShapes` | lib/request_interceptor/matchers.rb:82-85 | The query and body clauses take four shapes. " and" appears only when both matchers are set. |
| `Matchers.SimilarLines` | lib/request_interceptor/matchers.rb:87-99 | One line per similar transaction, each built from that transaction and its index. |
| `Matchers.GotLinesLayout` | lib/request_interceptor/matchers.rb:87-101 | "got:" lists one line per similar transaction, or "none" when there is none. Lines after the first are indented by ten spaces. |
| `Matchers.FailureMessageWithoutSimilar` | lib/request_interceptor/matchers.rb:101-104 | With no similar transaction, the failure message ends "got: none". |
| `Matchers.NegatedMessageMirrorsExpected` | lib/request_interceptor/matchers.rb:81-117 | The expected line, the negated message and the description name the same upper-cased method and path. The two messages also share the same clauses. |
| `Matchers.DescriptionUpcasesMethod` | lib/request_interceptor/matchers.rb:115-117 | The description for ("post", "/articles") is "should intercept a POST request to /articles". |
| `WebMock.FlagFollowsLastCall` | lib/request_interceptor/webmock_patches.rb:2-14 | After any sequence of enable!/disable! calls, the flag is a boolean that reflects the most recent call. With no call the flag is unchanged. |
| `WebMock.FlagAfter` | lib/request_interceptor/webmock_patches.rb:2-10 | `@enabled` after a sequence of patched calls. `FlagFollowsLastCall` states that the last call decides it. |
| `WebMock.IsEnabled` | lib/request_interceptor/webmock_patches.rb:12-14 | `enabled?` is `!!@enabled`, so an unset flag and false both read as false. |
| `WebMock.WebMock.Enabled` | lib/request_interceptor/webmock_patches.rb:12-14 | `enabled?` on the current state. The constructor, `Enable` and `Disable` state its value. |
| `WebMock.WebMock.constructor` | lib/request_interceptor/webmock_patches.rb:12-14 | Before either patched method has been called, `@enabled` is nil and `enabled?` is false. |
| `WebMock.WebMock.Enable` | lib/request_interceptor/webmock_patches.rb:2-5 | After `enable!`, `enabled?` is true. |
| `WebMock.WebMock.Disable` | lib/request_interceptor/webmock_patches.rb:7-10 | After `disable!`, `enabled?` is false. |
| `WebMock.WebMock.StubRequest` | lib/request_interceptor/webmock_manager.rb:37 | A new stub goes in front of the existing ones. |
| `WebMock.WebMock.AfterRequest` | lib/request_interceptor/webmock_manager.rb:34 | A callback goes after the existing ones. |
| `WebMock.WebMock.ResetCallbacks` | lib/request_interceptor/webmock_manager.rb:53 | The callback registry becomes empty. |
| `WebMock.WebMock.AllowNetConnect` | lib/request_interceptor/webmock_manager.rb:40 | Sets allow_net_connect. |
| `WebMock.WebMock.HideBodyDiff` | lib/request_interceptor/webmock_manager.rb:41 | Clears show_body_diff. |
| `WebMock.WebMock.HideStubbingInstructions` | lib/request_interceptor/webmock_manager.rb:42 | Clears show_stubbing_instructions. |
| `WebMockSession.Setup` | lib/request_interceptor/webmock_manager.rb:24-46 | The snapshot is taken from the state before any change. The new state is that state with one stub per application, the callback only if given, net connect on, both diagnostics hidden, and WebMock enabled (also setup_webmock.rb:28-50). |
| `WebMockSession.Teardown` | lib/request_interceptor/webmock_manager.rb:48-59 | Restores the four flags, resets and replays the snapshot's callbacks, restores the stubs, and disables only if WebMock was not enabled before (also setup_webmock.rb:52-63). |
| `WebMockSession.Run` | lib/request_interceptor/webmock_manager.rb:9-15 | The final state is the block's final state with the snapshot restored, whether the block returned or raised. The block's outcome is passed on. |
| `WebMockSession.Capture` | lib/request_interceptor/webmock_manager.rb:25-32 | The snapshot: copies of both registries, the four flags and `enabled?`, taken from the state before setup (also setup_webmock.rb:29-36). |
| `WebMockSession.StubFor` | lib/request_interceptor/webmock_manager.rb:37 | The stub for an application, under the application's own pattern. |
| `WebMockSession.StubsNewestFirst` | lib/request_interceptor/webmock_manager.rb:36-38 | The stubs the loop adds, newest first. `SetupStubOrder` and `StubsLength` state their order and number. |
| `WebMockSession.SetupState` | lib/request_interceptor/webmock_manager.rb:34-43 | The state setup leaves (also setup_webmock.rb:38-47). `SetupFlags` and `SetupStubOrder` state its parts, and `Setup` is proved to reach it. |
| `WebMockSession.TeardownState` | lib/request_interceptor/webmock_manager.rb:49-58 | The state teardown leaves (also setup_webmock.rb:53-62). `TeardownRestoresSnapshot` states what it restores, and `Teardown` is proved to reach it. |
| `WebMockSession.SetupStubOrder` | lib/request_interceptor/webmock_manager.rb:36-38 | Setup adds exactly one stub per application, newest first, ahead of the stubs already registered, which are unchanged. |
| `WebMockSession.StubsLength` | lib/request_interceptor/webmock_manager.rb:36-38 | The stub registration adds as many stubs as there are applications. |
| `WebMockSession.SetupFlags` | lib/request_interceptor/webmock_manager.rb:34-43 | After setup, allow_net_connect is true, both diagnostics are false and WebMock is enabled. allow_localhost is untouched, and the callback is added only if it is not nil. |
| `WebMockSession.TeardownRestoresSnapshot` | lib/request_interceptor/webmock_manager.rb:48-59 | Teardown gives back the four flags, the callbacks in order and the stubs of the snapshot. WebMock ends up enabled exactly when it was enabled before and the block left it enabled. |
| `WebMockSession.SessionRoundTrip` | lib/request_interceptor/webmock_manager.rb:9-15 | Whatever else the block does, if it leaves WebMock enabled, the state after the session agrees with the state before on everything observable. |
| `WebMockSession.NestedSessionRestoresOuter` | lib/request_interceptor/webmock_manager.rb:9-59 | A session nested inside another hands back exactly the outer session's state, provided the inner block leaves WebMock enabled. |
| `WebMockManager.WebMockManager.constructor` | lib/request_interceptor/webmock_manager.rb:4-7 | Keeps the applications and the optional callback. |
| `WebMockManager.WebMockManager.RunSimulation` | lib/request_interceptor/webmock_manager.rb:9-15 | `run_simulation` runs a whole session: the final state is the block's final state with the snapshot restored, on either exit. If the block leaves WebMock enabled, everything observable is as before. |
| `SetupWebmock.SetupWebmock.constructor` | lib/request_interceptor/setup_webmock.rb:8-11 | Keeps the applications and the optional callback. |
| `SetupWebmock.SetupWebmock.Perform` | lib/request_interceptor/setup_webmock.rb:13-19 | `perform` runs a whole session, and `reset_webmock` restores the snapshot on every exit. If the block leaves WebMock enabled, everything observable is as before. |
| `SetupWebmock.PerformWith` | lib/request_interceptor/setup_webmock.rb:4-6 | The class-level `perform` builds an instance and performs the same session. |
| `Runner.FindApplication` | lib/request_interceptor/runner.rb:53 | Gives the first application, in constructor order, whose hostname pattern matches the Host header, or none if none matches. |
| `Runner.HostMatches` | lib/request_interceptor/runner.rb:53 | `app.hostname_pattern === request["Host"]`. A missing Host header matches no pattern. |
| `Runner.Dispatch` | lib/request_interceptor/runner.rb:53-62 | Routing and the method gate: find the application, then answer a GET from Rack with the path, or raise for any other method. `DispatchCases` states each case. |
| `Runner.FirstMatchWins` | lib/request_interceptor/runner.rb:17-19 | An application is chosen when it matches and no earlier one does, even if later ones also match. |
| `Runner.DispatchCases` | lib/request_interceptor/runner.rb:52-62 | A non-GET method fails with "Simulating <method> is not supported". A GET goes to the chosen application with the request's path. |
| `Runner.HTTPResponse.constructor` | lib/request_interceptor/runner.rb:65 | The response starts with its status line and has no fields and no body. |
| `Runner.HTTPResponse.AddField` | lib/request_interceptor/runner.rb:66 | `add_field` adds one field after the existing ones. |
| `Runner.BuildResponse` | lib/request_interceptor/runner.rb:65-67 | A fresh response with version "1.1" and the given status line. Every Rack header is added in order, and the body is kept verbatim. |
| `Runner.Request` | lib/request_interceptor/runner.rb:52-71 | The error cases pass through. On success, the response has "1.1" and the status value and description, all handler headers in order, and the body verbatim. A given block gets exactly that response, once. |
| `Runner.AsWrittenResponseMessage` | lib/request_interceptor/runner.rb:64-65 | As written, the lookup at runner.rb:64 gives every simulated response the message "Unknown", with the same code string. For a 200 answer the corrected lookup gives "OK". |
| `Runner.Run` | lib/request_interceptor/runner.rb:21-50 | The simulation runs with the three patched methods, and the original request, start and finish methods are all back afterwards on either exit. |
| `Runner.Patched` | lib/request_interceptor/runner.rb:28-43 | The three methods `run` installs: `request` forwards to this runner, plus the simulated `start` and `finish`. |
| `Runner.NetHTTP.constructor` | lib/request_interceptor/runner.rb:24-26 | Net::HTTP with its three instance-method slots holding the given definitions. |
| `Runner.NetHTTP.Current` | lib/request_interceptor/runner.rb:24-26 | The three slots `request`, `start` and `finish`. It has no contract of its own. `Runner.Run` and the constructor state their values. |

## Left out

- The response class lookup of status.rb:72-93 is not modelled. It builds subclasses of Net::HTTP's response classes, which are not part of this model. The runner's response therefore has no class.
- Regular-expression matching, Rack's nested-query parser with `deep_symbolize_keys!`, ActiveSupport's JSON decoder and RSpec's object formatter are parameters (the `Libraries` record). A decoding error is not modelled. Nothing is assumed about the nested-query parser. Rack gives `{}` for a nil query, and lemmas that rely on this require `RubyObjects.ParsesNilQueryAsEmpty`.
- `with_query` and `with_body` take an already-built matcher. Wrapping a plain value in `RSpec::Matchers::BuiltIn::Eq`, and `MatcherWrapper` itself (matchers.rb:2-10, 47-54, 60-67), are RSpec internals. The `RSpec.configure` hook is left out for the same reason.
- `Matchers.InterceptedRequest.Count`: only Ranges with integer bounds, an infinite end and an optional excluded end are modelled. Beginless ranges and float bounds are not.
- `RubyObjects.PatternToS` writes a Regexp as `(?-mix:source)`, which is right only for a Regexp without the `i`, `m` or `x` flags. Flags are not modelled.
- `RubyText.Upcase` maps only ASCII letters, not the full Unicode upper-casing of `String#upcase`.
- SmartProperties type checks (`accepts: URI`, `required: true`) are left out except for upper-casing the method, and the types make the required fields present. A Transaction with a nil request is not modelled.
- `Runner.Request`: the response message comes from the corrected `Status.FromCode`, not from the lookup as written at runner.rb:64, which always gives "Unknown" (see Findings). `Runner.AsWrittenResponseMessage` states the as-written message.
- `Runner.HTTPResponse.AddField`: a name added twice is kept as two fields. Net::HTTP's merging of values under one name, and its downcasing of names, are not modelled.
- `Runner.Request`: `request["Host"]` is taken as given, so Net::HTTP's case-insensitive header lookup is not modelled. The unused `body` argument is left out. The block is represented by the list of responses it is given.
- `Runner.Request`: with no matching application, the model returns `NoApplication` where Rack fails on nil. There is no pass-through path.
- The simulated `start` and `finish` bodies (runner.rb:29-38) are represented only by which method occupies each slot. `SocketSimulator` (runner.rb:7-11) is unused and left out.
- `WebMockSession.SessionRoundTrip`: the law is stated for observable state, not for `@enabled` itself, because teardown turns an unset flag into false. If WebMock was enabled before and the block disables it, teardown leaves it disabled, so the law needs the block to leave WebMock enabled.
- `WebMockSession.NestedSessionRestoresOuter`: for the same reason, the outer state is handed back only when the inner block leaves WebMock enabled. If the inner block disables it, the outer block resumes with WebMock disabled.
- `WebMockManager.WebMockManager.RunSimulation` and `SetupWebmock.SetupWebmock.Perform` state the round-trip law under the same condition.
- A setup that raises part-way, with `teardown(nil)` in `ensure` (webmock_manager.rb:10-14), is not modelled.
- `disabled?` (webmock_patches.rb:16-18) is left out: it calls `enabled`, not `enabled?`. The adapter switching that the patched methods reach through `super` is WebMock's own and is not modelled either.
- WebMock configuration outside the snapshot is not modelled, such as any setting `allow_net_connect!` changes besides `allow_net_connect`. The `|| []` fallbacks at webmock_manager.rb:27-28 cannot apply to registries, which are always lists.
- The definition DSL (request_interceptor.rb, application.rb, interceptor_definition.rb) and interrupter.rb are not part of this model.
- Nothing in the modelled code is concurrent.

## Findings

| source | as written | input that shows it | evidently intended | confidence | as-written member | corrected member |
|---|---|---|---|---|---|---|
| lib/request_interceptor/status.rb:68 | `STATUSES.fetch(code.to_s, "Unknown")` looks up a String, but the `"100": …` keys of the hash are Symbols, so the lookup always misses | `from_code(404)` gives description "Unknown", not "Not Found" | the table's reason phrase, e.g. "Not Found" for 404 | high; not executed | `Status.AsWrittenMisses404` | `Status.FromCode` |

`Status.FromCodeAsWritten` is the as-written lookup, and `Status.AsWrittenNeverHitsTable`
proves that it never hits the table. `Status.FromCode` is the corrected lookup. Its own
contract, `Status.FromCodeHitsTable` and `Status.UnassignedEntries` state its table hits.
