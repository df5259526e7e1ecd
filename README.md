# Project Honey Pot http:BL client, modelled in Dafny

This project models `ProjectHoneyPot`, a PHP class that checks an IPv4 address against
Project Honey Pot's http:BL DNS blacklist. The class works in four steps:

1. It validates the address.
2. It builds a lookup host: the access key, the address's groups in reverse order, and
   `dnsbl.httpbl.org`. This is the reversed-octet query form of section 2.1 of RFC 5782,
   with the key in front.
3. It resolves the host. A host echoed back by the resolver means there is no record, and
   becomes the sentinel `127.0.0.1`.
4. It decodes the answer `127.D.T.V` into days since last activity (D), a threat score (T)
   and a visitor-type bitmask (V), then classifies the visitor.

The model has four modules:

- `Sequences` (sequences.dfy): PHP's `explode`, `implode` and `array_reverse`, written as
  `Split`, `Join` and `Reverse`, with the laws that make them inverse to each other.
- `Decimal` (decimal.dfy): PHP's `(int)` cast of a digit string (`Value`) and the canonical
  decimal rendering a resolver writes (`Render`).
- `Bits` (bits.dfy): PHP's `&` on non-negative integers (`BitAnd`), proved to work bit by
  bit against a reference predicate `Bit`: bit k of `a & b` is set exactly when bit k is set
  in both.
- `HoneyPot` (honeypot.dfy): the address syntax, the lookup-host and answer formats, and
  the `ProjectHoneyPot` class itself.

The class keeps the fields of the PHP class.

- The constructor can throw, so it becomes the static method `Create`. `Create` returns a
  `Result`: the new object, or the kind of exception thrown.
- `Lookup` is a method that writes the `searchHost` field. It is specified by the pure
  function `RawResponse`.
- The getters and the `is*` predicates are functions over the fields. Each `is*` predicate
  states, in its own contract, which bits of the visitor type it tests. These contracts, the
  search-engine exclusivity and the engine naming hold for any object. The decoding lemmas
  and the test scenarios are stated over an object in the state that a successful
  construction leaves (`Valid`).
- A few methods run construction end to end with a fixed resolver, the way the tests do.

The DNS resolver is a parameter of type `string -> string`. It stands for what
`@gethostbyname` returns for a host name.

Where the code and its documentation disagree, the model follows the code.

- The documentation and the test suite treat visitor type 4 (bit 2) as a comment spammer.
  The code masks with `COMMENT_SPAMMER = 3`. This is recorded under "## Findings".
- An engine index of 13 or more falls outside the 13-name table. The code just indexes the
  table; the model states the bound as a precondition and adds no error kind.

## Model

| member | source | states |
|---|---|---|
| Sequences.Split | ProjectHoneyPot.php:59 | `explode` always returns at least one piece, and no piece contains the separator |
| Sequences.Join | ProjectHoneyPot.php:79 | `implode`: the parts with one separator between neighbours; characterised by `JoinSplit`, `SplitJoin` and `JoinAppend` |
| Sequences.Reverse | ProjectHoneyPot.php:79 | `array_reverse`: same length, element i is element n-1-i of the input |
| Sequences.ReverseInvolutive | ProjectHoneyPot.php:79 | reversing the groups twice restores them |
| Sequences.JoinSplit | ProjectHoneyPot.php:79 | `implode(sep, explode(sep, s)) == s` for every string |
| Sequences.SplitJoin | ProjectHoneyPot.php:79 | `explode` undoes `implode` for every non-empty list whose parts lack the separator |
| Sequences.SplitAround | ProjectHoneyPot.php:80 | splitting at one separator splits the two sides independently |
| Sequences.ThreeAround | ProjectHoneyPot.php:80 | splitting the three-part host splits each part independently |
| Sequences.JoinAppend | ProjectHoneyPot.php:239-240 | joining two non-empty lists puts one separator between their joins |
| Decimal.Value | ProjectHoneyPot.php:66-68 | the `(int)` cast of a digit string, most significant digit first; characterised by `ValueRender` |
| Decimal.Render | ProjectHoneyPot.php:66-68 | the rendering of a number is a non-empty digit string |
| Decimal.ValueRender | ProjectHoneyPot.php:66-68 | the `(int)` cast of a rendered number gives back the number |
| Bits.BitAnd | ProjectHoneyPot.php:157 | PHP's `&` on non-negative integers; characterised bit by bit by `BitAndBits` |
| Bits.BitAndBits | ProjectHoneyPot.php:157 | bit k of `a & b` is set exactly when bit k is set in both `a` and `b` |
| Bits.NoBitsIsZero | ProjectHoneyPot.php:196 | a number is zero exactly when none of its bits is set |
| Bits.BitAndPow2 | ProjectHoneyPot.php:157 | `n & 2^k` is non-zero exactly when bit k of n is set |
| Bits.BitAndThree | ProjectHoneyPot.php:215 | `n & 3` is non-zero exactly when bit 0 or bit 1 of n is set |
| HoneyPot.IsIPv4 | ProjectHoneyPot.php:51-53 | the address test: four non-empty decimal groups of at most 255; characterised on written quads by `QuadIsIPv4` |
| HoneyPot.SplitQuad | ProjectHoneyPot.php:59 | a written dotted quad explodes into its four rendered groups |
| HoneyPot.QuadIsIPv4 | ProjectHoneyPot.php:51-53 | a written dotted quad is a valid address exactly when each group is at most 255 |
| HoneyPot.BadDataRejected | unit-tests/ProjectHoneyPotTest.php:16-19 | `'Bad Data'` is not a valid address |
| HoneyPot.ReverseOctetsRestores | ProjectHoneyPot.php:79 | the reversed middle explodes to the reversed groups, and reversing it again gives back the address |
| HoneyPot.ReverseQuad | ProjectHoneyPot.php:79 | the middle of the host for `a.b.c.d` is `d.c.b.a` |
| HoneyPot.SearchHost | ProjectHoneyPot.php:79-80 | the lookup host `key.<reversed groups>.dnsbl.httpbl.org`; characterised by `SearchHostLabels` and `ReverseOctetsRestores` |
| HoneyPot.SearchHostLabels | ProjectHoneyPot.php:80 | the host's labels are the key's labels, then the address groups reversed, then `dnsbl`, `httpbl`, `org` |
| HoneyPot.SearchHostExample | ProjectHoneyPot.php:254 | `96.47.224.218` is looked up as `<key>.218.224.47.96.dnsbl.httpbl.org` |
| HoneyPot.SearchHostNotAddress | ProjectHoneyPot.php:80-83 | a lookup host is never a dotted quad, so an echoed host is never mistaken for an answer |
| HoneyPot.RawResponse | ProjectHoneyPot.php:77-88 | the value `lookup` returns for a resolver; characterised by `RawResponseCases` |
| HoneyPot.RawResponseCases | ProjectHoneyPot.php:81-87 | the raw response is `127.0.0.1` exactly when the resolver echoed the host or answered `127.0.0.1`; otherwise it is the resolver's answer, and a dotted-quad answer always comes through unchanged |
| HoneyPot.StubbedResolver | ProjectHoneyPot.php:81-87 | a resolver that answers a fixed dotted quad yields that quad as the raw response |
| HoneyPot.Accepted | ProjectHoneyPot.php:59-64 | the constructor's test of the answer: a dotted quad whose first group is 127; characterised on written quads by `AcceptedQuad` |
| HoneyPot.AcceptedQuad | ProjectHoneyPot.php:62-64 | a written answer passes the first-octet check exactly when it is `127.D.T.V` with octets D, T, V |
| HoneyPot.SentinelAccepted | ProjectHoneyPot.php:16 | the sentinel is the quad `127.0.0.1` and passes the first-octet check |
| HoneyPot.EnginesHead | ProjectHoneyPot.php:239 | the first four engine names joined with a bar are the first piece of the packed list |
| HoneyPot.EnginesMiddle | ProjectHoneyPot.php:239 | the next four names joined are the second piece |
| HoneyPot.EnginesTail | ProjectHoneyPot.php:239 | the last five names joined are the third piece |
| HoneyPot.EngineListJoin | ProjectHoneyPot.php:239 | the packed engine list is the thirteen names joined with a bar |
| HoneyPot.EngineNamesUnpacked | ProjectHoneyPot.php:239 | no engine name contains the bar that separates them |
| HoneyPot.ProjectHoneyPot.constructor | ProjectHoneyPot.php:56-57 | the new object records the address and the key; every other field is empty |
| HoneyPot.ProjectHoneyPot.Create | ProjectHoneyPot.php:48-70 | an invalid address fails with `InvalidAddress`; an answer that fails the first-octet check fails with `UnexpectedResponse(ip, raw)`; otherwise a fresh object with the given address and key, the raw response of the lookup, and octets 2-4 decoded into its fields |
| HoneyPot.ProjectHoneyPot.Lookup | ProjectHoneyPot.php:77-88 | records the lookup host in `searchHost`, and returns the resolver's answer with an echoed host replaced by the sentinel |
| HoneyPot.ProjectHoneyPot.GetThreatScore | ProjectHoneyPot.php:101-103 | the threat-score field; `DecodedFields` shows it is octet 3 of the answer |
| HoneyPot.ProjectHoneyPot.GetVisitorType | ProjectHoneyPot.php:121-123 | the visitor-type field; `DecodedFields` shows it is octet 4 of the answer |
| HoneyPot.ProjectHoneyPot.HasRecord | ProjectHoneyPot.php:137-139 | whether the raw response differs from the sentinel; `NoRecord` and `EchoedHostNoRecord` give the consequences of its being false |
| HoneyPot.ProjectHoneyPot.IsSuspicious | ProjectHoneyPot.php:155-158 | holds exactly for a record with bit 0 of the visitor type set |
| HoneyPot.ProjectHoneyPot.IsHarvester | ProjectHoneyPot.php:175-178 | holds exactly for a record with bit 1 of the visitor type set |
| HoneyPot.ProjectHoneyPot.IsSearchEngine | ProjectHoneyPot.php:195-197 | holds exactly for a record whose visitor type has no bit set |
| HoneyPot.ProjectHoneyPot.IsCommentSpammer | ProjectHoneyPot.php:214-216 | as written, holds exactly for a record with bit 0 or bit 1 of the visitor type set |
| HoneyPot.ProjectHoneyPot.IsCommentSpammerIntended | ProjectHoneyPot.php:112 | the documented comment-spammer test: holds exactly for a record with bit 2 set |
| HoneyPot.ProjectHoneyPot.Engines | ProjectHoneyPot.php:239-240 | exploding the packed list gives the thirteen names in order |
| HoneyPot.ProjectHoneyPot.GetSearchHost | ProjectHoneyPot.php:259-261 | the recorded lookup host; characterised by `SearchHostOfQuery` |
| HoneyPot.ProjectHoneyPot.GetSearchEngine | ProjectHoneyPot.php:233-245 | there is a name (rather than PHP's `false`) exactly when the visitor is a search engine |
| HoneyPot.DecodedFields | ProjectHoneyPot.php:66-68 | an accepted answer `127.D.T.V` gives last activity D, threat score T and visitor type V |
| HoneyPot.NoRecord | ProjectHoneyPot.php:137-216 | with no record, the sentinel decodes to 0/0/1, whose suspicious bit is set, yet every `is*` is false and there is no engine name |
| HoneyPot.EchoedHostNoRecord | ProjectHoneyPot.php:83-85 | when the resolver echoes the host, the query has no record and no classification |
| HoneyPot.SearchHostOfQuery | ProjectHoneyPot.php:259-261 | the recorded host is `key.<reversed address>.dnsbl.httpbl.org`, and reversing its middle restores the address |
| HoneyPot.CommentSpammerAsWritten | ProjectHoneyPot.php:214-216 | as written, `isCommentSpammer` holds exactly when `isSuspicious` or `isHarvester` holds |
| HoneyPot.SearchEngineExclusive | ProjectHoneyPot.php:195-197 | `isSearchEngine` holds exactly for a record with visitor type 0, and then none of the other tests holds |
| HoneyPot.HybridType | ProjectHoneyPot.php:18-21 | visitor type 7 sets every flag and is not a search engine |
| HoneyPot.SearchEngineName | ProjectHoneyPot.php:239-243 | a search engine with index below 13 is named by entry T of the table |
| HoneyPot.GoogleEngine | ProjectHoneyPot.php:226-227 | engine index 5 is Google |
| HoneyPot.ThreatScoreScenario | unit-tests/ProjectHoneyPotTest.php:25-26 | the answer `127.1.80.1` gives threat score 80 |
| HoneyPot.SearchEngineScenario | unit-tests/ProjectHoneyPotTest.php:33-34 | the answer `127.1.1.0` is a search engine |
| HoneyPot.SuspiciousScenario | unit-tests/ProjectHoneyPotTest.php:41-42 | the answer `127.1.1.1` is suspicious and not a harvester |
| HoneyPot.HarvesterScenario | unit-tests/ProjectHoneyPotTest.php:48-49 | the answer `127.1.1.2` is a harvester |
| HoneyPot.CommentSpammerScenario | unit-tests/ProjectHoneyPotTest.php:55-56 | the answer `127.1.1.4` is not a comment spammer as written, and is one under the documented mask |
| HoneyPot.HybridScenario | unit-tests/ProjectHoneyPotTest.php:62-65 | the answer `127.1.1.7` is a harvester, a comment spammer and suspicious |
| HoneyPot.LastActivityScenario | unit-tests/ProjectHoneyPotTest.php:71-72 | the answer `127.20.1.1` gives last activity 20 |
| HoneyPot.GoogleScenario | unit-tests/ProjectHoneyPotTest.php:77-78 | any answer `127.D.5.0` is a search engine with index 5, named Google |
| HoneyPot.ThreatScoreQuery | unit-tests/ProjectHoneyPotTest.php:25-26 | constructing for `127.1.80.1`, answered with itself, succeeds and gives threat score 80 |
| HoneyPot.EchoedQuery | ProjectHoneyPot.php:83-85 | constructing for any valid address with a resolver that echoes the host succeeds with no record and not suspicious |
| HoneyPot.RejectedQuery | ProjectHoneyPot.php:62-64 | constructing for any valid address answered with `128.0.7.0` fails with `UnexpectedResponse` carrying the address and that answer |
| HoneyPot.BadDataQuery | unit-tests/ProjectHoneyPotTest.php:16-19 | constructing for `'Bad Data'` fails with `InvalidAddress`, whatever the resolver |

## Left out

- `gethostbyname` and its `@` error suppression (ProjectHoneyPot.php:81) are network I/O. The resolver is a parameter of `Create` and `Lookup`.
- `filter_var` with `FILTER_VALIDATE_IP` and `FILTER_FLAG_IPV4` is a library call. `IsIPv4` states it as exactly four non-empty decimal groups, each at most 255. Unlike PHP, it accepts groups with leading zeros.
- PHP's loose `!=` between a string and 127, and `(int)` of arbitrary strings, are left out. An answer that fails `IsIPv4` fails with `UnexpectedResponse`. PHP reads missing indexes when the answer has fewer than four groups. Otherwise PHP decodes whatever `(int)` makes of groups 2-4, as with `127.1.1.300`, `127.1.2.3.4` or `127.a.b.c`.
- HoneyPot.ProjectHoneyPot.GetSearchEngine: it requires an index below 13 for a search engine. For a larger index, PHP returns `null` with a notice, and that is not modelled.
- HoneyPot.ProjectHoneyPot.GetSearchEngine: it indexes the table by the decoded threat score. PHP indexes it by the string `response[2]`. The two agree on a canonical group; a group with leading zeros is not modelled.
- The exception messages (ProjectHoneyPot.php:52 and 63) are not modelled. Only the kind of failure is kept, with the address and raw response for `UnexpectedResponse`.
- The tests call `getLastActivity()` (unit-tests/ProjectHoneyPotTest.php:72), which the class does not define. The model reads the `lastActivity` field instead, and `PROJECT_HONEY_POT_API_KEY` becomes an arbitrary key.
- The test scenarios are stated over the decoded answer that the service returns for each test address. The service's answers themselves are outside the model. The test at unit-tests/ProjectHoneyPotTest.php:77 queries `64.233.173.197`, whose answer the source does not give, so `GoogleScenario` holds for every last-activity octet.
- `ENGINE_LIST` holds the packed engine list of line 239, written as three concatenated pieces. It is the same string value.

## Findings

| source | as written | input that shows it | evidently intended | confidence | as-written member | corrected member |
|---|---|---|---|---|---|---|
| ProjectHoneyPot.php:21 | `COMMENT_SPAMMER = 3`, so `isCommentSpammer` tests bits 0 and 1 (it equals `isSuspicious` or `isHarvester`) | the answer `127.1.1.4` (visitor type 4, documented at line 112 as a comment spammer and expected true by unit-tests/ProjectHoneyPotTest.php:55-56) gives `false` | mask 4, bit 2 of the visitor type | not executed | HoneyPot.CommentSpammerScenario | HoneyPot.ProjectHoneyPot.IsCommentSpammerIntended |

The documentation examples also disagree with each other. The example at ProjectHoneyPot.php:185-187 calls `127.0.7.0` a search engine. The example at ProjectHoneyPot.php:204-206 calls the same address a comment spammer. `HoneyPot.SearchEngineExclusive` proves that no record is both, under either mask.
