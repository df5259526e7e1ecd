/** A client for Project Honey Pot's http:BL blacklist. An IPv4 address is
    looked up as a DNS name built from an access key and the address's
    octets in reverse order (the reversed-octet query form of section 2.1
    of RFC 5782, with the key in front); the answer is a pseudo address
    `127.D.T.V` carrying days since last activity, a threat score and a
    visitor-type bitmask, which the client decodes and classifies.

    The resolver is a parameter: a total function from the host name to
    the string the system's `gethostbyname` would return. */
module HoneyPot {
  import opened Sequences
  import opened Decimal
  import opened Bits

  datatype Option<+T> = None | Some(value: T)

  datatype Result<+T, +E> = Success(value: T) | Failure(error: E)

  /** The two ways construction fails, one per exception the constructor throws. */
  datatype Error =
    | InvalidAddress
    | UnexpectedResponse(ip: string, response: string)

  /** `filter_var($ip, FILTER_VALIDATE_IP, FILTER_FLAG_IPV4)`, stated as
      exactly four non-empty decimal groups of at most 255 each. */
  predicate IsIPv4(s: string)
  {
    var parts := Split(s, '.');
    |parts| == 4 && forall i :: 0 <= i < 4 ==> IsDecimal(parts[i]) && Value(parts[i]) <= 255
  }

  /** The dotted quad `a.b.c.d` as a resolver writes it. */
  function Quad(a: nat, b: nat, c: nat, d: nat): string
  {
    Join([Render(a), Render(b), Render(c), Render(d)], '.')
  }

  /** A written dotted quad splits back into its four rendered groups. */
  lemma SplitQuad(a: nat, b: nat, c: nat, d: nat)
    ensures Split(Quad(a, b, c, d), '.') == [Render(a), Render(b), Render(c), Render(d)]
  {
    var parts := [Render(a), Render(b), Render(c), Render(d)];
    forall i | 0 <= i < 4 ensures '.' !in parts[i] {
      NoNonDigit(parts[i], '.');
    }
    SplitJoin(parts, '.');
  }

  /** A written dotted quad is a valid address exactly when every group fits in an octet. */
  lemma QuadIsIPv4(a: nat, b: nat, c: nat, d: nat)
    ensures IsIPv4(Quad(a, b, c, d)) <==> a <= 255 && b <= 255 && c <= 255 && d <= 255
  {
    SplitQuad(a, b, c, d);
    var parts := Split(Quad(a, b, c, d), '.');
    ValueRender(a);
    ValueRender(b);
    ValueRender(c);
    ValueRender(d);
    assert Value(parts[0]) == a && Value(parts[1]) == b && Value(parts[2]) == c && Value(parts[3]) == d;
    if a <= 255 && b <= 255 && c <= 255 && d <= 255 {
      forall i | 0 <= i < 4 ensures IsDecimal(parts[i]) && Value(parts[i]) <= 255 {
        if i == 0 {} else if i == 1 {} else if i == 2 {} else {}
      }
    }
  }

  /** The middle of the lookup host: the address's groups in reverse order. */
  function ReverseOctets(ip: string): string
  {
    Join(Reverse(Split(ip, '.')), '.')
  }

  /** Reversing the middle of the lookup host once more gives back the address. */
  lemma ReverseOctetsRestores(ip: string)
    ensures Split(ReverseOctets(ip), '.') == Reverse(Split(ip, '.'))
    ensures Join(Reverse(Split(ReverseOctets(ip), '.')), '.') == ip
  {
    var parts := Split(ip, '.');
    SplitJoin(Reverse(parts), '.');
    ReverseInvolutive(parts);
    JoinSplit(ip, '.');
  }

  /** The host name queried for `ip` under `accessKey`. */
  function SearchHost(accessKey: string, ip: string): string
  {
    accessKey + "." + ReverseOctets(ip) + "." + ProjectHoneyPot.SEARCH_DOMAIN
  }

  /** The service domain has three labels. */
  lemma DomainLabels()
    ensures Split(ProjectHoneyPot.SEARCH_DOMAIN, '.') == ["dnsbl", "httpbl", "org"]
  {
    assert ProjectHoneyPot.SEARCH_DOMAIN == Join(["dnsbl", "httpbl", "org"], '.');
    SplitJoin(["dnsbl", "httpbl", "org"], '.');
  }

  /** The lookup host is the key's labels, then the address's groups reversed, then the service domain. */
  lemma SearchHostLabels(accessKey: string, ip: string)
    ensures Split(SearchHost(accessKey, ip), '.')
         == Split(accessKey, '.') + Reverse(Split(ip, '.')) + ["dnsbl", "httpbl", "org"]
  {
    ThreeAround(accessKey, ReverseOctets(ip), ProjectHoneyPot.SEARCH_DOMAIN, '.');
    ReverseOctetsRestores(ip);
    DomainLabels();
  }

  /** For a written dotted quad the middle of the lookup host is the quad read backwards. */
  lemma ReverseQuad(a: nat, b: nat, c: nat, d: nat)
    ensures ReverseOctets(Quad(a, b, c, d)) == Quad(d, c, b, a)
  {
    SplitQuad(a, b, c, d);
    var parts := [Render(a), Render(b), Render(c), Render(d)];
    assert Reverse(parts) == [Render(d), Render(c), Render(b), Render(a)];
  }

  /** The groups of the class documentation's example address, rendered. */
  lemma ExampleGroups()
    ensures Render(96) == "96" && Render(47) == "47" && Render(224) == "224" && Render(218) == "218"
  {
  }

  /** The class documentation's example address, written out as a quad. */
  lemma ExampleAddress()
    ensures Quad(96, 47, 224, 218) == "96.47.224.218"
  {
    ExampleGroups();
  }

  /** The same address with its groups reversed. */
  lemma ExampleAddressReversed()
    ensures Quad(218, 224, 47, 96) == "218.224.47.96"
  {
    ExampleGroups();
  }

  /** The example host from the class documentation, for any access key. */
  lemma SearchHostExample(accessKey: string)
    ensures ReverseOctets("96.47.224.218") == "218.224.47.96"
    ensures SearchHost(accessKey, "96.47.224.218") == accessKey + "." + "218.224.47.96" + "." + "dnsbl.httpbl.org"
  {
    ExampleAddress();
    ExampleAddressReversed();
    ReverseQuad(96, 47, 224, 218);
  }

  /** A lookup host is never itself a dotted quad, so an echoed host cannot pass for an answer. */
  lemma SearchHostNotAddress(accessKey: string, ip: string)
    ensures !IsIPv4(SearchHost(accessKey, ip))
  {
    SearchHostLabels(accessKey, ip);
  }

  /** What `lookup` returns: the resolver's answer for the lookup host, or
      the sentinel when the resolver echoed the host back (no DNS record). */
  function RawResponse(accessKey: string, ip: string, resolve: string -> string): string
  {
    var host := SearchHost(accessKey, ip);
    if resolve(host) == host then ProjectHoneyPot.NOT_FOUND else resolve(host)
  }

  /** The raw response is the sentinel exactly when the resolver echoed the host
      or answered the sentinel itself; otherwise it is the resolver's answer,
      and a dotted-quad answer always comes through unchanged. */
  lemma RawResponseCases(accessKey: string, ip: string, resolve: string -> string)
    ensures var answer := resolve(SearchHost(accessKey, ip));
            var raw := RawResponse(accessKey, ip, resolve);
            (raw == ProjectHoneyPot.NOT_FOUND <==> answer == SearchHost(accessKey, ip) || answer == ProjectHoneyPot.NOT_FOUND)
            && (raw != ProjectHoneyPot.NOT_FOUND ==> raw == answer)
            && (IsIPv4(answer) ==> raw == answer)
  {
    SearchHostNotAddress(accessKey, ip);
  }

  /** A resolver that always answers with the same dotted quad yields that quad as the raw response. */
  lemma StubbedResolver(accessKey: string, ip: string, answer: string)
    requires IsIPv4(answer)
    ensures RawResponse(accessKey, ip, (host: string) => answer) == answer
  {
    SearchHostNotAddress(accessKey, ip);
  }

  /** The constructor's test of a raw response: a dotted quad whose first group is 127. */
  predicate Accepted(raw: string)
  {
    IsIPv4(raw) && Value(Split(raw, '.')[0]) == 127
  }

  /** A written answer passes the test exactly when it has the form `127.D.T.V` with octets D, T, V. */
  lemma AcceptedQuad(a: nat, b: nat, c: nat, d: nat)
    ensures Accepted(Quad(a, b, c, d)) <==> a == 127 && b <= 255 && c <= 255 && d <= 255
  {
    QuadIsIPv4(a, b, c, d);
    SplitQuad(a, b, c, d);
    ValueRender(a);
  }

  /** The no-record sentinel is the answer `127.0.0.1` and passes the first-octet test. */
  lemma SentinelAccepted()
    ensures ProjectHoneyPot.NOT_FOUND == Quad(127, 0, 0, 1)
    ensures Accepted(ProjectHoneyPot.NOT_FOUND)
  {
    assert Render(127) == "127";
    AcceptedQuad(127, 0, 0, 1);
  }

  /** The input the tests use as a malformed address. */
  lemma BadDataRejected()
    ensures !IsIPv4("Bad Data")
  {
    SplitFree("Bad Data", '.');
  }

  /** The search-engine names, in the order of their index in the answer's third octet. */
  const ENGINE_NAMES: seq<string> :=
    ["Undocumented", "AltaVista", "Ask", "Baidu", "Excite", "Google", "Looksmart",
     "Lycos", "MSN", "Yahoo", "Cull", "Infoseek", "Miscellaneous"]

  /** The three pieces the packed engine list is written in, each a join of its names. */
  lemma EnginesHead()
    ensures Join(["Undocumented", "AltaVista", "Ask", "Baidu"], '|') == "Undocumented|AltaVista|Ask|Baidu"
  {
    JoinFour("Undocumented", "AltaVista", "Ask", "Baidu", '|');
  }

  lemma EnginesMiddle()
    ensures Join(["Excite", "Google", "Looksmart", "Lycos"], '|') == "Excite|Google|Looksmart|Lycos"
  {
    JoinFour("Excite", "Google", "Looksmart", "Lycos", '|');
  }

  lemma EnginesTail()
    ensures Join(["MSN", "Yahoo", "Cull", "Infoseek", "Miscellaneous"], '|') == "MSN|Yahoo|Cull|Infoseek|Miscellaneous"
  {
    JoinFive("MSN", "Yahoo", "Cull", "Infoseek", "Miscellaneous", '|');
  }

  /** The packed engine list is the names joined with `|`. */
  lemma EngineListJoin()
    ensures ProjectHoneyPot.ENGINE_LIST == Join(ENGINE_NAMES, '|')
  {
    var first := ["Undocumented", "AltaVista", "Ask", "Baidu"];
    var second := ["Excite", "Google", "Looksmart", "Lycos"];
    var third := ["MSN", "Yahoo", "Cull", "Infoseek", "Miscellaneous"];
    EnginesHead();
    EnginesMiddle();
    EnginesTail();
    assert ENGINE_NAMES == first + second + third;
    JoinAppend(first, second, '|');
    JoinAppend(first + second, third, '|');
  }

  /** No engine name contains the `|` the list is packed with. */
  lemma EngineNamesUnpacked()
    ensures forall i :: 0 <= i < |ENGINE_NAMES| ==> '|' !in ENGINE_NAMES[i]
  {
  }

  /** One http:BL query: the address, the key, the raw answer and its decoded octets. */
  class ProjectHoneyPot {
    static const SEARCH_DOMAIN: string := "dnsbl.httpbl.org"
    static const NOT_FOUND: string := "127.0.0.1"

    static const SEARCH_ENGINE: nat := 0
    static const SUSPICIOUS: nat := 1
    static const HARVESTER: nat := 2
    static const COMMENT_SPAMMER: nat := 3

    /** The engine names packed with `|`, written in three pieces. */
    static const ENGINE_LIST: string :=
      "Undocumented|AltaVista|Ask|Baidu" + "|" +
      "Excite|Google|Looksmart|Lycos" + "|" +
      "MSN|Yahoo|Cull|Infoseek|Miscellaneous"

    var accessKey: string
    var ip: string
    var rawResponse: string
    var response: seq<string>
    var threatScore: nat
    var visitorType: nat
    var lastActivity: nat
    var searchHost: string

    /** The state a successful construction leaves: a valid address, the host
        built from it, an accepted raw response and octets 2 to 4 decoded from it. */
    ghost predicate Valid()
      reads this
    {
      IsIPv4(ip) &&
      searchHost == SearchHost(accessKey, ip) &&
      Accepted(rawResponse) &&
      response == Split(rawResponse, '.') &&
      lastActivity == Value(response[1]) &&
      threatScore == Value(response[2]) &&
      visitorType == Value(response[3])
    }

    /** Allocation with the address and key recorded; every other field still empty. */
    constructor (ip: string, accessKey: string)
      ensures this.ip == ip && this.accessKey == accessKey
      ensures rawResponse == "" && response == [] && searchHost == ""
      ensures lastActivity == 0 && threatScore == 0 && visitorType == 0
    {
      this.ip := ip;
      this.accessKey := accessKey;
      rawResponse := "";
      response := [];
      lastActivity := 0;
      threatScore := 0;
      visitorType := 0;
      searchHost := "";
    }

    /** `new ProjectHoneyPot($ip, $access_key)`: validates the address, performs
        the lookup, checks the answer and decodes it, or fails with the
        exception's kind. */
    static method Create(ip: string, accessKey: string, resolve: string -> string)
      returns (r: Result<ProjectHoneyPot, Error>)
      ensures !IsIPv4(ip) ==> r == Failure(InvalidAddress)
      ensures IsIPv4(ip) && !Accepted(RawResponse(accessKey, ip, resolve))
              ==> r == Failure(UnexpectedResponse(ip, RawResponse(accessKey, ip, resolve)))
      ensures IsIPv4(ip) && Accepted(RawResponse(accessKey, ip, resolve))
              ==> r.Success? && fresh(r.value) && r.value.Valid()
                  && r.value.ip == ip && r.value.accessKey == accessKey
                  && r.value.rawResponse == RawResponse(accessKey, ip, resolve)
    {
      if !IsIPv4(ip) {
        return Failure(InvalidAddress);
      }
      var h := new ProjectHoneyPot(ip, accessKey);
      h.rawResponse := h.Lookup(ip, resolve);
      h.response := Split(h.rawResponse, '.');
      if !IsIPv4(h.rawResponse) || Value(h.response[0]) != 127 {
        return Failure(UnexpectedResponse(ip, h.rawResponse));
      }
      h.lastActivity := Value(h.response[1]);
      h.threatScore := Value(h.response[2]);
      h.visitorType := Value(h.response[3]);
      return Success(h);
    }

    /** Builds and records the lookup host, asks the resolver, and turns an
        echoed host into the no-record sentinel. */
    method Lookup(ip: string, resolve: string -> string) returns (response: string)
      modifies this`searchHost
      ensures searchHost == SearchHost(accessKey, ip)
      ensures response == RawResponse(accessKey, ip, resolve)
    {
      var reverseOctet := Join(Reverse(Split(ip, '.')), '.');
      searchHost := accessKey + "." + reverseOctet + "." + SEARCH_DOMAIN;
      response := resolve(searchHost);
      if response == searchHost {
        response := NOT_FOUND;
      }
    }

    function GetThreatScore(): nat
      reads this
    {
      threatScore
    }

    function GetVisitorType(): nat
      reads this
    {
      visitorType
    }

    function HasRecord(): bool
      reads this
    {
      rawResponse != NOT_FOUND
    }

    /** Suspicious: a record whose visitor type has bit 0 set. */
    function IsSuspicious(): (r: bool)
      reads this
      ensures r <==> HasRecord() && Bit(GetVisitorType(), 0)
    {
      BitAndPow2(GetVisitorType(), 0);
      HasRecord() && BitAnd(GetVisitorType(), SUSPICIOUS) != 0
    }

    /** Harvester: a record whose visitor type has bit 1 set. */
    function IsHarvester(): (r: bool)
      reads this
      ensures r <==> HasRecord() && Bit(GetVisitorType(), 1)
    {
      BitAndPow2(GetVisitorType(), 1);
      HasRecord() && BitAnd(GetVisitorType(), HARVESTER) != 0
    }

    /** Search engine: a record whose visitor type has no bit set at all. */
    function IsSearchEngine(): (r: bool)
      reads this
      ensures r <==> HasRecord() && forall k: nat :: !Bit(GetVisitorType(), k)
    {
      NoBitsIsZero(GetVisitorType());
      HasRecord() && GetVisitorType() == SEARCH_ENGINE
    }

    /** As written: masks the visitor type with COMMENT_SPAMMER, which is 3,
        so it tests bit 0 or bit 1 rather than the comment-spammer bit. */
    function IsCommentSpammer(): (r: bool)
      reads this
      ensures r <==> HasRecord() && (Bit(GetVisitorType(), 0) || Bit(GetVisitorType(), 1))
    {
      BitAndThree(GetVisitorType());
      HasRecord() && BitAnd(GetVisitorType(), COMMENT_SPAMMER) != 0
    }

    /** The comment-spammer test as documented: a record whose visitor type has bit 2 set. */
    function IsCommentSpammerIntended(): (r: bool)
      reads this
      ensures r <==> HasRecord() && Bit(GetVisitorType(), 2)
    {
      BitAndPow2(GetVisitorType(), 2);
      HasRecord() && BitAnd(GetVisitorType(), 4) != 0
    }

    /** The packed list of search-engine names, exploded: the thirteen names in order. */
    static function Engines(): (r: seq<string>)
      ensures r == ENGINE_NAMES && |r| == 13
    {
      EngineListJoin();
      EngineNamesUnpacked();
      SplitJoin(ENGINE_NAMES, '|');
      Split(ENGINE_LIST, '|')
    }

    /** The engine named by the third octet, or None (PHP's `false`) when the
        address is not a search engine. */
    function GetSearchEngine(): (r: Option<string>)
      reads this
      requires IsSearchEngine() ==> threatScore < 13
      ensures r.None? <==> !IsSearchEngine()
    {
      if !IsSearchEngine() then None
      else Some(Engines()[threatScore])
    }

    function GetSearchHost(): string
      reads this
    {
      searchHost
    }
  }

  /** An accepted answer `127.D.T.V` decodes to last activity D, threat score T and visitor type V. */
  lemma DecodedFields(h: ProjectHoneyPot, d: nat, t: nat, v: nat)
    requires h.Valid() && h.rawResponse == Quad(127, d, t, v)
    ensures h.lastActivity == d && h.GetThreatScore() == t && h.GetVisitorType() == v
  {
    SplitQuad(127, d, t, v);
    ValueRender(d);
    ValueRender(t);
    ValueRender(v);
  }

  /** Without a record every classification is false and there is no engine
      name, although the sentinel decodes to visitor type 1, whose suspicious
      bit is set: the HasRecord guard is what keeps IsSuspicious false. */
  lemma NoRecord(h: ProjectHoneyPot)
    requires h.Valid() && !h.HasRecord()
    ensures h.lastActivity == 0 && h.GetThreatScore() == 0 && h.GetVisitorType() == 1
    ensures BitAnd(h.GetVisitorType(), ProjectHoneyPot.SUSPICIOUS) != 0
    ensures !h.IsSuspicious() && !h.IsHarvester() && !h.IsSearchEngine() && !h.IsCommentSpammer()
    ensures h.GetSearchEngine() == None
  {
    SentinelAccepted();
    DecodedFields(h, 0, 0, 1);
  }

  /** A query whose resolver echoed the lookup host back has no record, and so no classification. */
  lemma EchoedHostNoRecord(h: ProjectHoneyPot, resolve: string -> string)
    requires h.Valid() && h.rawResponse == RawResponse(h.accessKey, h.ip, resolve)
    requires resolve(SearchHost(h.accessKey, h.ip)) == SearchHost(h.accessKey, h.ip)
    ensures !h.HasRecord() && h.GetVisitorType() == 1
    ensures !h.IsSuspicious() && !h.IsHarvester() && !h.IsSearchEngine() && !h.IsCommentSpammer()
    ensures h.GetSearchEngine() == None
  {
    RawResponseCases(h.accessKey, h.ip, resolve);
    NoRecord(h);
  }

  /** The host recorded by a valid query: key, reversed address, service domain. */
  lemma SearchHostOfQuery(h: ProjectHoneyPot)
    requires h.Valid()
    ensures Split(h.GetSearchHost(), '.')
         == Split(h.accessKey, '.') + Reverse(Split(h.ip, '.')) + ["dnsbl", "httpbl", "org"]
    ensures h.GetSearchHost() == h.accessKey + "." + Join(Reverse(Split(h.ip, '.')), '.') + ".dnsbl.httpbl.org"
    ensures Join(Reverse(Split(ReverseOctets(h.ip), '.')), '.') == h.ip
  {
    SearchHostLabels(h.accessKey, h.ip);
    ReverseOctetsRestores(h.ip);
  }

  /** As written, isCommentSpammer is isSuspicious or isHarvester. */
  lemma CommentSpammerAsWritten(h: ProjectHoneyPot)
    ensures h.IsCommentSpammer() <==> h.IsSuspicious() || h.IsHarvester()
  {
  }

  /** isSearchEngine holds exactly for a record with visitor type 0, and then no other classification does. */
  lemma SearchEngineExclusive(h: ProjectHoneyPot)
    ensures h.IsSearchEngine() <==> h.HasRecord() && h.GetVisitorType() == 0
    ensures h.IsSearchEngine() ==> !h.IsSuspicious() && !h.IsHarvester()
                                   && !h.IsCommentSpammer() && !h.IsCommentSpammerIntended()
  {
  }

  /** Visitor type 7 sets every flag at once. */
  lemma HybridType(h: ProjectHoneyPot)
    requires h.HasRecord() && h.GetVisitorType() == 7
    ensures h.IsSuspicious() && h.IsHarvester() && h.IsCommentSpammer() && h.IsCommentSpammerIntended()
    ensures !h.IsSearchEngine()
  {
    assert BitAnd(7, 1) == 1;
    assert BitAnd(7, 2) == 2;
    assert BitAnd(7, 3) == 3;
    assert BitAnd(7, 4) == 4;
  }

  /** A search engine with an index below 13 is named by entry `threatScore` of the table. */
  lemma SearchEngineName(h: ProjectHoneyPot)
    requires h.IsSearchEngine() && h.GetThreatScore() < 13
    ensures h.GetSearchEngine() == Some(ENGINE_NAMES[h.GetThreatScore()])
  {
  }

  /** The answers the tests rely on, decoded. */
  lemma ThreatScoreScenario(h: ProjectHoneyPot)
    requires h.Valid() && h.rawResponse == Quad(127, 1, 80, 1)
    ensures h.GetThreatScore() == 80 && h.HasRecord()
  {
    DecodedFields(h, 1, 80, 1);
  }

  lemma SearchEngineScenario(h: ProjectHoneyPot)
    requires h.Valid() && h.rawResponse == Quad(127, 1, 1, 0)
    ensures h.IsSearchEngine()
  {
    DecodedFields(h, 1, 1, 0);
  }

  lemma SuspiciousScenario(h: ProjectHoneyPot)
    requires h.Valid() && h.rawResponse == Quad(127, 1, 1, 1)
    ensures h.IsSuspicious() && !h.IsHarvester()
  {
    DecodedFields(h, 1, 1, 1);
    assert BitAnd(1, 2) == 0;
  }

  lemma HarvesterScenario(h: ProjectHoneyPot)
    requires h.Valid() && h.rawResponse == Quad(127, 1, 1, 2)
    ensures h.IsHarvester()
  {
    DecodedFields(h, 1, 1, 2);
    assert BitAnd(2, 2) == 2;
  }

  /** Visitor type 4, the documented comment spammer, is missed by the mask 3
      as written and caught by the documented mask 4. */
  lemma CommentSpammerScenario(h: ProjectHoneyPot)
    requires h.Valid() && h.rawResponse == Quad(127, 1, 1, 4)
    ensures h.GetVisitorType() == 4 && h.HasRecord()
    ensures !h.IsCommentSpammer()
    ensures h.IsCommentSpammerIntended()
  {
    DecodedFields(h, 1, 1, 4);
    assert BitAnd(4, 3) == 0;
    assert BitAnd(4, 4) == 4;
  }

  lemma HybridScenario(h: ProjectHoneyPot)
    requires h.Valid() && h.rawResponse == Quad(127, 1, 1, 7)
    ensures h.IsHarvester() && h.IsCommentSpammer() && h.IsSuspicious()
  {
    DecodedFields(h, 1, 1, 7);
    HybridType(h);
  }

  lemma LastActivityScenario(h: ProjectHoneyPot)
    requires h.Valid() && h.rawResponse == Quad(127, 20, 1, 1)
    ensures h.lastActivity == 20
  {
    DecodedFields(h, 20, 1, 1);
  }

  /** Engine index 5 is Google, the name the class documentation's example expects. */
  lemma GoogleEngine(h: ProjectHoneyPot)
    requires h.IsSearchEngine() && h.GetThreatScore() == 5
    ensures h.GetSearchEngine() == Some("Google")
  {
    SearchEngineName(h);
  }

  /** A search-engine answer with index 5 names Google, whatever its last-activity octet. */
  lemma GoogleScenario(h: ProjectHoneyPot, d: nat)
    requires h.Valid() && h.rawResponse == Quad(127, d, 5, 0)
    ensures h.IsSearchEngine() && h.GetThreatScore() == 5 && h.GetSearchEngine() == Some("Google")
  {
    DecodedFields(h, d, 5, 0);
    GoogleEngine(h);
  }

  // Construction end to end, as the tests perform it, with a resolver that
  // answers every host the same way.

  /** The test address `127.1.80.1`, answered with itself, is built and scores 80. */
  method ThreatScoreQuery(accessKey: string) returns (score: nat)
    ensures score == 80
  {
    var ip := Quad(127, 1, 80, 1);
    var resolve := (host: string) => ip;
    QuadIsIPv4(127, 1, 80, 1);
    AcceptedQuad(127, 1, 80, 1);
    RawResponseCases(accessKey, ip, resolve);
    var r := ProjectHoneyPot.Create(ip, accessKey, resolve);
    ThreatScoreScenario(r.value);
    score := r.value.GetThreatScore();
  }

  /** A valid address whose host the resolver echoes is built without a record. */
  method EchoedQuery(ip: string, accessKey: string) returns (listed: bool, suspicious: bool)
    requires IsIPv4(ip)
    ensures !listed && !suspicious
  {
    var resolve := (host: string) => host;
    RawResponseCases(accessKey, ip, resolve);
    SentinelAccepted();
    var r := ProjectHoneyPot.Create(ip, accessKey, resolve);
    EchoedHostNoRecord(r.value, resolve);
    listed := r.value.HasRecord();
    suspicious := r.value.IsSuspicious();
  }

  /** An answer whose first octet is not 127 makes construction fail with that answer. */
  method RejectedQuery(ip: string, accessKey: string) returns (r: Result<ProjectHoneyPot, Error>)
    requires IsIPv4(ip)
    ensures r == Failure(UnexpectedResponse(ip, Quad(128, 0, 7, 0)))
  {
    var answer := Quad(128, 0, 7, 0);
    var resolve := (host: string) => answer;
    QuadIsIPv4(128, 0, 7, 0);
    AcceptedQuad(128, 0, 7, 0);
    RawResponseCases(accessKey, ip, resolve);
    r := ProjectHoneyPot.Create(ip, accessKey, resolve);
  }

  /** The tested malformed address fails construction with InvalidAddress, whatever the resolver. */
  method BadDataQuery(accessKey: string, resolve: string -> string) returns (r: Result<ProjectHoneyPot, Error>)
    ensures r == Failure(InvalidAddress)
  {
    BadDataRejected();
    r := ProjectHoneyPot.Create("Bad Data", accessKey, resolve);
  }
}
