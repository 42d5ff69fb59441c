/** The HTTP-version mode of a request and its effect on the client builder. */
module HttpVersionMode {
  import opened Wrappers
  import opened Text
  import opened Network

  datatype HttpVersion = Auto | Http1Only | Http2 | Http2PriorKnowledge

  /** The default mode. */
  function New(): (v: HttpVersion)
    ensures v == Auto && SupportsHttp2(v) && !IsHttp2Forced(v)
  {
    Auto
  }

  /** `__str__`. */
  function Name(v: HttpVersion): string {
    match v
    case Auto => "AUTO"
    case Http1Only => "HTTP1_ONLY"
    case Http2 => "HTTP2"
    case Http2PriorKnowledge => "HTTP2_PRIOR_KNOWLEDGE"
  }

  /** `__repr__`. */
  function Repr(v: HttpVersion): string {
    "HttpVersion." + Name(v)
  }

  const AutoAliases: set<string> := {"AUTO", ""}
  const Http1Aliases: set<string> := {"HTTP1", "HTTP1.1", "HTTP1_ONLY"}
  const Http2Aliases: set<string> := {"HTTP2"}
  const PriorKnowledgeAliases: set<string> := {"HTTP2_PRIOR_KNOWLEDGE", "FORCE_HTTP2", "HTTP2_ONLY"}

  /** The alias table on upper-cased text. */
  function VersionOf(u: string): Option<HttpVersion> {
    if u == "AUTO" || u == "" then Some(Auto)
    else if u == "HTTP1" || u == "HTTP1.1" || u == "HTTP1_ONLY" then Some(Http1Only)
    else if u == "HTTP2" then Some(Http2)
    else if u == "HTTP2_PRIOR_KNOWLEDGE" || u == "FORCE_HTTP2" || u == "HTTP2_ONLY" then Some(Http2PriorKnowledge)
    else None
  }

  /** `from_str`: matches the upper-cased text against the alias table; an
      unknown text is an error naming the input as given. */
  function FromStr(s: string): Result<HttpVersion, string> {
    match VersionOf(Upper(s))
    case Some(v) => Success(v)
    case None => Failure("Invalid HTTP version: '" + s + "'. Valid values: AUTO, HTTP1_ONLY, HTTP2, HTTP2_PRIOR_KNOWLEDGE")
  }

  lemma VersionOfAliases(u: string)
    ensures VersionOf(u) == Some(Auto) <==> u in AutoAliases
    ensures VersionOf(u) == Some(Http1Only) <==> u in Http1Aliases
    ensures VersionOf(u) == Some(Http2) <==> u in Http2Aliases
    ensures VersionOf(u) == Some(Http2PriorKnowledge) <==> u in PriorKnowledgeAliases
  {
  }

  /** The alias table, in both directions, and the error for everything else. */
  lemma FromStrAliases(s: string)
    ensures FromStr(s) == Success(Auto) <==> Upper(s) in AutoAliases
    ensures FromStr(s) == Success(Http1Only) <==> Upper(s) in Http1Aliases
    ensures FromStr(s) == Success(Http2) <==> Upper(s) in Http2Aliases
    ensures FromStr(s) == Success(Http2PriorKnowledge) <==> Upper(s) in PriorKnowledgeAliases
    ensures FromStr(s).Failure? <==>
      Upper(s) !in AutoAliases + Http1Aliases + Http2Aliases + PriorKnowledgeAliases
  {
    VersionOfAliases(Upper(s));
  }

  /** Parsing looks only at the upper-cased text: two spellings that agree
      up to ASCII case give the same mode, or both fail. */
  lemma FromStrCaseInsensitive(s: string, t: string)
    requires Upper(s) == Upper(t)
    ensures FromStr(s).Success? <==> FromStr(t).Success?
    ensures FromStr(s).Success? ==> FromStr(s) == FromStr(t) == FromStr(Upper(s))
  {
    UpperIdempotent(s);
  }

  /** Every mode's name parses back to that mode. */
  lemma NameRoundTrip(v: HttpVersion)
    ensures FromStr(Name(v)) == Success(v)
  {
    NameIsUpperCase(v);
    UpperFixesUpperCase(Name(v));
    assert VersionOf(Name(v)) == Some(v);
  }

  /** `__repr__` is the class name and a dot before a name that parses
      back to the mode. */
  lemma ReprRoundTrip(v: HttpVersion)
    ensures Repr(v)[..12] == "HttpVersion."
    ensures FromStr(Repr(v)[12..]) == Success(v)
  {
    NameRoundTrip(v);
    assert Repr(v)[12..] == Name(v);
  }

  lemma NameIsUpperCase(v: HttpVersion)
    ensures forall i :: 0 <= i < |Name(v)| ==> !IsLowerAscii(Name(v)[i])
  {
    match v {
      case Auto =>
      case Http1Only =>
      case Http2 =>
      case Http2PriorKnowledge =>
    }
  }

  /** `supports_http2`: false exactly for the HTTP/1.1-only mode. */
  predicate SupportsHttp2(v: HttpVersion) {
    match v
    case Auto | Http2 | Http2PriorKnowledge => true
    case Http1Only => false
  }

  /** `is_http2_forced`: true exactly for prior knowledge. */
  predicate IsHttp2Forced(v: HttpVersion) {
    v.Http2PriorKnowledge?
  }

  lemma CapabilitiesExactly(v: HttpVersion)
    ensures !SupportsHttp2(v) <==> v == Http1Only
    ensures IsHttp2Forced(v) <==> v == Http2PriorKnowledge
    ensures IsHttp2Forced(v) ==> SupportsHttp2(v)
  {
  }

  /** `apply_to_builder`: HTTP/1.1-only sets `http1_only`, prior knowledge
      sets `http2_prior_knowledge`, the others leave the builder as it is;
      nothing else is touched. */
  function ApplyToBuilder(v: HttpVersion, b: ClientBuilder): (r: ClientBuilder)
    ensures r.(http1Only := b.http1Only, http2PriorKnowledge := b.http2PriorKnowledge) == b
    ensures r.http1Only == (b.http1Only || !SupportsHttp2(v))
    ensures r.http2PriorKnowledge == (b.http2PriorKnowledge || IsHttp2Forced(v))
    ensures v == Auto || v == Http2 ==> r == b
  {
    match v
    case Auto => b
    case Http1Only => b.(http1Only := true)
    case Http2 => b
    case Http2PriorKnowledge => b.(http2PriorKnowledge := true)
  }

  /** From the base builder the two flags are the two capability predicates:
      prior knowledge is set iff HTTP/2 is forced, HTTP/1.1-only iff HTTP/2
      is not supported, and never both. */
  lemma BuilderFlagsMatchCapabilities(v: HttpVersion)
    ensures ApplyToBuilder(v, BaseBuilder()).http2PriorKnowledge <==> IsHttp2Forced(v)
    ensures ApplyToBuilder(v, BaseBuilder()).http1Only <==> !SupportsHttp2(v)
    ensures !(ApplyToBuilder(v, BaseBuilder()).http1Only && ApplyToBuilder(v, BaseBuilder()).http2PriorKnowledge)
  {
  }
}
