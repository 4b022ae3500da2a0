/** The per-product rules every published listing satisfies. */
module Normalizer {
  import opened Prelude

  // ---- Products as connectors build them -----------------------------------------------

  /** A field of a Python dataclass: any value may sit in it. */
  datatype Value =
    | Null | Bool(flag: bool) | Int(number: int) | Float(measure: real) | Str(text: string) | Code(code: Marketplace)

  datatype CanonicalProduct = CanonicalProduct(
    canonicalTitle: Value,
    marketplace: Value,
    externalListingId: Value,
    url: Value,
    price: Value,
    mrp: Value,
    rating: Value,
    reviewCount: Value,
    inStock: Value)

  datatype Field =
    | CanonicalTitle | Price | Mrp | MarketplaceCode | ExternalListingId | Url | Rating | ReviewCount | InStock

  datatype Reason =
    | NotAString | BlankText | TooLong(length: nat) | NotAnInteger | NotPositive | BelowPrice | NotACode | NotAbsolute
    | WrongHost | NotANumber | OutOfRange | Negative | NotABoolean

  /** What `urlparse` makes of a string; the host name is lower case. */
  datatype ParsedUrl = ParsedUrl(scheme: string, hostname: Option<string>)

  /** `urlparse` raises a ValueError on some strings, among them an unclosed bracketed host. */
  type UrlParser = string -> Result<ParsedUrl, ()>

  const TITLE_MAX_LEN: nat := 500

  function Domains(code: Marketplace): seq<string> {
    match code
    case Amazon => ["amazon.in"]
    case Flipkart => ["flipkart.com"]
    case Myntra => ["myntra.com"]
    case Nykaa => ["nykaa.com"]
  }

  // ---- Trimming ------------------------------------------------------------------------

  /** What `str.strip` removes. */
  predicate IsSpace(c: char) {
    || '\t' <= c <= '\r' || '\U{001C}' <= c <= ' '
    || c == '\U{0085}' || c == '\U{00A0}' || c == '\U{1680}' || '\U{2000}' <= c <= '\U{200A}'
    || c == '\U{2028}' || c == '\U{2029}' || c == '\U{202F}' || c == '\U{205F}' || c == '\U{3000}'
  }

  function StripLeft(s: string): string {
    if s != "" && IsSpace(s[0]) then StripLeft(s[1..]) else s
  }

  function StripRight(s: string): string {
    if s != "" && IsSpace(s[|s| - 1]) then StripRight(s[..|s| - 1]) else s
  }

  function Strip(s: string): string { StripRight(StripLeft(s)) }

  predicate Trimmed(s: string) { s == "" || (!IsSpace(s[0]) && !IsSpace(s[|s| - 1])) }

  lemma {:induction false} StripLeftStarts(s: string)
    ensures StripLeft(s) == "" || !IsSpace(StripLeft(s)[0])
  {
    if s != "" && IsSpace(s[0]) {
      StripLeftStarts(s[1..]);
    }
  }

  lemma {:induction false} StripRightEnds(s: string)
    requires s == "" || !IsSpace(s[0])
    ensures Trimmed(StripRight(s)) && StripRight(s) <= s && (s != "" ==> StripRight(s) != "")
  {
    if s != "" && IsSpace(s[|s| - 1]) {
      StripRightEnds(s[..|s| - 1]);
    }
  }

  lemma StripTrims(s: string)
    ensures Trimmed(Strip(s))
    ensures Trimmed(s) ==> Strip(s) == s
  {
    StripLeftStarts(s);
    StripRightEnds(StripLeft(s));
  }

  predicate Spaces(s: string) { forall i :: 0 <= i < |s| ==> IsSpace(s[i]) }

  lemma {:induction false} StripLeftSplits(s: string) returns (lead: string)
    ensures Spaces(lead) && s == lead + StripLeft(s)
  {
    lead := "";
    if s != "" && IsSpace(s[0]) {
      var rest := StripLeftSplits(s[1..]);
      lead := [s[0]] + rest;
    }
  }

  lemma {:induction false} StripRightSplits(s: string) returns (tail: string)
    ensures Spaces(tail) && s == StripRight(s) + tail
  {
    tail := "";
    if s != "" && IsSpace(s[|s| - 1]) {
      var rest := StripRightSplits(s[..|s| - 1]);
      tail := rest + [s[|s| - 1]];
    }
  }

  /** Stripping takes white space off both ends, all of it and nothing else. */
  lemma StripMeaning(s: string) returns (lead: string, tail: string)
    ensures Spaces(lead) && Spaces(tail) && s == lead + Strip(s) + tail && Trimmed(Strip(s))
  {
    lead := StripLeftSplits(s);
    tail := StripRightSplits(StripLeft(s));
    Associates(lead, Strip(s), tail);
    StripTrims(s);
  }

  // ---- Hosts ---------------------------------------------------------------------------

  /** `host == domain or host.endswith("." + domain)`, for any of the domains. */
  predicate HostMatches(host: string, domains: seq<string>) {
    exists i :: 0 <= i < |domains| && (host == domains[i] || EndsWith(host, "." + domains[i]))
  }

  predicate EndsWith(s: string, suffix: string) { |suffix| <= |s| && s[|s| - |suffix|..] == suffix }

  /** The labels of a host name. */
  function Labels(host: string): (labels: seq<string>)
    ensures labels != []
  {
    if host == "" then [""]
    else
      var rest := Labels(host[1..]);
      if host[0] == '.' then [""] + rest else [[host[0]] + rest[0]] + rest[1..]
  }

  function Joined(labels: seq<string>): string
    requires labels != []
  {
    if |labels| == 1 then labels[0] else labels[0] + "." + Joined(labels[1..])
  }

  lemma {:induction false} LabelsJoin(host: string)
    ensures Joined(Labels(host)) == host
  {
    if host != "" {
      LabelsJoin(host[1..]);
      var rest := Labels(host[1..]);
      if host[0] == '.' {
        assert ([""] + rest)[1..] == rest;
      } else {
        assert ([[host[0]] + rest[0]] + rest[1..])[1..] == rest[1..];
      }
    }
  }

  lemma {:induction false} LabelsSplit(a: string, b: string)
    ensures Labels(a + "." + b) == Labels(a) + Labels(b)
  {
    if a == "" {
      assert a + "." + b == "." + b;
    } else {
      assert (a + "." + b)[1..] == a[1..] + "." + b;
      LabelsSplit(a[1..], b);
    }
  }

  lemma {:induction false} JoinedSplit(a: seq<string>, b: seq<string>)
    requires a != [] && b != []
    ensures Joined(a + b) == Joined(a) + "." + Joined(b)
  {
    if |a| == 1 {
      assert (a + b)[1..] == b;
    } else {
      assert (a + b)[1..] == a[1..] + b;
      JoinedSplit(a[1..], b);
    }
  }

  predicate LabelSuffix(labels: seq<string>, suffix: seq<string>) {
    |suffix| <= |labels| && labels[|labels| - |suffix|..] == suffix
  }

  lemma EndsInLabels(host: string, domain: string)
    requires EndsWith(host, "." + domain)
    ensures LabelSuffix(Labels(host), Labels(domain))
  {
    var sub := host[..|host| - |domain| - 1];
    var tail := "." + domain;
    assert host == sub + tail;
    assert sub + tail == sub + "." + domain;
    LabelsSplit(sub, domain);
    var labels, suffix := Labels(sub), Labels(domain);
    assert (labels + suffix)[|labels|..] == suffix;
  }

  lemma LabelsEnd(host: string, domain: string)
    requires LabelSuffix(Labels(host), Labels(domain)) && host != domain
    ensures EndsWith(host, "." + domain)
  {
    var labels, suffix := Labels(host), Labels(domain);
    LabelsJoin(host);
    LabelsJoin(domain);
    assert labels[0..] == labels;
    var sub := labels[..|labels| - |suffix|];
    assert labels == sub + suffix;
    JoinedSplit(sub, suffix);
    Tail(Joined(sub), domain);
  }

  lemma Tail(head: string, domain: string)
    ensures EndsWith(head + "." + domain, "." + domain)
  {
    assert (head + "." + domain)[|head|..] == "." + domain;
  }

  lemma DomainMeaning(host: string, domain: string)
    ensures host == domain || EndsWith(host, "." + domain) <==> LabelSuffix(Labels(host), Labels(domain))
  {
    if host == domain {
      assert Labels(host)[0..] == Labels(host);
    } else {
      if EndsWith(host, "." + domain) {
        EndsInLabels(host, domain);
      }
      if LabelSuffix(Labels(host), Labels(domain)) {
        LabelsEnd(host, domain);
      }
    }
  }

  /** The dot in the suffix test makes it a test on whole labels: a look-alike host fails. */
  lemma HostMeaning(host: string, domains: seq<string>)
    ensures HostMatches(host, domains) <==>
            exists i :: 0 <= i < |domains| && LabelSuffix(Labels(host), Labels(domains[i]))
  {
    forall i | 0 <= i < |domains|
      ensures host == domains[i] || EndsWith(host, "." + domains[i]) <==> LabelSuffix(Labels(host), Labels(domains[i]))
    {
      DomainMeaning(host, domains[i]);
    }
  }

  /** The labels a marketplace's host names end in. */
  function SiteLabels(code: Marketplace): seq<string> {
    match code
    case Amazon => ["amazon", "in"]
    case Flipkart => ["flipkart", "com"]
    case Myntra => ["myntra", "com"]
    case Nykaa => ["nykaa", "com"]
  }

  lemma {:induction false} OneLabel(name: string)
    requires '.' !in name
    ensures Labels(name) == [name]
  {
    if name != "" {
      OneLabel(name[1..]);
      assert [name[0]] + name[1..] == name;
    }
  }

  lemma TwoLabels(name: string, zone: string)
    requires '.' !in name && '.' !in zone
    ensures Labels(name + "." + zone) == [name, zone]
  {
    LabelsSplit(name, zone);
    OneLabel(name);
    OneLabel(zone);
  }

  lemma DomainLabels(code: Marketplace)
    ensures |Domains(code)| == 1 && Labels(Domains(code)[0]) == SiteLabels(code)
  {
    var labels := SiteLabels(code);
    TwoLabels(labels[0], labels[1]);
    assert labels[0] + "." + labels[1] == Domains(code)[0];
  }

  // ---- The rules, stated one by one ----------------------------------------------------

  /** The URL rule reaches `urlparse`, which raises; nothing on the way out of `check` catches it. */
  predicate UrlRaises(p: CanonicalProduct, urlparse: UrlParser) {
    p.url.Str? && Strip(p.url.text) != "" && urlparse(p.url.text).Raise?
  }

  predicate UrlRule(p: CanonicalProduct, urlparse: UrlParser) {
    && p.url.Str? && Strip(p.url.text) != "" && urlparse(p.url.text).Ok?
    && var parsed := urlparse(p.url.text).value;
    && (parsed.scheme == "http" || parsed.scheme == "https")
    && parsed.hostname.Some? && parsed.hostname.value != ""
    && (p.marketplace.Code? ==> LabelSuffix(Labels(parsed.hostname.value), SiteLabels(p.marketplace.code)))
  }

  predicate Rule(field: Field, p: CanonicalProduct, urlparse: UrlParser) {
    match field
    case CanonicalTitle => p.canonicalTitle.Str? && 1 <= |Strip(p.canonicalTitle.text)| <= 500
    case Price => p.price.Int? && p.price.number > 0
    case Mrp => p.mrp.Null? || (p.mrp.Int? && (p.price.Int? ==> p.mrp.number >= p.price.number))
    case MarketplaceCode => p.marketplace.Code?
    case ExternalListingId => p.externalListingId.Str? && Strip(p.externalListingId.text) != ""
    case Url => UrlRule(p, urlparse)
    case Rating =>
      || p.rating.Null?
      || (p.rating.Int? && 0 <= p.rating.number <= 5)
      || (p.rating.Float? && 0.0 <= p.rating.measure <= 5.0)
    case ReviewCount => p.reviewCount.Null? || (p.reviewCount.Int? && p.reviewCount.number >= 0)
    case InStock => p.inStock.Bool?
  }

  ghost predicate Valid(p: CanonicalProduct, urlparse: UrlParser) {
    forall field :: Rule(field, p, urlparse)
  }

  // ---- check and validate --------------------------------------------------------------

  /** The `failures` dictionary, filled in place. */
  class Failures {
    var entries: map<Field, Reason>

    constructor ()
      ensures entries == map[]
    {
      entries := map[];
    }

    method Put(field: Field, reason: Reason)
      modifies this
      ensures entries == old(entries)[field := reason]
    {
      entries := entries[field := reason];
    }
  }

  /** Rule 6; raises exactly when the URL is one `urlparse` raises on, and then records nothing. */
  method CheckUrl(p: CanonicalProduct, urlparse: UrlParser, failures: Failures) returns (raised: bool)
    requires Url !in failures.entries
    modifies failures
    ensures raised <==> UrlRaises(p, urlparse)
    ensures forall field :: field in failures.entries <==>
              field in old(failures.entries) || (field == Url && !raised && !Rule(Url, p, urlparse))
  {
    if !p.url.Str? || Strip(p.url.text) == "" {
      failures.Put(Url, BlankText);
      return false;
    }
    var result := urlparse(p.url.text);
    if result.Raise? {
      return true;
    }
    var parsed := result.value;
    if (parsed.scheme != "http" && parsed.scheme != "https") || parsed.hostname.None? || parsed.hostname.value == "" {
      failures.Put(Url, NotAbsolute);
      return false;
    }
    if !p.marketplace.Code? {
      return false;
    }
    var host := parsed.hostname.value;
    HostMeaning(host, Domains(p.marketplace.code));
    DomainLabels(p.marketplace.code);
    if !HostMatches(host, Domains(p.marketplace.code)) {
      failures.Put(Url, WrongHost);
    }
    return false;
  }

  /** Rules 1 to 3. */
  method CheckTitleAndPrices(p: CanonicalProduct, urlparse: UrlParser, failures: Failures)
    requires failures.entries == map[]
    modifies failures
    ensures forall field :: field in failures.entries <==>
              (field == CanonicalTitle || field == Price || field == Mrp) && !Rule(field, p, urlparse)
  {
    if !p.canonicalTitle.Str? {
      failures.Put(CanonicalTitle, NotAString);
    } else {
      var trimmed := Strip(p.canonicalTitle.text);
      if |trimmed| == 0 {
        failures.Put(CanonicalTitle, BlankText);
      } else if |trimmed| > TITLE_MAX_LEN {
        failures.Put(CanonicalTitle, TooLong(|trimmed|));
      }
    }
    if !p.price.Int? {
      failures.Put(Price, NotAnInteger);
    } else if p.price.number <= 0 {
      failures.Put(Price, NotPositive);
    }
    if !p.mrp.Null? {
      if !p.mrp.Int? {
        failures.Put(Mrp, NotAnInteger);
      } else if p.price.Int? && p.mrp.number < p.price.number {
        failures.Put(Mrp, BelowPrice);
      }
    }
  }

  /** Rules 7 to 9. */
  method CheckRatingAndStock(p: CanonicalProduct, urlparse: UrlParser, failures: Failures)
    requires Rating !in failures.entries && ReviewCount !in failures.entries && InStock !in failures.entries
    modifies failures
    ensures forall field :: field in failures.entries <==>
              || field in old(failures.entries)
              || ((field == Rating || field == ReviewCount || field == InStock) && !Rule(field, p, urlparse))
  {
    if !p.rating.Null? {
      if !p.rating.Int? && !p.rating.Float? {
        failures.Put(Rating, NotANumber);
      } else if
        || (p.rating.Int? && !(0 <= p.rating.number <= 5))
        || (p.rating.Float? && !(0.0 <= p.rating.measure <= 5.0))
      {
        failures.Put(Rating, OutOfRange);
      }
    }
    if !p.reviewCount.Null? {
      if !p.reviewCount.Int? {
        failures.Put(ReviewCount, NotAnInteger);
      } else if p.reviewCount.number < 0 {
        failures.Put(ReviewCount, Negative);
      }
    }
    if !p.inStock.Bool? {
      failures.Put(InStock, NotABoolean);
    }
  }

  /** Raises exactly on a URL `urlparse` raises on; else the failing fields are those whose rule is broken. */
  method Check(p: CanonicalProduct, urlparse: UrlParser) returns (result: Result<Failures, ()>)
    ensures result.Raise? <==> UrlRaises(p, urlparse)
    ensures result.Ok? ==> fresh(result.value)
    ensures result.Ok? ==> forall field :: field in result.value.entries <==> !Rule(field, p, urlparse)
  {
    var failures := new Failures();
    CheckTitleAndPrices(p, urlparse, failures);
    if !p.marketplace.Code? {
      failures.Put(MarketplaceCode, NotACode);
    }
    if !p.externalListingId.Str? || Strip(p.externalListingId.text) == "" {
      failures.Put(ExternalListingId, BlankText);
    }
    var raised := CheckUrl(p, urlparse, failures);
    if raised {
      return Raise(());
    }
    CheckRatingAndStock(p, urlparse, failures);
    return Ok(failures);
  }

  /** The product `validate` returns, with its title trimmed, when it returns one. */
  ghost function Normalized(p: CanonicalProduct, urlparse: UrlParser): Option<CanonicalProduct> {
    if Valid(p, urlparse) && p.canonicalTitle.Str?
    then Some(p.(canonicalTitle := Str(Strip(p.canonicalTitle.text)))) else None
  }

  /** `ParseFailedError` with the broken rules, or the ValueError of `urlparse`. */
  datatype ValidateError = ParseFailedError(failures: Failures) | UrlValueError

  /** A valid product is returned, trimmed; an unparseable URL raises; otherwise exactly the broken rules. */
  method Validate(p: CanonicalProduct, urlparse: UrlParser) returns (result: Result<CanonicalProduct, ValidateError>)
    ensures result.Ok? <==> Valid(p, urlparse)
    ensures result.Ok? ==> Normalized(p, urlparse) == Some(result.value)
    ensures result == Raise(UrlValueError) <==> UrlRaises(p, urlparse)
    ensures result.Raise? && result.error.ParseFailedError? ==>
              var failures := result.error.failures;
              fresh(failures) && forall field :: field in failures.entries <==> !Rule(field, p, urlparse)
  {
    var checked := Check(p, urlparse);
    if checked.Raise? {
      assert !Rule(Url, p, urlparse);
      return Raise(UrlValueError);
    }
    var failures := checked.value;
    if failures.entries != map[] {
      var broken :| broken in failures.entries;
      assert !Rule(broken, p, urlparse);
      return Raise(ParseFailedError(failures));
    }
    assert forall field :: Rule(field, p, urlparse);
    assert Rule(CanonicalTitle, p, urlparse) && Rule(Url, p, urlparse);
    return Ok(p.(canonicalTitle := Str(Strip(p.canonicalTitle.text))));
  }

  /** What `validate` returns satisfies every rule, has a trimmed title, and validates to itself. */
  lemma NormalizedIsValid(p: CanonicalProduct, urlparse: UrlParser)
    requires Normalized(p, urlparse).Some?
    ensures var q := Normalized(p, urlparse).value;
            Valid(q, urlparse) && q.canonicalTitle.Str? && Trimmed(q.canonicalTitle.text)
            && Normalized(q, urlparse) == Some(q)
  {
    var q := Normalized(p, urlparse).value;
    StripTrims(p.canonicalTitle.text);
    StripTrims(q.canonicalTitle.text);
    forall field
      ensures Rule(field, q, urlparse)
    {
      assert Rule(field, p, urlparse);
    }
  }
}
