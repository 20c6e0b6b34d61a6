/** The provider filter of `__init__.py`: the parser for list-valued
    environment settings, the provider record with its fuzzy name/id match
    and CPU-feature check, and the filter object that sorts every offered
    provider into seen / blacklisted / whitelisted sets and later decides
    whether a provider id is allowed. */
module Filter {
  import opened Wrappers
  import Text

  // ---------------------------------------------------------------------
  // _convert_string_array_to_list
  // ---------------------------------------------------------------------

  /** A value handed to the parser: an unset environment variable (`None`),
      a string, or some other Python object. */
  datatype Arg = NoneArg | Str(s: string) | NonString

  /** A string the parser reads as a bracketed list: it starts with `[`,
      ends with `]` and has at least three characters. */
  predicate IsBracketed(s: string) {
    |s| >= 3 && s[0] == '[' && s[|s| - 1] == ']'
  }

  /** The text between the brackets. */
  function Inner(s: string): string
    requires IsBracketed(s)
  {
    s[1..|s| - 1]
  }

  /** What the parser returns for each kind of input. */
  function ListFromArg(a: Arg): seq<string> {
    match a
    case NoneArg => []
    case NonString => []
    case Str(s) =>
      if |s| == 0 then []
      else if s[0] != '[' then [s]
      else if IsBracketed(s) then Text.Split(Inner(s), ',')
      else []
  }

  /** The parser as the source writes it: `error` and `done` flags set by a
      cascade of guarded steps. The element appended for a bracketed input
      is always replaced by the split that follows. */
  method ConvertStringArrayToList(stringarray: Arg) returns (thelist: seq<string>)
    ensures thelist == ListFromArg(stringarray)
  {
    var error := false;
    var done := false;
    thelist := [];

    if stringarray.NoneArg? {
      error := true;
    }
    if !error && !stringarray.Str? {
      error := true;
    }
    if !error && !done {
      if |stringarray.s| == 0 {
        error := true;
      }
    }
    if !error && !done {
      if stringarray.s[0] != '[' {
        thelist := thelist + [stringarray.s];
        done := true;
      }
    }
    if !error && !done {
      if |stringarray.s| < 3 {
        error := true;
      }
    }
    if !error && !done {
      var s := stringarray.s;
      if s[|s| - 1] == ']' {
        thelist := thelist + [s];
      } else {
        error := true;
      }
    }
    if !error && !done {
      var s := stringarray.s;
      thelist := Text.Split(s[1..|s| - 1], ',');
    }
    if error {
      thelist := [];
    }
  }

  /** `None`, a non-string and the empty string all give the empty list. */
  lemma ParserEmptyCases(a: Arg)
    requires a.NoneArg? || a.NonString? || a == Str("")
    ensures ListFromArg(a) == []
  {
  }

  /** A non-empty string that does not start with `[` is a one-element list. */
  lemma ParserSingleton(s: string)
    requires |s| > 0 && s[0] != '['
    ensures ListFromArg(Str(s)) == [s]
  {
  }

  /** A string starting with `[` that is shorter than three characters or
      does not end with `]` gives the empty list. */
  lemma ParserMalformed(s: string)
    requires |s| > 0 && s[0] == '['
    requires |s| < 3 || s[|s| - 1] != ']'
    ensures ListFromArg(Str(s)) == []
  {
  }

  /** A bracketed string gives at least one piece, no piece holds a comma,
      and joining the pieces with commas rebuilds the text between the
      brackets (so empty pieces and spaces are kept). */
  lemma ParserRoundTrip(s: string)
    requires IsBracketed(s)
    ensures var r := ListFromArg(Str(s));
      && |r| >= 1
      && (forall i :: 0 <= i < |r| ==> ',' !in r[i])
      && Text.Join(r, ',') == s[1..|s| - 1]
  {
    Text.JoinSplit(Inner(s), ',');
  }

  /** "[a,]" lists an empty name, and "[]" lists nothing at all. */
  lemma ParserEmptyPieces()
    ensures ListFromArg(Str("[a,]")) == ["a", ""]
    ensures ListFromArg(Str("[]")) == []
  {
    assert Inner("[a,]") == "a,";
    assert Text.Split("", ',') == [""];
    assert ","[1..] == "" && "a,"[1..] == ",";
    assert Text.Split(",", ',') == ["", ""];
    assert Text.Split("a,", ',') == [['a'] + ""] + [""];
    assert ['a'] + "" == "a";
  }

  // ---------------------------------------------------------------------
  // _ProviderInfo
  // ---------------------------------------------------------------------

  /** A provider as seen in one offer. */
  datatype ProviderInfo = ProviderInfo(name: string, providerId: string, cpuCapabilities: seq<string>)

  /** `repr(p)`, `name@provider_id`; hashing and equality both go through it. */
  function Repr(p: ProviderInfo): string {
    p.name + "@" + p.providerId
  }

  /** `str.startswith`. */
  predicate StartsWith(s: string, prefix: string) {
    |prefix| <= |s| && s[..|prefix|] == prefix
  }

  /** `all(feature in caps for feature in features)`. */
  function AllPresent(features: seq<string>, caps: seq<string>): (r: bool)
    ensures r <==> forall i :: 0 <= i < |features| ==> features[i] in caps
  {
    if features == [] then true
    else features[0] in caps && AllPresent(features[1..], caps)
  }

  /** `check_cpu_capabilities`: an empty feature list always passes. */
  function CheckCpuCapabilities(p: ProviderInfo, features: seq<string>): (r: bool)
    ensures |features| == 0 ==> r
    ensures r <==> forall i :: 0 <= i < |features| ==> features[i] in p.cpuCapabilities
  {
    if |features| == 0 then true else AllPresent(features, p.cpuCapabilities)
  }

  /** `fuzzy_matches`: the exclusive or of "the candidate is the name" and
      "the id starts with the candidate". */
  function FuzzyMatches(p: ProviderInfo, candidate: string): (r: bool)
    ensures r <==> (candidate == p.name || candidate <= p.providerId)
                   && !(candidate == p.name && candidate <= p.providerId)
  {
    var whetherNameMatches := candidate == p.name;
    var whetherPartialIdMatches := StartsWith(p.providerId, candidate);
    whetherNameMatches != whetherPartialIdMatches
  }

  /** A candidate equal to the name that is also a prefix of the id does
      not match. */
  lemma FuzzyBothIsNoMatch(p: ProviderInfo)
    requires p.name <= p.providerId
    ensures !FuzzyMatches(p, p.name)
  {
  }

  /** The empty candidate (which a list like "[a,]" contains) matches every
      provider whose name is not empty. */
  lemma FuzzyEmptyCandidate(p: ProviderInfo)
    ensures FuzzyMatches(p, "") <==> p.name != ""
  {
  }

  /** `any(p.fuzzy_matches(c) for c in candidates)`. */
  function AnyMatches(p: ProviderInfo, candidates: seq<string>): (r: bool)
    ensures r <==> exists i :: 0 <= i < |candidates| && FuzzyMatches(p, candidates[i])
  {
    if candidates == [] then false
    else FuzzyMatches(p, candidates[0]) || AnyMatches(p, candidates[1..])
  }

  // ---------------------------------------------------------------------
  // Sets of providers, keyed by repr
  // ---------------------------------------------------------------------

  /** A Python set of `_ProviderInfo`, as a map from repr to the element
      the set holds for it. */
  type ProviderSet = map<string, ProviderInfo>

  ghost predicate KeyedByRepr(m: ProviderSet) {
    forall k {:trigger Repr(m[k])} :: k in m ==> Repr(m[k]) == k
  }

  /** `set.add`: an element equal (same repr) to one already present
      leaves the set as it was. */
  function Add(m: ProviderSet, p: ProviderInfo): (r: ProviderSet)
    ensures r.Keys == m.Keys + {Repr(p)}
    ensures forall k :: k in m ==> r[k] == m[k]
    ensures Repr(p) !in m ==> r[Repr(p)] == p
    ensures KeyedByRepr(m) ==> KeyedByRepr(r)
  {
    if Repr(p) in m then m else m[Repr(p) := p]
  }

  /** Every element of `m` matches some candidate. */
  ghost predicate AllMatch(m: ProviderSet, candidates: seq<string>) {
    forall k {:trigger AnyMatches(m[k], candidates)} :: k in m ==> AnyMatches(m[k], candidates)
  }

  /** Adding a matching provider keeps every element matching. */
  lemma AddKeepsAllMatch(m: ProviderSet, p: ProviderInfo, candidates: seq<string>)
    requires AllMatch(m, candidates) && AnyMatches(p, candidates)
    ensures AllMatch(Add(m, p), candidates)
  {
  }

  /** The reprs of the elements of `m` whose id is `providerId`. */
  function WithId(m: ProviderSet, providerId: string): set<string> {
    set k | k in m && m[k].providerId == providerId
  }

  /** The decision `_is_allowed` reaches for `info`, looked up by id: not
      blacklisted by exactly one entry, on the whitelist when whitelisting
      is requested, and offering every required CPU feature. */
  function Decision(bl: ProviderSet, wl: ProviderSet, fuzzyWl: seq<string>,
                    features: seq<string>, info: ProviderInfo): bool
  {
    && |WithId(bl, info.providerId)| != 1
    && (|fuzzyWl| == 0 || WithId(wl, info.providerId) != {})
    && CheckCpuCapabilities(info, features)
  }

  /** A set has exactly one element iff some element is its only one. */
  lemma {:induction false} SingletonIff(s: set<string>)
    ensures |s| == 1 <==> exists k :: k in s && forall k' :: k' in s ==> k' == k
  {
    if |s| == 1 {
      var k :| k in s;
      assert |s - {k}| == 0;
      assert s - {k} == {};
      forall k' | k' in s ensures k' == k {
        assert k' !in s - {k};
      }
    }
    if exists k :: k in s && forall k' :: k' in s ==> k' == k {
      var k :| k in s && forall k' :: k' in s ==> k' == k;
      assert s == {k};
    }
  }

  /** The decision spelled out: not blacklisted by exactly one entry, on
      the whitelist when one is requested, and every feature offered. */
  lemma DecisionIff(bl: ProviderSet, wl: ProviderSet, fuzzyWl: seq<string>,
                    features: seq<string>, info: ProviderInfo)
    ensures Decision(bl, wl, fuzzyWl, features, info) <==>
      && !(exists k :: k in WithId(bl, info.providerId) &&
             forall k' :: k' in WithId(bl, info.providerId) ==> k' == k)
      && (|fuzzyWl| == 0 || exists k :: k in wl && wl[k].providerId == info.providerId)
      && (forall i :: 0 <= i < |features| ==> features[i] in info.cpuCapabilities)
  {
    var ids := WithId(bl, info.providerId);
    SingletonIff(ids);
    var listed := WithId(wl, info.providerId) != {};
    assert listed <==> exists k :: k in wl && wl[k].providerId == info.providerId by {
      if exists k :: k in wl && wl[k].providerId == info.providerId {
        var k :| k in wl && wl[k].providerId == info.providerId;
        assert k in WithId(wl, info.providerId);
      }
    }
    var featuresOk := CheckCpuCapabilities(info, features);
    assert Decision(bl, wl, fuzzyWl, features, info) == (|ids| != 1 && (|fuzzyWl| == 0 || listed) && featuresOk);
  }

  /** Two blacklist entries sharing an id cancel out: the count is two, not
      one, so a provider blacklisted under two names is not rejected. */
  lemma TwoBlacklistEntriesAllow()
    ensures var a := ProviderInfo("a", "0x1", []);
            var b := ProviderInfo("b", "0x1", []);
            var bl := map[Repr(a) := a, Repr(b) := b];
            Decision(bl, map[], [], [], a)
  {
    var a := ProviderInfo("a", "0x1", []);
    var b := ProviderInfo("b", "0x1", []);
    var bl := map[Repr(a) := a, Repr(b) := b];
    assert Repr(a) != Repr(b) by { assert Repr(a)[0] != Repr(b)[0]; }
    assert WithId(bl, "0x1") == {Repr(a), Repr(b)};
  }

  /** The three sets `score_offer` maintains. */
  datatype Sets = Sets(seen: ProviderSet, bl: ProviderSet, wl: ProviderSet)

  /** What the filter keeps true of its sets: each is keyed by repr, the
      blacklisted and whitelisted ones were seen, and each of them matched
      a candidate of its list. */
  ghost predicate SetsValid(s: Sets, fuzzyBl: seq<string>, fuzzyWl: seq<string>) {
    && KeyedByRepr(s.seen) && KeyedByRepr(s.bl) && KeyedByRepr(s.wl)
    && s.bl.Keys <= s.seen.Keys && s.wl.Keys <= s.seen.Keys
    && AllMatch(s.bl, fuzzyBl) && AllMatch(s.wl, fuzzyWl)
  }

  /** The set updates of `score_offer` for provider `p`: always seen; then
      blacklisted if a blacklist candidate matches, else whitelisted if a
      whitelist candidate matches. */
  function Classify(s: Sets, p: ProviderInfo, fuzzyBl: seq<string>, fuzzyWl: seq<string>): Sets {
    var seen := Add(s.seen, p);
    if AnyMatches(p, fuzzyBl) then Sets(seen, Add(s.bl, p), s.wl)
    else if AnyMatches(p, fuzzyWl) then Sets(seen, s.bl, Add(s.wl, p))
    else Sets(seen, s.bl, s.wl)
  }

  /** The provider is always recorded as seen; it lands on the blacklist
      exactly when a blacklist candidate matches, on the whitelist only
      when none does and a whitelist candidate matches, and a single offer
      never changes both. */
  lemma ClassifySorts(s: Sets, p: ProviderInfo, fuzzyBl: seq<string>, fuzzyWl: seq<string>)
    ensures var r := Classify(s, p, fuzzyBl, fuzzyWl);
      && r.seen.Keys == s.seen.Keys + {Repr(p)}
      && (AnyMatches(p, fuzzyBl) ==> Repr(p) in r.bl && r.wl == s.wl)
      && (!AnyMatches(p, fuzzyBl) ==> r.bl == s.bl)
      && (!AnyMatches(p, fuzzyBl) && AnyMatches(p, fuzzyWl) ==> Repr(p) in r.wl)
      && (!AnyMatches(p, fuzzyBl) && !AnyMatches(p, fuzzyWl) ==> r.wl == s.wl)
      && (r.bl == s.bl || r.wl == s.wl)
  {
  }

  /** Classifying an offer keeps the sets valid. */
  lemma ClassifyKeepsValid(s: Sets, p: ProviderInfo, fuzzyBl: seq<string>, fuzzyWl: seq<string>)
    requires SetsValid(s, fuzzyBl, fuzzyWl)
    ensures SetsValid(Classify(s, p, fuzzyBl, fuzzyWl), fuzzyBl, fuzzyWl)
  {
    if AnyMatches(p, fuzzyBl) {
      AddKeepsAllMatch(s.bl, p, fuzzyBl);
    } else if AnyMatches(p, fuzzyWl) {
      AddKeepsAllMatch(s.wl, p, fuzzyWl);
    }
  }

  // ---------------------------------------------------------------------
  // FilterProviderMS
  // ---------------------------------------------------------------------

  /** The `features` argument of the constructor. */
  datatype FeaturesArg = Unset | OneFeature(feature: string) | Features(items: seq<string>) | NotIterable

  /** How the constructor normalises `features`: unset reads the
      GNFEATURES setting through the parser, a string becomes a
      one-element list, an iterable is kept, anything else is ignored. */
  function NormalizeFeatures(features: FeaturesArg, envFeatures: Arg): seq<string> {
    match features
    case Unset => ListFromArg(envFeatures)
    case OneFeature(f) => [f]
    case Features(items) => items
    case NotIterable => []
  }

  /** A feature passed as a string is taken whole, while the same text in
      GNFEATURES goes through the parser: the two agree on a plain word,
      but a bracketed list given as the argument stays one feature. */
  lemma FeaturesArgVersusSetting(s: string, envFeatures: Arg)
    requires |s| > 0
    ensures s[0] != '[' ==>
      NormalizeFeatures(OneFeature(s), envFeatures) == NormalizeFeatures(Unset, Str(s)) == [s]
    ensures IsBracketed(s) ==>
      && NormalizeFeatures(OneFeature(s), envFeatures) == [s]
      && NormalizeFeatures(Unset, Str(s)) == Text.Split(Inner(s), ',')
      && forall i :: 0 <= i < |NormalizeFeatures(Unset, Str(s))| ==> NormalizeFeatures(Unset, Str(s))[i] != s
  {
    if IsBracketed(s) {
      var items := Text.Split(Inner(s), ',');
      forall i | 0 <= i < |items| ensures items[i] != s {
        assert |items[i]| <= |Inner(s)|;
      }
    }
  }

  /** Why `_is_allowed` raises. */
  datatype FilterError =
    | ProviderNotStored    // `matched[0]` on an empty list: the id was never offered
    | UndefinedProviderId  // the reject path names `providerId`, which is not defined

  class FilterProvider {
    var providerFuzzyBl: seq<string>
    var providerFuzzyWl: seq<string>
    var features: seq<string>
    var providerInfoBl: ProviderSet
    var providerInfoWl: ProviderSet
    var providersSeenSoFar: ProviderSet
    var providersBlacklistedSoFar: set<string>

    /** Every set is keyed by repr; everything blacklisted or whitelisted was
        seen and matched a candidate of its list. */
    ghost predicate Valid()
      reads this
    {
      SetsValid(Current(), providerFuzzyBl, providerFuzzyWl)
    }

    /** The seen, blacklisted and whitelisted sets as one value. */
    function Current(): Sets
      reads this
    {
      Sets(providersSeenSoFar, providerInfoBl, providerInfoWl)
    }

    /** The constructor, with the GNPROVIDER_BL, GNPROVIDER and GNFEATURES
        settings passed in. */
    constructor (envBl: Arg, envWl: Arg, envFeatures: Arg, featuresArg: FeaturesArg)
      ensures Valid()
      ensures providerFuzzyBl == ListFromArg(envBl)
      ensures providerFuzzyWl == ListFromArg(envWl)
      ensures features == NormalizeFeatures(featuresArg, envFeatures)
      ensures providerInfoBl == map[] && providerInfoWl == map[] && providersSeenSoFar == map[]
      ensures providersBlacklistedSoFar == {}
    {
      var bl := ConvertStringArrayToList(envBl);
      var wl := ConvertStringArrayToList(envWl);
      var fs: seq<string>;
      match featuresArg {
        case Unset =>
          fs := ConvertStringArrayToList(envFeatures);
        case OneFeature(f) =>
          fs := [f];
        case Features(items) =>
          fs := items;
        case NotIterable =>
          fs := [];
      }
      providerFuzzyBl := bl;
      providerFuzzyWl := wl;
      features := fs;
      providerInfoBl := map[];
      providerInfoWl := map[];
      providersSeenSoFar := map[];
      providersBlacklistedSoFar := {};
    }

    /** The set updates of `score_offer` for one offer: `name` is the
        offer's node name (`None` when the property is missing, which raises
        `KeyError` and is caught), `issuer` its provider id and `caps` its
        CPU capabilities (missing means the empty list). */
    method ScoreOffer(name: Option<string>, issuer: string, caps: Option<seq<string>>)
      requires Valid()
      modifies this
      ensures Valid()
      ensures providerFuzzyBl == old(providerFuzzyBl) && providerFuzzyWl == old(providerFuzzyWl)
      ensures features == old(features) && providersBlacklistedSoFar == old(providersBlacklistedSoFar)
      ensures name.None? ==> Current() == old(Current())
      ensures name.Some? ==>
        Current() == Classify(old(Current()),
                              ProviderInfo(name.value, issuer, if caps.Some? then caps.value else []),
                              providerFuzzyBl, providerFuzzyWl)
    {
      if name.None? {
        return;
      }
      var providerInfo := ProviderInfo(name.value, issuer, if caps.Some? then caps.value else []);
      ClassifyKeepsValid(Current(), providerInfo, providerFuzzyBl, providerFuzzyWl);
      ghost var next := Classify(Current(), providerInfo, providerFuzzyBl, providerFuzzyWl);
      var blMatch := AnyMatches(providerInfo, providerFuzzyBl);
      var wlMatch := AnyMatches(providerInfo, providerFuzzyWl);
      providersSeenSoFar := Add(providersSeenSoFar, providerInfo);
      if blMatch {
        providerInfoBl := Add(providerInfoBl, providerInfo);
      } else if wlMatch {
        providerInfoWl := Add(providerInfoWl, providerInfo);
      }
      assert Current() == next;
    }

    /** `_is_allowed`: the provider is looked up among the seen ones by id
        (any of them when several share it), then tested against the
        blacklist, the whitelist and the required features. An allowed
        provider gives `True`; a rejected one raises, because the reject
        path names an undefined variable; an id never seen raises too. */
    method IsAllowed(providerId: string) returns (r: Result<bool, FilterError>)
      ensures r == Err(ProviderNotStored) <==> WithId(providersSeenSoFar, providerId) == {}
      ensures r.Ok? ==> r.value
      ensures r.Ok? ==>
        (exists k :: k in providersSeenSoFar && providersSeenSoFar[k].providerId == providerId &&
          Decision(providerInfoBl, providerInfoWl, providerFuzzyWl, features, providersSeenSoFar[k]))
      ensures r == Err(UndefinedProviderId) ==>
        (exists k :: k in providersSeenSoFar && providersSeenSoFar[k].providerId == providerId &&
          !Decision(providerInfoBl, providerInfoWl, providerFuzzyWl, features, providersSeenSoFar[k]))
    {
      var matched := WithId(providersSeenSoFar, providerId);
      if matched == {} {
        return Err(ProviderNotStored);
      }
      var k :| k in matched;
      var providerInfo := providersSeenSoFar[k];

      var matchedOnWhitelist := true;
      var matchedOnBlacklist := |WithId(providerInfoBl, providerId)| == 1;
      if matchedOnBlacklist {
      } else if |providerFuzzyWl| > 0 {
        if |providerInfoWl| > 0 {
          matchedOnWhitelist := WithId(providerInfoWl, providerId) != {};
        } else {
          matchedOnWhitelist := false;
        }
      }
      var matchedOnFeatures := CheckCpuCapabilities(providerInfo, features);
      var allowed := !matchedOnBlacklist && matchedOnWhitelist && matchedOnFeatures;
      if !allowed {
        return Err(UndefinedProviderId);
      }
      return Ok(true);
    }
  }
}
