/** The assisted-dialing eligibility checker: given a number as typed and the user's home and
    roaming country codes, decide whether the number may be rewritten for cross-border
    dialing. Guards on the collaborators and the inputs return early; then the codes are
    upper-cased, the number is parsed against the home code, and a short-circuit conjunction
    of checks decides. */
module AssistedDialing {
  import opened Wrappers
  import opened AsciiCase
  import opened PhoneNumbers

  /** The Android context; the checker uses it only for the locale-aware emergency lookup,
      which may depend on the radio and region state the context gives access to. */
  datatype Context = Context(isLocalEmergencyNumber: string -> bool)

  /** The configured allow-list of country codes for which assisted dialing is offered. */
  datatype CountryCodeProvider = CountryCodeProvider(isSupportedCountryCode: string -> bool)

  /** A checker instance and its collaborators, all fixed at construction. A missing
      context or provider (a null reference in the source) is `None`. `isEmergencyNumber`
      is the platform's network-dependent emergency lookup. */
  datatype Constraints = Constraints(
    phoneNumberUtil: PhoneNumberUtil,
    isEmergencyNumber: string -> bool,
    context: Option<Context>,
    countryCodeProvider: Option<CountryCodeProvider>)

  /** The early-return guards of the check: both collaborators present, no input empty. */
  predicate GuardsPass(c: Constraints, number: string, home: string, roam: string)
  {
    && c.context.Some?
    && c.countryCodeProvider.Some?
    && number != []
    && home != []
    && roam != []
  }

  /** The user is roaming when the (already upper-cased) codes differ. */
  function IsUserRoaming(home: string, roam: string): bool
  {
    home != roam
  }

  /** Both codes are on the allow-list; an empty code is rejected first. */
  function AreSupportedCountryCodes(provider: CountryCodeProvider, home: string, roam: string): bool
  {
    if home == [] then false
    else if roam == [] then false
    else provider.isSupportedCountryCode(home) && provider.isSupportedCountryCode(roam)
  }

  /** Parses the number against the home code as default region; a parse exception is
      caught and becomes `None`, so no failure escapes. */
  function ParsePhoneNumber(util: PhoneNumberUtil, number: string, home: string): (r: Option<PhoneNumber>)
    ensures r.None? <==> util.parseAndKeepRawInput(number, home).Failure?
    ensures r.Some? ==> r.value == util.parseAndKeepRawInput(number, home).value
  {
    match util.parseAndKeepRawInput(number, home)
    case Success(pn) => Some(pn)
    case Failure(_) => None
  }

  /** The number already carries a country code that did not come from the default region. */
  function IsInternationalNumber(pn: PhoneNumber): bool
  {
    pn.hasCountryCode && pn.countryCodeSource != FromDefaultCountry
  }

  /** The number carries a non-empty extension. */
  function HasExtension(pn: PhoneNumber): bool
  {
    pn.hasExtension && pn.extension != []
  }

  function IsValidNumber(util: PhoneNumberUtil, pn: PhoneNumber): bool
  {
    util.isValidNumber(pn)
  }

  /** Emergency by either the general or the context-local lookup. */
  function IsEmergencyNumber(c: Constraints, context: Context, number: string): bool
  {
    c.isEmergencyNumber(number) || context.isLocalEmergencyNumber(number)
  }

  /** Whether assisted dialing may be offered for `number` (see the module comment). */
  function MeetsPreconditions(c: Constraints, number: string, home: string, roam: string): bool
  {
    if c.context.None? then false
    else if c.countryCodeProvider.None? then false
    else if number == [] then false
    else if home == [] then false
    else if roam == [] then false
    else
      var home := ToUpperUs(home);
      var roam := ToUpperUs(roam);
      var parsed := ParsePhoneNumber(c.phoneNumberUtil, number, home);
      if parsed.None? then false
      else
        && AreSupportedCountryCodes(c.countryCodeProvider.value, home, roam)
        && IsUserRoaming(home, roam)
        && !IsInternationalNumber(parsed.value)
        && !IsEmergencyNumber(c, c.context.value, number)
        && IsValidNumber(c.phoneNumberUtil, parsed.value)
        && !HasExtension(parsed.value)
  }

  /** Why a number is not eligible: the first check that fails, in evaluation order. */
  datatype Reason =
    | MissingContext
    | MissingCountryCodeProvider
    | EmptyNumber
    | EmptyHomeCountryCode
    | EmptyRoamingCountryCode
    | NumberNotParsed
    | CountryNotSupported
    | UserNotRoaming
    | NumberAlreadyInternational
    | NumberIsEmergency
    | NumberIsInvalid
    | NumberHasExtension

  /** The diagnostic the checker logs before refusing, stated directly on the collaborators'
      answers; the roaming check is stated as case-insensitive inequality of the codes as
      given. `None` when every check passes. */
  function FirstFailure(c: Constraints, number: string, home: string, roam: string): Option<Reason>
  {
    if c.context.None? then Some(MissingContext)
    else if c.countryCodeProvider.None? then Some(MissingCountryCodeProvider)
    else if |number| == 0 then Some(EmptyNumber)
    else if |home| == 0 then Some(EmptyHomeCountryCode)
    else if |roam| == 0 then Some(EmptyRoamingCountryCode)
    else
      var supported := c.countryCodeProvider.value.isSupportedCountryCode;
      match c.phoneNumberUtil.parseAndKeepRawInput(number, ToUpperUs(home))
      case Failure(_) => Some(NumberNotParsed)
      case Success(pn) =>
        if !supported(ToUpperUs(home)) || !supported(ToUpperUs(roam)) then Some(CountryNotSupported)
        else if EqualsIgnoreCase(home, roam) then Some(UserNotRoaming)
        else if pn.hasCountryCode && pn.countryCodeSource != FromDefaultCountry then Some(NumberAlreadyInternational)
        else if c.isEmergencyNumber(number) || c.context.value.isLocalEmergencyNumber(number) then Some(NumberIsEmergency)
        else if !c.phoneNumberUtil.isValidNumber(pn) then Some(NumberIsInvalid)
        else if pn.hasExtension && |pn.extension| > 0 then Some(NumberHasExtension)
        else None
  }

  /** A question put to a collaborator while checking a number. */
  datatype Query =
    | ParseQuery(number: string, defaultRegion: string)
    | SupportQuery(code: string)
    | EmergencyQuery(number: string)
    | LocalEmergencyQuery(number: string)
    | ValidityQuery(pn: PhoneNumber)

  /** The collaborators consulted by one check, in order, following the short-circuit
      evaluation: each query is asked only when every earlier check has passed. */
  function Consulted(c: Constraints, number: string, home: string, roam: string): seq<Query>
  {
    if !GuardsPass(c, number, home, roam) then []
    else
      var home := ToUpperUs(home);
      var roam := ToUpperUs(roam);
      var supported := c.countryCodeProvider.value.isSupportedCountryCode;
      [ParseQuery(number, home)] +
      match c.phoneNumberUtil.parseAndKeepRawInput(number, home)
      case Failure(_) => []
      case Success(pn) =>
        [SupportQuery(home)] +
        if !supported(home) then [] else
        [SupportQuery(roam)] +
        if !supported(roam) || home == roam || IsInternationalNumber(pn) then [] else
        [EmergencyQuery(number)] +
        if c.isEmergencyNumber(number) then [] else
        [LocalEmergencyQuery(number)] +
        if c.context.value.isLocalEmergencyNumber(number) then [] else
        [ValidityQuery(pn)]
  }

  // ---------------------------------------------------------------------------
  // Guards

  /** A missing context or country-code provider makes the number ineligible. */
  lemma MissingCollaboratorIneligible(c: Constraints, number: string, home: string, roam: string)
    requires c.context.None? || c.countryCodeProvider.None?
    ensures !MeetsPreconditions(c, number, home, roam)
    ensures Consulted(c, number, home, roam) == []
  {
  }

  /** An empty number, home code or roaming code makes the number ineligible, and no
      collaborator is consulted. */
  lemma EmptyInputIneligible(c: Constraints, number: string, home: string, roam: string)
    requires number == [] || home == [] || roam == []
    ensures !MeetsPreconditions(c, number, home, roam)
    ensures Consulted(c, number, home, roam) == []
  {
  }

  /** Once the guards pass, the first question is always the parse, against the upper-cased
      home code as default region. */
  lemma ParseComesFirst(c: Constraints, number: string, home: string, roam: string)
    requires GuardsPass(c, number, home, roam)
    ensures |Consulted(c, number, home, roam)| > 0
    ensures Consulted(c, number, home, roam)[0] == ParseQuery(number, ToUpperUs(home))
  {
  }

  /** A number that does not parse against the upper-cased home code is ineligible, and
      nothing after the parse is consulted. */
  lemma ParseFailureIneligible(c: Constraints, number: string, home: string, roam: string)
    requires GuardsPass(c, number, home, roam)
    requires c.phoneNumberUtil.parseAndKeepRawInput(number, ToUpperUs(home)).Failure?
    ensures !MeetsPreconditions(c, number, home, roam)
    ensures Consulted(c, number, home, roam) == [ParseQuery(number, ToUpperUs(home))]
  {
  }

  // ---------------------------------------------------------------------------
  // Country codes

  /** Upper-casing a non-empty code leaves it non-empty, so the emptiness re-checks inside
      AreSupportedCountryCodes never fire when it is called from MeetsPreconditions. */
  lemma SupportRecheckUnreachable(provider: CountryCodeProvider, home: string, roam: string)
    requires home != [] && roam != []
    ensures AreSupportedCountryCodes(provider, ToUpperUs(home), ToUpperUs(roam))
        == (provider.isSupportedCountryCode(ToUpperUs(home))
            && provider.isSupportedCountryCode(ToUpperUs(roam)))
  {
    ToUpperUsEmptyIff(home);
    ToUpperUsEmptyIff(roam);
  }

  /** An unsupported home or roaming code (after upper-casing) makes the number ineligible. */
  lemma UnsupportedCountryIneligible(c: Constraints, number: string, home: string, roam: string)
    requires c.countryCodeProvider.Some?
    requires !c.countryCodeProvider.value.isSupportedCountryCode(ToUpperUs(home))
          || !c.countryCodeProvider.value.isSupportedCountryCode(ToUpperUs(roam))
    ensures !MeetsPreconditions(c, number, home, roam)
  {
  }

  /** Codes that are equal ignoring ASCII case ("us" and "US") mean the user is not roaming,
      and the number is ineligible. */
  lemma SameCountryIneligible(c: Constraints, number: string, home: string, roam: string)
    requires EqualsIgnoreCase(home, roam)
    ensures !MeetsPreconditions(c, number, home, roam)
  {
    ToUpperUsEqualIff(home, roam);
  }

  /** The result depends on the country codes only up to ASCII case. */
  lemma CountryCodeCaseIrrelevant(c: Constraints, number: string,
                                  home: string, roam: string, home': string, roam': string)
    requires EqualsIgnoreCase(home, home') && EqualsIgnoreCase(roam, roam')
    ensures MeetsPreconditions(c, number, home, roam) == MeetsPreconditions(c, number, home', roam')
  {
    ToUpperUsEqualIff(home, home');
    ToUpperUsEqualIff(roam, roam');
  }

  /** A caller that upper-cases the codes itself gets the same decision: the check's own
      upper-casing is a normalisation, and applying it to normalised codes changes nothing. */
  lemma UpperCasedCodesSameDecision(c: Constraints, number: string, home: string, roam: string)
    ensures MeetsPreconditions(c, number, ToUpperUs(home), ToUpperUs(roam))
        == MeetsPreconditions(c, number, home, roam)
  {
    ToUpperUsIdempotent(home);
    ToUpperUsIdempotent(roam);
    ToUpperUsEmptyIff(home);
    ToUpperUsEmptyIff(roam);
  }

  // ---------------------------------------------------------------------------
  // The parsed number

  /** A number whose country code came from the number itself (plus sign, IDD, digits,
      or an unspecified source) is already international and is ineligible. */
  lemma InternationalNumberIneligible(c: Constraints, number: string, home: string, roam: string)
    requires GuardsPass(c, number, home, roam)
    requires c.phoneNumberUtil.parseAndKeepRawInput(number, ToUpperUs(home)).Success?
    requires var pn := c.phoneNumberUtil.parseAndKeepRawInput(number, ToUpperUs(home)).value;
             pn.hasCountryCode && pn.countryCodeSource != FromDefaultCountry
    ensures !MeetsPreconditions(c, number, home, roam)
  {
  }

  /** A number with no country code, or with one taken from the default region, is not
      treated as international: that check is never the reason for a refusal, and the
      decision is made by the other checks alone. */
  lemma DomesticNumberNotInternational(c: Constraints, number: string, home: string, roam: string)
    requires GuardsPass(c, number, home, roam)
    requires c.phoneNumberUtil.parseAndKeepRawInput(number, ToUpperUs(home)).Success?
    requires var pn := c.phoneNumberUtil.parseAndKeepRawInput(number, ToUpperUs(home)).value;
             !pn.hasCountryCode || pn.countryCodeSource == FromDefaultCountry
    ensures FirstFailure(c, number, home, roam) != Some(NumberAlreadyInternational)
    ensures var pn := c.phoneNumberUtil.parseAndKeepRawInput(number, ToUpperUs(home)).value;
      MeetsPreconditions(c, number, home, roam) <==>
        && c.countryCodeProvider.value.isSupportedCountryCode(ToUpperUs(home))
        && c.countryCodeProvider.value.isSupportedCountryCode(ToUpperUs(roam))
        && !EqualsIgnoreCase(home, roam)
        && !c.isEmergencyNumber(number)
        && !c.context.value.isLocalEmergencyNumber(number)
        && c.phoneNumberUtil.isValidNumber(pn)
        && !(pn.hasExtension && pn.extension != [])
  {
    MeetsPreconditionsCharacterised(c, number, home, roam);
  }

  /** A present, non-empty extension makes the number ineligible. */
  lemma ExtensionIneligible(c: Constraints, number: string, home: string, roam: string)
    requires GuardsPass(c, number, home, roam)
    requires c.phoneNumberUtil.parseAndKeepRawInput(number, ToUpperUs(home)).Success?
    requires var pn := c.phoneNumberUtil.parseAndKeepRawInput(number, ToUpperUs(home)).value;
             pn.hasExtension && pn.extension != []
    ensures !MeetsPreconditions(c, number, home, roam)
  {
  }

  /** An extension that is present but empty does not block eligibility: the extension
      check is never the reason for a refusal, and the decision is made by the other checks
      alone. */
  lemma EmptyExtensionAllowed(c: Constraints, number: string, home: string, roam: string)
    requires GuardsPass(c, number, home, roam)
    requires c.phoneNumberUtil.parseAndKeepRawInput(number, ToUpperUs(home)).Success?
    requires c.phoneNumberUtil.parseAndKeepRawInput(number, ToUpperUs(home)).value.extension == []
    ensures FirstFailure(c, number, home, roam) != Some(NumberHasExtension)
    ensures var pn := c.phoneNumberUtil.parseAndKeepRawInput(number, ToUpperUs(home)).value;
      MeetsPreconditions(c, number, home, roam) <==>
        && c.countryCodeProvider.value.isSupportedCountryCode(ToUpperUs(home))
        && c.countryCodeProvider.value.isSupportedCountryCode(ToUpperUs(roam))
        && !EqualsIgnoreCase(home, roam)
        && !(pn.hasCountryCode && pn.countryCodeSource != FromDefaultCountry)
        && !c.isEmergencyNumber(number)
        && !c.context.value.isLocalEmergencyNumber(number)
        && c.phoneNumberUtil.isValidNumber(pn)
  {
    MeetsPreconditionsCharacterised(c, number, home, roam);
  }

  /** An emergency number, by either lookup, is ineligible. */
  lemma EmergencyNumberIneligible(c: Constraints, number: string, home: string, roam: string)
    requires c.context.Some?
    requires c.isEmergencyNumber(number) || c.context.value.isLocalEmergencyNumber(number)
    ensures !MeetsPreconditions(c, number, home, roam)
  {
  }

  /** A number the library does not consider valid is ineligible. */
  lemma InvalidNumberIneligible(c: Constraints, number: string, home: string, roam: string)
    requires c.phoneNumberUtil.parseAndKeepRawInput(number, ToUpperUs(home)).Success?
    requires !c.phoneNumberUtil.isValidNumber(c.phoneNumberUtil.parseAndKeepRawInput(number, ToUpperUs(home)).value)
    ensures !MeetsPreconditions(c, number, home, roam)
  {
  }

  // ---------------------------------------------------------------------------
  // The whole decision

  /** The number is eligible exactly when the guards pass, the parse succeeds, both codes
      are supported, the codes differ ignoring case, the number is not international, no
      emergency lookup matches, the number is valid and it has no non-empty extension. */
  lemma MeetsPreconditionsCharacterised(c: Constraints, number: string, home: string, roam: string)
    ensures MeetsPreconditions(c, number, home, roam) <==>
      && GuardsPass(c, number, home, roam)
      && var parsed := c.phoneNumberUtil.parseAndKeepRawInput(number, ToUpperUs(home));
      && parsed.Success?
      && c.countryCodeProvider.value.isSupportedCountryCode(ToUpperUs(home))
      && c.countryCodeProvider.value.isSupportedCountryCode(ToUpperUs(roam))
      && !EqualsIgnoreCase(home, roam)
      && (!parsed.value.hasCountryCode || parsed.value.countryCodeSource == FromDefaultCountry)
      && !c.isEmergencyNumber(number)
      && !c.context.value.isLocalEmergencyNumber(number)
      && c.phoneNumberUtil.isValidNumber(parsed.value)
      && (!parsed.value.hasExtension || parsed.value.extension == [])
  {
    ToUpperUsEqualIff(home, roam);
    if GuardsPass(c, number, home, roam) {
      ToUpperUsEmptyIff(home);
      ToUpperUsEmptyIff(roam);
    }
  }

  /** The check succeeds exactly when no failure reason is reported. */
  lemma MeetsPreconditionsIffNoFailure(c: Constraints, number: string, home: string, roam: string)
    ensures MeetsPreconditions(c, number, home, roam) <==> FirstFailure(c, number, home, roam).None?
  {
    ToUpperUsEqualIff(home, roam);
    if GuardsPass(c, number, home, roam) {
      ToUpperUsEmptyIff(home);
      ToUpperUsEmptyIff(roam);
    }
  }

  // ---------------------------------------------------------------------------
  // Short-circuit order

  /** The emergency lookups are consulted only after the parse succeeded, both codes were
      found supported, the codes were found to differ and the number was found not to be
      international; the local lookup only after the general one said no. */
  lemma EmergencyQueriedOnlyAfterEarlierChecks(c: Constraints, number: string, home: string, roam: string, q: Query)
    requires q in Consulted(c, number, home, roam)
    requires q.EmergencyQuery? || q.LocalEmergencyQuery?
    ensures GuardsPass(c, number, home, roam)
    ensures q.number == number
    ensures var parsed := c.phoneNumberUtil.parseAndKeepRawInput(number, ToUpperUs(home));
      && parsed.Success?
      && c.countryCodeProvider.value.isSupportedCountryCode(ToUpperUs(home))
      && c.countryCodeProvider.value.isSupportedCountryCode(ToUpperUs(roam))
      && !EqualsIgnoreCase(home, roam)
      && !IsInternationalNumber(parsed.value)
    ensures q.LocalEmergencyQuery? ==> !c.isEmergencyNumber(number)
  {
    ToUpperUsEqualIff(home, roam);
  }

  /** The validity check is consulted only after every earlier check passed, and on the
      number the parser produced. */
  lemma ValidityQueriedOnlyAfterEarlierChecks(c: Constraints, number: string, home: string, roam: string, q: Query)
    requires q in Consulted(c, number, home, roam)
    requires q.ValidityQuery?
    ensures GuardsPass(c, number, home, roam)
    ensures var parsed := c.phoneNumberUtil.parseAndKeepRawInput(number, ToUpperUs(home));
      && parsed.Success?
      && q.pn == parsed.value
      && c.countryCodeProvider.value.isSupportedCountryCode(ToUpperUs(home))
      && c.countryCodeProvider.value.isSupportedCountryCode(ToUpperUs(roam))
      && !EqualsIgnoreCase(home, roam)
      && !IsInternationalNumber(parsed.value)
      && !IsEmergencyNumber(c, c.context.value, number)
  {
    ToUpperUsEqualIff(home, roam);
  }

  /** An eligible number has been put to every collaborator, in the order parse, home
      support, roaming support, general emergency, local emergency, validity. */
  lemma EligibleConsultsEverything(c: Constraints, number: string, home: string, roam: string)
    requires MeetsPreconditions(c, number, home, roam)
    ensures var pn := c.phoneNumberUtil.parseAndKeepRawInput(number, ToUpperUs(home)).value;
      Consulted(c, number, home, roam) ==
        [ ParseQuery(number, ToUpperUs(home)), SupportQuery(ToUpperUs(home)),
          SupportQuery(ToUpperUs(roam)), EmergencyQuery(number),
          LocalEmergencyQuery(number), ValidityQuery(pn) ]
  {
  }

  // ---------------------------------------------------------------------------
  // What is not consulted does not matter

  /** The checks that run before the emergency lookups all pass. */
  predicate PassesBeforeEmergency(c: Constraints, number: string, home: string, roam: string)
  {
    && GuardsPass(c, number, home, roam)
    && var parsed := c.phoneNumberUtil.parseAndKeepRawInput(number, ToUpperUs(home));
    && parsed.Success?
    && c.countryCodeProvider.value.isSupportedCountryCode(ToUpperUs(home))
    && c.countryCodeProvider.value.isSupportedCountryCode(ToUpperUs(roam))
    && !EqualsIgnoreCase(home, roam)
    && !IsInternationalNumber(parsed.value)
  }

  /** The two emergency lookups are asked exactly when the earlier checks pass (the local
      one only when the general one said no). */
  lemma EmergencyQueriedIff(c: Constraints, number: string, home: string, roam: string)
    ensures EmergencyQuery(number) in Consulted(c, number, home, roam)
        <==> PassesBeforeEmergency(c, number, home, roam)
    ensures LocalEmergencyQuery(number) in Consulted(c, number, home, roam)
        <==> PassesBeforeEmergency(c, number, home, roam) && !c.isEmergencyNumber(number)
  {
    ToUpperUsEqualIff(home, roam);
  }

  /** The validity check is asked exactly when every check before it passes. */
  lemma ValidityQueriedIff(c: Constraints, number: string, home: string, roam: string)
    ensures (exists q :: q in Consulted(c, number, home, roam) && q.ValidityQuery?)
        <==> PassesBeforeEmergency(c, number, home, roam)
             && !IsEmergencyNumber(c, c.context.value, number)
  {
    if PassesBeforeEmergency(c, number, home, roam) && !IsEmergencyNumber(c, c.context.value, number) {
      var pn := c.phoneNumberUtil.parseAndKeepRawInput(number, ToUpperUs(home)).value;
      assert ValidityQuery(pn) in Consulted(c, number, home, roam);
    }
  }

  /** When the validity check is not consulted, the number is refused, and it stays refused
      whatever the validity check would have answered. */
  lemma ValidityUnusedWhenNotQueried(c: Constraints, number: string, home: string, roam: string,
                                     v: PhoneNumber -> bool)
    requires forall q :: q in Consulted(c, number, home, roam) ==> !q.ValidityQuery?
    ensures !MeetsPreconditions(c, number, home, roam)
    ensures !MeetsPreconditions(c.(phoneNumberUtil := c.phoneNumberUtil.(isValidNumber := v)), number, home, roam)
  {
    var c' := c.(phoneNumberUtil := c.phoneNumberUtil.(isValidNumber := v));
    ValidityQueriedIff(c, number, home, roam);
    assert PassesBeforeEmergency(c', number, home, roam) == PassesBeforeEmergency(c, number, home, roam);
  }

  /** When the general emergency lookup is not consulted, the number is refused, and it stays
      refused whatever that lookup would have answered. */
  lemma EmergencyUnusedWhenNotQueried(c: Constraints, number: string, home: string, roam: string,
                                      e: string -> bool)
    requires forall q :: q in Consulted(c, number, home, roam) ==> !q.EmergencyQuery?
    ensures !MeetsPreconditions(c, number, home, roam)
    ensures !MeetsPreconditions(c.(isEmergencyNumber := e), number, home, roam)
  {
    var c' := c.(isEmergencyNumber := e);
    EmergencyQueriedIff(c, number, home, roam);
    assert PassesBeforeEmergency(c', number, home, roam) == PassesBeforeEmergency(c, number, home, roam);
  }

  /** When the context-local emergency lookup is not consulted, the number is refused, and it
      stays refused whatever a present context would have answered. */
  lemma LocalEmergencyUnusedWhenNotQueried(c: Constraints, number: string, home: string, roam: string,
                                           local: string -> bool)
    requires forall q :: q in Consulted(c, number, home, roam) ==> !q.LocalEmergencyQuery?
    ensures !MeetsPreconditions(c, number, home, roam)
    ensures var c' := c.(context := if c.context.Some? then Some(Context(local)) else None);
      !MeetsPreconditions(c', number, home, roam)
  {
    var c' := c.(context := if c.context.Some? then Some(Context(local)) else None);
    EmergencyQueriedIff(c, number, home, roam);
    assert PassesBeforeEmergency(c', number, home, roam) == PassesBeforeEmergency(c, number, home, roam);
  }

  /** When the roaming code's support is not looked up (the trace stops before the third
      query), the number is refused, and it stays refused under any allow-list that gives the
      same answer for the home code. */
  lemma RoamingSupportUnusedWhenNotQueried(c: Constraints, number: string, home: string, roam: string,
                                           supported: string -> bool)
    requires |Consulted(c, number, home, roam)| < 3
    requires c.countryCodeProvider.Some? ==>
      supported(ToUpperUs(home)) == c.countryCodeProvider.value.isSupportedCountryCode(ToUpperUs(home))
    ensures !MeetsPreconditions(c, number, home, roam)
    ensures var c' := c.(countryCodeProvider :=
                           if c.countryCodeProvider.Some? then Some(CountryCodeProvider(supported)) else None);
      !MeetsPreconditions(c', number, home, roam)
  {
    var c' := c.(countryCodeProvider :=
                   if c.countryCodeProvider.Some? then Some(CountryCodeProvider(supported)) else None);
    assert Consulted(c', number, home, roam) == Consulted(c, number, home, roam);
    if MeetsPreconditions(c, number, home, roam) {
      EligibleConsultsEverything(c, number, home, roam);
    }
    if MeetsPreconditions(c', number, home, roam) {
      EligibleConsultsEverything(c', number, home, roam);
    }
  }
}
