/** A small concrete configuration of the checker (home "US", allow-list {US, CA}, a parser
    that knows a handful of inputs) and the decisions it gives for typical calls. They show
    that both outcomes are reachable and that each refusal has the expected reason. */
module AssistedDialingScenarios {
  import opened Wrappers
  import opened AsciiCase
  import opened PhoneNumbers
  import opened AssistedDialing

  const Domestic: PhoneNumber :=
    PhoneNumber(true, 1, FromDefaultCountry, 5551234567, false, "", "5551234567")

  /** A parser that recognises a few North American inputs, whatever the default region. */
  function SampleParse(number: string, region: string): Result<PhoneNumber, ParseErrorType>
  {
    if number == "5551234567" then Success(Domestic)
    else if number == "+15551234567" then
      Success(PhoneNumber(true, 1, FromNumberWithPlusSign, 5551234567, false, "", number))
    else if number == "5551234567;123" then
      Success(PhoneNumber(true, 1, FromDefaultCountry, 5551234567, true, "123", number))
    else if number == "911" then
      Success(PhoneNumber(true, 1, FromDefaultCountry, 911, false, "", number))
    else Failure(NotANumber)
  }

  /** Ten-digit national numbers are valid. */
  function SampleIsValid(pn: PhoneNumber): bool
  {
    1000000000 <= pn.nationalNumber < 10000000000
  }

  const Sample: Constraints :=
    Constraints(
      PhoneNumberUtil(SampleParse, SampleIsValid),
      (n: string) => n == "911",
      Some(Context((n: string) => n == "112")),
      Some(CountryCodeProvider((code: string) => code == "US" || code == "CA")))

  lemma UpperCodes()
    ensures ToUpperUs("US") == "US" && ToUpperUs("CA") == "CA" && ToUpperUs("FR") == "FR"
    ensures ToUpperUs("us") == "US" && ToUpperUs("ca") == "CA"
  {
    ToUpperUsFixesUpper("US");
    ToUpperUsFixesUpper("CA");
    ToUpperUsFixesUpper("FR");
    ToUpperUsEqualIff("us", "US");
    ToUpperUsEqualIff("ca", "CA");
  }

  /** A domestic, valid, extension-free number while roaming from US to CA is eligible,
      and so it is with the codes written in lower case. */
  lemma DomesticNumberWhileRoamingEligible()
    ensures MeetsPreconditions(Sample, "5551234567", "US", "CA")
    ensures MeetsPreconditions(Sample, "5551234567", "us", "ca")
  {
    UpperCodes();
    MeetsPreconditionsIffNoFailure(Sample, "5551234567", "US", "CA");
    MeetsPreconditionsIffNoFailure(Sample, "5551234567", "us", "ca");
  }

  /** A number typed with its country code is already international. */
  lemma PlusNumberRefused()
    ensures FirstFailure(Sample, "+15551234567", "US", "CA") == Some(NumberAlreadyInternational)
    ensures !MeetsPreconditions(Sample, "+15551234567", "US", "CA")
  {
    UpperCodes();
    MeetsPreconditionsIffNoFailure(Sample, "+15551234567", "US", "CA");
  }

  /** An emergency number is refused. */
  lemma EmergencyRefused()
    ensures FirstFailure(Sample, "911", "US", "CA") == Some(NumberIsEmergency)
    ensures !MeetsPreconditions(Sample, "911", "US", "CA")
  {
    UpperCodes();
    MeetsPreconditionsIffNoFailure(Sample, "911", "US", "CA");
  }

  /** Home and roaming in the same country, even written in different case, is refused. */
  lemma NotRoamingRefused()
    ensures FirstFailure(Sample, "5551234567", "US", "US") == Some(UserNotRoaming)
    ensures FirstFailure(Sample, "5551234567", "us", "US") == Some(UserNotRoaming)
    ensures !MeetsPreconditions(Sample, "5551234567", "us", "US")
  {
    UpperCodes();
    MeetsPreconditionsIffNoFailure(Sample, "5551234567", "us", "US");
  }

  /** A number with an extension is refused. */
  lemma ExtensionRefused()
    ensures FirstFailure(Sample, "5551234567;123", "US", "CA") == Some(NumberHasExtension)
    ensures !MeetsPreconditions(Sample, "5551234567;123", "US", "CA")
  {
    UpperCodes();
    MeetsPreconditionsIffNoFailure(Sample, "5551234567;123", "US", "CA");
  }

  /** A roaming country outside the allow-list is refused. */
  lemma UnsupportedCountryRefused()
    ensures FirstFailure(Sample, "5551234567", "US", "FR") == Some(CountryNotSupported)
    ensures !MeetsPreconditions(Sample, "5551234567", "US", "FR")
  {
    UpperCodes();
    MeetsPreconditionsIffNoFailure(Sample, "5551234567", "US", "FR");
  }

  /** An input the parser rejects is refused. */
  lemma UnparsableRefused()
    ensures FirstFailure(Sample, "abc", "US", "CA") == Some(NumberNotParsed)
    ensures !MeetsPreconditions(Sample, "abc", "US", "CA")
  {
    UpperCodes();
    MeetsPreconditionsIffNoFailure(Sample, "abc", "US", "CA");
  }
}
