/** The parts of the phone-number library the eligibility checker relies on: the parsed
    number, where its country code came from, the parse error, and the library's parse and
    validity operations, which are foreign code and enter the model as function values. */
module PhoneNumbers {
  import opened Wrappers

  /** How the parser obtained the country code of a number. */
  datatype CountryCodeSource =
    | FromNumberWithPlusSign
    | FromNumberWithIdd
    | FromNumberWithoutPlusSign
    | FromDefaultCountry
    | Unspecified

  /** A parsed phone number: the fields the checker reads, plus the country code, the
      national number and the raw input that the validity check and the parser keep. */
  datatype PhoneNumber = PhoneNumber(
    hasCountryCode: bool,
    countryCode: int,
    countryCodeSource: CountryCodeSource,
    nationalNumber: nat,
    hasExtension: bool,
    extension: string,
    rawInput: string)

  /** The reasons a parse can fail, carried by the library's parse exception. */
  datatype ParseErrorType =
    | InvalidCountryCode
    | NotANumber
    | TooShortAfterIdd
    | TooShortNsn
    | TooLong

  /** The library instance: `parseAndKeepRawInput(number, defaultRegion)` either yields a
      number or throws a parse exception (here a Failure), and `isValidNumber` is the
      library's validity rule. */
  datatype PhoneNumberUtil = PhoneNumberUtil(
    parseAndKeepRawInput: (string, string) -> Result<PhoneNumber, ParseErrorType>,
    isValidNumber: PhoneNumber -> bool)
}
