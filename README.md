# Assisted-dialing eligibility checker

A Dafny model of the eligibility check behind Android's assisted dialing. Assisted dialing
rewrites a domestic-looking number so that it can be dialled while roaming abroad.
`Constraints.meetsPreconditions(number, homeCode, roamingCode)` decides whether that rewrite
may be offered. It works in two stages:

- Guards that each return `false` early: a missing context, a missing country-code
  provider, or an empty number, home code or roaming code.
- After that, both codes are upper-cased. The number is parsed with the upper-cased home
  code as default region, and a parse exception means `false`. The rest is a short-circuit
  conjunction of six checks:
  1. both codes are on the allow-list;
  2. the codes differ (the user is roaming);
  3. the number is not already international;
  4. it is not an emergency number;
  5. it is valid;
  6. it has no non-empty extension.

Files:

- `wrappers.dfy`: `Option` and `Result`.
- `ascii_case.dfy` (module `AsciiCase`): upper-casing under the US locale, restricted to
  ASCII. Also the case-insensitive string equality it induces, defined separately.
- `phone_numbers.dfy` (module `PhoneNumbers`): the parsed number, the country-code source,
  the parse error, and the phone-number library's parse and validity operations. The
  library operations are function values.
- `constraints.dfy` (module `AssistedDialing`): the checker itself. `MeetsPreconditions`
  follows the source branch for branch. It is paired with two functions:
  - `FirstFailure`, the first check that refuses the number (the step whose log line the
    source writes before returning `false`), stated on the collaborators' raw answers. A parse
    failure is reported as `NumberNotParsed` without the library's error, because the source
    discards the exception;
  - `Consulted`, the sequence of questions put to the collaborators, used to state the
    short-circuit order.
- `scenarios.dfy` (module `AssistedDialingScenarios`): a concrete configuration and the
  decisions it gives for typical numbers. It shows that both outcomes can happen.

The collaborators are inputs to the model:

- the number parser and validity check (`PhoneNumberUtil`);
- the allow-list (`CountryCodeProvider`);
- the general emergency lookup;
- the context-local emergency lookup (`Context`).

The source's null checks on the context and the provider become `Option` fields. Each check
is a Dafny function, so repeated calls with the same inputs and the same collaborator answers
give the same result.

Two details of the code that the model keeps:

- The two allow-list lookups are short-circuited. The roaming code is not looked up when the
  home code is unsupported (`Consulted` records this).
- The parse uses the upper-cased home code, not the code as given.

## Model

| member | source | states |
|---|---|---|
| AsciiCase.ToUpperChar | src/com/android/phone/assisteddialing/Constraints.java:96-97 | the upper case of a character is never a lower-case letter, equals the input ignoring case, and leaves non-lower-case characters unchanged |
| AsciiCase.ToUpperCharEqualIff | src/com/android/phone/assisteddialing/Constraints.java:118-123 | two characters have the same upper case exactly when they are equal ignoring case |
| AsciiCase.ToUpperUs | src/com/android/phone/assisteddialing/Constraints.java:96-97 | upper-casing keeps the length, leaves no lower-case letter, and keeps each character equal to the input's ignoring case |
| AsciiCase.ToUpperUsAt | src/com/android/phone/assisteddialing/Constraints.java:96-97 | those three properties fix each character of the result: it is the upper case of the input's character |
| AsciiCase.UpperCaseDetermined | src/com/android/phone/assisteddialing/Constraints.java:96-97 | the only character that equals c ignoring case and is not lower-case is the upper case of c |
| AsciiCase.ToUpperUsFixesUpper | src/com/android/phone/assisteddialing/Constraints.java:96-97 | a code with no lower-case letter ("US") is unchanged by upper-casing |
| AsciiCase.ToUpperUsIdempotent | src/com/android/phone/assisteddialing/Constraints.java:96-97 | upper-casing an upper-cased code changes nothing |
| AsciiCase.ToUpperUsEmptyIff | src/com/android/phone/assisteddialing/Constraints.java:131-139 | upper-casing makes a code empty exactly when it was already empty |
| AsciiCase.ToUpperUsEqualIff | src/com/android/phone/assisteddialing/Constraints.java:118-123 | upper-cased codes are equal exactly when the codes as given are equal ignoring case (both directions) |
| AssistedDialing.MeetsPreconditions | src/com/android/phone/assisteddialing/Constraints.java:67-113 | no contract of its own; characterised by MeetsPreconditionsCharacterised and MeetsPreconditionsIffNoFailure, with one lemma per refusal reason below |
| AssistedDialing.IsUserRoaming | src/com/android/phone/assisteddialing/Constraints.java:118-123 | no contract of its own; SameCountryIneligible and ToUpperUsEqualIff show it is case-insensitive inequality of the codes as given |
| AssistedDialing.AreSupportedCountryCodes | src/com/android/phone/assisteddialing/Constraints.java:129-146 | no contract of its own; SupportRecheckUnreachable shows it is both allow-list lookups, and UnsupportedCountryIneligible gives its effect |
| AssistedDialing.IsInternationalNumber | src/com/android/phone/assisteddialing/Constraints.java:166-177 | no contract of its own; InternationalNumberIneligible and DomesticNumberNotInternational give its effect in both cases |
| AssistedDialing.HasExtension | src/com/android/phone/assisteddialing/Constraints.java:185-193 | no contract of its own; ExtensionIneligible and EmptyExtensionAllowed give its effect in both cases |
| AssistedDialing.IsValidNumber | src/com/android/phone/assisteddialing/Constraints.java:198-203 | no contract of its own; InvalidNumberIneligible and ValidityUnusedWhenNotQueried give its effect |
| AssistedDialing.IsEmergencyNumber | src/com/android/phone/assisteddialing/Constraints.java:208-216 | no contract of its own; EmergencyNumberIneligible and EmergencyQueriedIff give its effect and its short-circuit |
| AssistedDialing.FirstFailure | src/com/android/phone/assisteddialing/Constraints.java:71-112 | no contract of its own; the refusing step in evaluation order, tied to the decision by MeetsPreconditionsIffNoFailure |
| AssistedDialing.Consulted | src/com/android/phone/assisteddialing/Constraints.java:99-113 | no contract of its own; the collaborator queries in call order, tied to the decision by EligibleConsultsEverything, the QueriedIff lemmas and the UnusedWhenNotQueried lemmas |
| AssistedDialing.ParsePhoneNumber | src/com/android/phone/assisteddialing/Constraints.java:152-161 | the result is empty exactly when the library parse fails, and otherwise holds the parsed number; no failure escapes |
| AssistedDialing.MissingCollaboratorIneligible | src/com/android/phone/assisteddialing/Constraints.java:71-79 | a missing context or country-code provider gives false, and no collaborator is consulted |
| AssistedDialing.EmptyInputIneligible | src/com/android/phone/assisteddialing/Constraints.java:81-94 | an empty number, home code or roaming code gives false, and no collaborator is consulted |
| AssistedDialing.ParseComesFirst | src/com/android/phone/assisteddialing/Constraints.java:96-100 | once the guards pass, the first query is the parse of the number with the upper-cased home code as default region |
| AssistedDialing.ParseFailureIneligible | src/com/android/phone/assisteddialing/Constraints.java:99-105 | a number that fails to parse gives false, and the parse is the only query made |
| AssistedDialing.SupportRecheckUnreachable | src/com/android/phone/assisteddialing/Constraints.java:129-146 | for non-empty codes, the emptiness re-checks in the support test cannot fire: it is exactly "both upper-cased codes are supported" |
| AssistedDialing.UnsupportedCountryIneligible | src/com/android/phone/assisteddialing/Constraints.java:141-143 | if either upper-cased code is not supported, the result is false |
| AssistedDialing.SameCountryIneligible | src/com/android/phone/assisteddialing/Constraints.java:118-123 | codes equal ignoring ASCII case ("us" and "US") mean the user is not roaming, and the result is false |
| AssistedDialing.UpperCasedCodesSameDecision | src/com/android/phone/assisteddialing/Constraints.java:96-97 | passing codes that are already upper-cased gives the same decision as passing them as typed |
| AssistedDialing.CountryCodeCaseIrrelevant | src/com/android/phone/assisteddialing/Constraints.java:96-97 | replacing either code by one equal to it ignoring case does not change the result |
| AssistedDialing.InternationalNumberIneligible | src/com/android/phone/assisteddialing/Constraints.java:166-177 | a parsed number with a country code whose source is not the default country gives false |
| AssistedDialing.DomesticNumberNotInternational | src/com/android/phone/assisteddialing/Constraints.java:166-177 | a parsed number with no country code, or one from the default country, is never refused as international, and the decision then rests on the other checks alone |
| AssistedDialing.ExtensionIneligible | src/com/android/phone/assisteddialing/Constraints.java:185-193 | a parsed number with a present, non-empty extension gives false |
| AssistedDialing.EmptyExtensionAllowed | src/com/android/phone/assisteddialing/Constraints.java:185-193 | a parsed number whose extension is empty (present or not) is never refused for its extension, and the decision then rests on the other checks alone |
| AssistedDialing.EmergencyNumberIneligible | src/com/android/phone/assisteddialing/Constraints.java:208-216 | if either the general or the context-local emergency lookup matches, the result is false |
| AssistedDialing.InvalidNumberIneligible | src/com/android/phone/assisteddialing/Constraints.java:198-203 | a parsed number that the library says is invalid gives false |
| AssistedDialing.MeetsPreconditionsCharacterised | src/com/android/phone/assisteddialing/Constraints.java:67-113 | true exactly when: the guards pass; the parse succeeds; both codes are supported; the codes differ ignoring case; the number is not international; neither emergency lookup matches; the number is valid; it has no non-empty extension |
| AssistedDialing.MeetsPreconditionsIffNoFailure | src/com/android/phone/assisteddialing/Constraints.java:71-112 | the check succeeds exactly when no failure reason is reported |
| AssistedDialing.EmergencyQueriedOnlyAfterEarlierChecks | src/com/android/phone/assisteddialing/Constraints.java:107-110 | the emergency lookups run only after the parse, support, roaming and international checks pass; the local lookup runs only after the general one says no |
| AssistedDialing.ValidityQueriedOnlyAfterEarlierChecks | src/com/android/phone/assisteddialing/Constraints.java:107-111 | the validity check runs only after every earlier check passes, and on the number the parser produced |
| AssistedDialing.EligibleConsultsEverything | src/com/android/phone/assisteddialing/Constraints.java:99-112 | an eligible number has been put to every collaborator, in source order |
| AssistedDialing.EmergencyQueriedIff | src/com/android/phone/assisteddialing/Constraints.java:107-110 | the general emergency lookup is asked exactly when the parse, support, roaming and international checks pass; the local one exactly when, in addition, the general one said no |
| AssistedDialing.ValidityQueriedIff | src/com/android/phone/assisteddialing/Constraints.java:107-111 | the validity check is asked exactly when every check before it passes |
| AssistedDialing.ValidityUnusedWhenNotQueried | src/com/android/phone/assisteddialing/Constraints.java:110-111 | when the validity check is not asked, the number is refused whatever that check would answer |
| AssistedDialing.EmergencyUnusedWhenNotQueried | src/com/android/phone/assisteddialing/Constraints.java:208-216 | when the general emergency lookup is not asked, the number is refused whatever that lookup would answer |
| AssistedDialing.LocalEmergencyUnusedWhenNotQueried | src/com/android/phone/assisteddialing/Constraints.java:208-216 | when the context-local emergency lookup is not asked, the number is refused whatever that lookup would answer |
| AssistedDialing.RoamingSupportUnusedWhenNotQueried | src/com/android/phone/assisteddialing/Constraints.java:141-143 | when the roaming code's support is not looked up, the number is refused under any allow-list that agrees on the home code |
| AssistedDialingScenarios.DomesticNumberWhileRoamingEligible | src/com/android/phone/assisteddialing/Constraints.java:107-112 | a domestic, valid number with no extension, roaming from US to CA, is eligible; the same holds with lower-case codes |
| AssistedDialingScenarios.PlusNumberRefused | src/com/android/phone/assisteddialing/Constraints.java:166-177 | "+15551234567" is refused as already international |
| AssistedDialingScenarios.EmergencyRefused | src/com/android/phone/assisteddialing/Constraints.java:208-216 | "911" is refused as an emergency number |
| AssistedDialingScenarios.NotRoamingRefused | src/com/android/phone/assisteddialing/Constraints.java:118-123 | home and roaming codes "us" and "US" are refused as not roaming |
| AssistedDialingScenarios.ExtensionRefused | src/com/android/phone/assisteddialing/Constraints.java:185-193 | a number with extension "123" is refused |
| AssistedDialingScenarios.UnsupportedCountryRefused | src/com/android/phone/assisteddialing/Constraints.java:141-143 | a roaming code outside the allow-list is refused |
| AssistedDialingScenarios.UnparsableRefused | src/com/android/phone/assisteddialing/Constraints.java:152-161 | an unparsable input is refused at the parse step |

## Left out

- AsciiCase.ToUpperUs, AsciiCase.ToUpperChar: map only the ASCII letters. `toUpperCase(Locale.US)` also upper-cases
  non-ASCII letters, and some of them change length ("ß" becomes "SS"). The model keeps
  the length and leaves non-ASCII characters unchanged. For ISO 3166-1 alpha-2 codes the two
  agree.
- The phone-number library is not modelled. Its parse (`parseAndKeepRawInput`) and its
  validity rule (`isValidNumber`) are function values. A parse exception is a `Failure`
  carrying the error type. The source gets the parser from the `PhoneGlobals` instance and
  the validity check from `PhoneNumberUtil.getInstance()`. The model puts both in one
  `PhoneNumberUtil` value.
- The emergency-number lookups (`PhoneNumberUtils.isEmergencyNumber` and
  `isLocalEmergencyNumber`) read live network and region state. They are function values,
  combined with OR. Within one check, each lookup's answer is taken as fixed.
- Null strings are not modelled, because Dafny strings cannot be null. In the source,
  `TextUtils.isEmpty` is also true of a null number, home code or roaming code, so a null
  string is refused exactly like an empty one.
- The `PhoneGlobals` singleton lookup and the construction of the context are not
  modelled. The context and the provider are given as optional values.
- The `Log.i` diagnostics are not modelled as output. `FirstFailure` names the step that
  refuses the number, not the logged text.
- The allow-list's parsing of its comma-separated configuration is not part of this model.
  Its membership test is a function value.
- `PhoneAccountSettingsActivity` is not modelled. It is UI glue: it sets a title, swaps in
  a fragment and maps the home menu item to back navigation.
