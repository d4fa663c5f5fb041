# Ghop phone verification, modelled in Dafny

`Ghop_Phone_Verifier`, a class of the Ghop WordPress plugin, decides which
users must prove that they own a phone number (`needs_verification`) and runs
that proof. It keeps three user-meta entries per user: `mobile`,
`mobile_verified` and `mobile_verify_code`. It normalises and validates phone numbers, and it checks
that a number is not already taken by another user. It issues a six-digit
one-time code, writes it into a message template and hands that message to the
SMS gateway. When the user submits the code back, it consumes the code and
marks the user verified.

The project has three modules:

- `PhoneFormat` (`phone_format.dfy`): `parse_phone`. It keeps the digits and
  dots of the input in order and puts one `+` in front. Proved: the result
  starts with `+` and every later character is kept; the kept characters are
  exactly the input's digits and dots, in order and with their multiplicities;
  normalising twice equals normalising once.
- `MessageTemplate` (`message_template.dfy`): the message of
  `send_verification_code`. It models PHP's `str_replace` with arrays as five
  whole-text replacements applied one after the other. It also writes the code
  in decimal, proved to round-trip and to have six digits for every issuable
  code. The template choice between the configured one and the default one is
  modelled too.
- `PhoneVerifier` (`phone_verifier.dfy`): the meta store, a `map` from user id
  to `Meta`. A user without entries reads as `NoMeta`, which is what
  `get_user_meta` returns for missing keys. The read-only checks are functions
  of a store value: `needs_verification`, `validate_phone`, `duplicated_phone`,
  `validate_code` and the choice of the destination phone. The writers are
  methods of the class `Verifier`: `set_user_phone`, `generate_code_for_user`,
  `send_verification_code` and `verify_user`. The class holds the store in a
  field; its account directory is a `const`, because the verifier never writes
  accounts. Each method's `ensures` gives its new store as a function of the
  old one (`StorePhone`, `StoreCode`, `MarkVerified`). Each of those functions
  states which fields change and that all other users are unchanged. The
  lemmas then cover the flow: a stored phone is reported as taken to every
  other user; a user's own phone never counts as a duplicate; only the latest
  code is accepted; a consumed code is refused; a verified user no longer
  needs verification.

Collaborators are parameters:

- The SMS gateway (`send_sms`) is a total function `sendSms(phone, message)`,
  and `SendVerificationCode` returns what it answers.
- `wp_rand(111111, 999999)` is a nondeterministic choice within that range.
- Whether the SMS plugin is present (`WP_SMS_PRO_URL`) is the `smsPlugin`
  flag.
- The `mobile_verify_message` option is the `configured` string.
- The loaded accounts (`WP_User`) are the `accounts` map.

PHP truthiness is modelled where the code depends on it. The strings `""` and
`"0"` are false for the phone argument, for the stored mobile and for the
configured template (`empty()`). A pending code of `0` is false for
`validate_code`.

The pattern `[^0-9.]` keeps dots as well as digits, so the model keeps them too
(lemma `DotsSurvive`).

## Model

| member | source | states |
|---|---|---|
| PhoneFormat.Keep | includes/class-ghop-phone-verifier.php:107 | the kept text is no longer than the input and consists only of digits and dots |
| PhoneFormat.ParsePhone | includes/class-ghop-phone-verifier.php:106-108 | the normalised phone starts with `+`, has one more character than the kept text, and every character after the `+` is a digit or a dot |
| PhoneFormat.KeepAppend | includes/class-ghop-phone-verifier.php:107 | removing characters distributes over concatenation, so the kept characters stay in their original order |
| PhoneFormat.KeepAllKept | includes/class-ghop-phone-verifier.php:107 | a text made only of digits and dots is left unchanged |
| PhoneFormat.KeepCounts | includes/class-ghop-phone-verifier.php:107 | each digit or dot occurs in the result as often as in the input; every other character does not occur |
| PhoneFormat.KeepIdempotent | includes/class-ghop-phone-verifier.php:107 | filtering twice equals filtering once |
| PhoneFormat.ParsePhoneIdempotent | includes/class-ghop-phone-verifier.php:106-108 | normalising a normalised phone gives it back: the added `+` is removed and added again |
| PhoneFormat.SeparatorDropped | includes/class-ghop-phone-verifier.php:106-108 | a separator between two runs of digits and dots is dropped: `555-123` normalises to `+555123` |
| PhoneFormat.DotsSurvive | includes/class-ghop-phone-verifier.php:107 | the normalised phone has exactly as many dots as the input |
| MessageTemplate.ReplaceAll | includes/class-ghop-phone-verifier.php:202 | an empty needle changes nothing, and every character of the result comes from the subject or from the replacement |
| MessageTemplate.ReplaceAbsent | includes/class-ghop-phone-verifier.php:202 | a subject without the needle's first character is returned unchanged |
| MessageTemplate.ReplaceNoOccurrence | includes/class-ghop-phone-verifier.php:202 | a subject in which the needle occurs nowhere is returned unchanged, even if it holds the needle's first character |
| MessageTemplate.ReplaceAfterPrefix | includes/class-ghop-phone-verifier.php:202 | a prefix without the needle's first character is copied as is, and the replacement continues after it |
| MessageTemplate.ReplaceAtNeedle | includes/class-ghop-phone-verifier.php:202 | an occurrence of the needle after a prefix without the needle's first character is replaced by the replacement, and the scan continues after it |
| MessageTemplate.ReplaceSkip | includes/class-ghop-phone-verifier.php:202 | a prefix in which no occurrence of the needle starts is copied as is, and the replacement continues after it, whatever characters the prefix holds |
| MessageTemplate.ReplaceFirst | includes/class-ghop-phone-verifier.php:202 | the first occurrence of the needle is replaced by the replacement and the scan continues after it, even when the needle's first character occurs earlier (a `%` before `%otp%`) |
| MessageTemplate.ReplaceBySelf | includes/class-ghop-phone-verifier.php:202 | replacing a needle with itself leaves any subject unchanged |
| MessageTemplate.ReplaceMissesTag | includes/class-ghop-phone-verifier.php:194-202 | a `%word%` token is not touched by a different `%`-led placeholder whose second character differs from the word's first |
| MessageTemplate.Decimal | includes/class-ghop-phone-verifier.php:195 | the code is written as a non-empty string of decimal digits |
| MessageTemplate.DecimalRoundTrip | includes/class-ghop-phone-verifier.php:195 | reading the decimal text back gives the number |
| MessageTemplate.DecimalLength | includes/class-ghop-phone-verifier.php:145 | a number in [10^k, 10^(k+1)) has k+1 digits |
| MessageTemplate.SixDigitCode | includes/class-ghop-phone-verifier.php:145 | every code in [111111, 999999] is written with exactly six digits |
| MessageTemplate.ChooseTemplate | includes/class-ghop-phone-verifier.php:187-192 | the configured template is used when it is non-empty and not `"0"`; otherwise the default template is used |
| MessageTemplate.NoPercentInDefaultPrefix | includes/class-ghop-phone-verifier.php:187 | the fixed sentence of the default template holds no `%` |
| MessageTemplate.Render | includes/class-ghop-phone-verifier.php:194-202 | every character of the message comes from the template, the code's digits or one of the user's login, first name, last name and nickname |
| MessageTemplate.RenderDefault | includes/class-ghop-phone-verifier.php:187-202 | with the default template, the message is the fixed sentence followed by the code's digits, whatever the user's names |
| MessageTemplate.UnconfiguredSiteSendsCode | includes/class-ghop-phone-verifier.php:187-202 | when the configured template is empty or `"0"`, the message is the fixed default sentence followed by the code's digits, whatever the user's names |
| MessageTemplate.RenderWithoutPlaceholders | includes/class-ghop-phone-verifier.php:194-202 | a template without `%` is sent unchanged and does not carry the code |
| MessageTemplate.RenderWithoutTags | includes/class-ghop-phone-verifier.php:194-202 | a template in which none of the five placeholders occurs is sent unchanged, `%` signs included |
| MessageTemplate.RenderIsSequential | includes/class-ghop-phone-verifier.php:194-202 | the placeholders are replaced in order: for any code, login and nickname, and any last name without `%`, a template `%first_name%` sent to a user whose first name reads `%last_name%` becomes the last name |
| PhoneVerifier.UserPhone | includes/class-ghop-phone-verifier.php:36-38 | a user without stored entries has the empty phone; otherwise the phone is the stored `mobile` |
| PhoneVerifier.StorePhone | includes/class-ghop-phone-verifier.php:48-50 | writing the mobile sets that user's phone, keeps that user's flag and code, and leaves every other user unchanged |
| PhoneVerifier.StoreCode | includes/class-ghop-phone-verifier.php:159 | writing the code makes it pending for that user, keeps that user's phone and flag, and leaves every other user unchanged |
| PhoneVerifier.MarkVerified | includes/class-ghop-phone-verifier.php:236-237 | consuming removes the pending code, sets the verified flag, keeps the phone, and leaves every other user unchanged |
| PhoneVerifier.NeedsVerification | includes/class-ghop-phone-verifier.php:60-75 | false without the SMS plugin, for a missing account, or for a verified user; otherwise true exactly when the roles contain `subscriber` |
| PhoneVerifier.DuplicatedPhone | includes/class-ghop-phone-verifier.php:119-135 | true exactly when some user other than `id` has this phone stored |
| PhoneVerifier.ValidatePhone | includes/class-ghop-phone-verifier.php:86-96 | `invalid_phone` iff the phone is shorter than 5 or does not start with `+`; `phone_duplicated` iff it is well formed and another user holds it; success iff it is well formed and no other user holds it |
| PhoneVerifier.ValidateCode | includes/class-ghop-phone-verifier.php:216-220 | true exactly when a non-zero pending code equals the submitted code |
| PhoneVerifier.ResolvePhone | includes/class-ghop-phone-verifier.php:180-184 | the argument if truthy, else the stored mobile if truthy; none exactly when neither is truthy |
| PhoneVerifier.Verifier.SetUserPhone | includes/class-ghop-phone-verifier.php:48-50 | the new store is the old one with this user's mobile replaced, without any validation; nothing is sent |
| PhoneVerifier.Verifier.GenerateCodeForUser | includes/class-ghop-phone-verifier.php:144-162 | the returned code is in [111111, 999999] and is this user's pending code; nothing else changes and nothing is sent |
| PhoneVerifier.Verifier.SendVerificationCode | includes/class-ghop-phone-verifier.php:173-205 | a missing account or an unresolvable phone gives false, leaves the store unchanged and sends nothing; otherwise a code in [111111, 999999] is stored, exactly one message (the resolved phone and the rendered template) is handed to the gateway, and the result is the gateway's answer |
| PhoneVerifier.Verifier.VerifyUser | includes/class-ghop-phone-verifier.php:231-240 | the result is the code check on the old store; on a match the code is consumed and the user marked verified; on a mismatch the store is unchanged; nothing is sent |
| PhoneVerifier.IssueAndVerifyTwice | includes/class-ghop-phone-verifier.php:156-240 | a freshly issued code is accepted once and refused on the second try, and the user ends up verified; nothing is sent |
| PhoneVerifier.LastPhoneWins | includes/class-ghop-phone-verifier.php:48-50 | storing a phone twice leaves the same store as storing only the second one: the earlier phone is overwritten |
| PhoneVerifier.StoredPhoneIsTaken | includes/class-ghop-phone-verifier.php:86-135 | once a user stores a well-formed phone, validating it for any other user reports `phone_duplicated` |
| PhoneVerifier.OwnPhoneIgnored | includes/class-ghop-phone-verifier.php:119-135 | the asking user's own stored mobile never affects the result of validation |
| PhoneVerifier.NormalisedPhoneFormat | includes/class-ghop-phone-verifier.php:86-108 | a normalised phone passes the format check exactly when the input had at least four digits and dots |
| PhoneVerifier.CodesDoNotAffectValidation | includes/class-ghop-phone-verifier.php:86-162 | issuing or consuming a code does not change any answer of phone validation |
| PhoneVerifier.LatestCodeOnly | includes/class-ghop-phone-verifier.php:216-219 | after a code is issued, exactly that code is accepted; any earlier code is overwritten |
| PhoneVerifier.CodeIsSingleUse | includes/class-ghop-phone-verifier.php:231-240 | once consumed, no code at all is accepted for that user |
| PhoneVerifier.OtherUsersCodesUntouched | includes/class-ghop-phone-verifier.php:156-240 | issuing or consuming one user's code does not change which code another user may submit |
| PhoneVerifier.VerifiedNeedsNothing | includes/class-ghop-phone-verifier.php:60-75 | after a successful verification the user no longer needs to verify, whatever the roles |
| PhoneVerifier.WritesKeepTheGate | includes/class-ghop-phone-verifier.php:60-75 | storing a phone or a pending code does not change which users need to verify |

## Left out

- ghop.php is not part of this model. It holds the plugin bootstrap, the hook registration and the door-opening AJAX handler: a nonce check, a login check, the rejection of users with the `contributor` role, the clock and an outbound HTTP POST. That handler does not call the verifier.
- views/html-dialog-verify-phone.php and assets/js/scripts.js are not part of this model: they are HTML markup and a browser-side AJAX handler.
- `send_sms` is a parameter `sendSms`: the gateway (`wp_sms_initial_gateway`, `SendSMS`) and the check that it exists are outside the model. What it is handed is recorded in the ghost field `outbox` of `Verifier`, and its boolean answer is the method's result.
- `generate_code`: `wp_rand` is a nondeterministic choice in [111111, 999999]; no distribution is modelled.
- `get_user`: `WP_User` loading is a lookup in the `accounts` map. Passing a `WP_User` object instead of an id is not modelled.
- `get_option` and the translation `__()`: the configured template is a parameter, and the default template is the untranslated English text.
- PhoneVerifier.ValidateCode: stored and submitted codes are one integer type. The source compares a meta value read back as a string with the submitted value strictly (`===`), and that type distinction is not modelled.
- PhoneVerifier.DuplicatedPhone: this is a quantifier over the store, not a SQL count. An empty `mobile` stands for a missing row, so the function requires a non-empty phone; its only caller passes a well-formed one. Database collation (case- and trailing-space-insensitive comparison in MySQL) is not modelled: equality is exact.
- PhoneVerifier.ValidatePhone: `strlen` counts bytes; the model counts characters, so a multi-byte phone is measured differently.
- Concurrency: two requests can both pass the duplicate check and then both store the same phone. Each operation is modelled as atomic.
- Code expiry and attempt limits: the source has neither, so the model has neither.
- Default arguments: `validate_phone`'s `$user_id = 0` and `duplicated_phone`'s `$user_id = 0` are taken as an explicit id `0`, and `send_verification_code`'s `$phone = false` as an explicit `""` (falsy, like `false`).
- User id `0`: `UserId` is `nat`, so id `0`, the source's "no user" default, may hold meta entries like any other id. WordPress never stores meta for it; the model does not exclude it.
