# A verified model of the `users` app

This project models the account core of a Django "users" application in
Dafny and proves properties of it. That core is the `CustomUser` record
and its manager, the registration, login, profile and password forms,
the e-mail activation token, and the request handlers that tie them
together. Together they form a small state machine over a user table
and a queue of e-mail jobs.

The model has eight modules:

- `Wrappers`: `Option` and `Result`.
- `Text`: the Python and Django string operations the code relies on:
  - `str.strip()`, `str(int)` and `int(str)`;
  - `str.lower()`, `rsplit('@', 1)` and `split('@')[0]`;
  - a stand-in for `strip_tags`.
- `Accounts`:
  - the `CustomUser` columns, the model defaults and the stored password;
  - `CustomUser.clean`, a loop over seven fields that strips their markup. The
    record is a value, so the loop returns the cleaned copy instead of
    changing the instance.
- `Store`: the user table as a `Database` class.
  - The table is a map from primary key to `Account`.
  - The next pk is a field.
  - The email and username columns are unique.
  - `save()` raises an integrity error on a clash and writes nothing.
- `Managers`: `CustomUserManager.create_user` and `create_superuser`, with
  `normalize_email`.
- `Tokens`:
  - the activation fingerprint `_make_hash_value` and the token checks.
  - The MAC is symbolic: two MACs are equal exactly when their messages are.
  - The age check compares the issuing time with the current time.
- `Forms`:
  - each form's field cleaning and `clean_*` hooks;
  - the profile form's `clean`, a loop over `cleaned_data`;
  - `_post_clean` (`construct_instance`, `full_clean`, the unique check);
  - `CustomUserCreationForm.save`.
- `Views`:
  - the six handlers, as methods of a `Server` class;
  - its fields are the table, the e-mail queue (`outbox`) and the logged-in session;
  - `Server` also holds the activation scheme and `PASSWORD_RESET_TIMEOUT`.

A request is `None` for a GET and `Some(form data)` for a POST. The
current time and the hasher's salt are parameters. A handler's answer is
a `Page` plus an optional flash `Notice`. The two link handlers are also
specified by pure "verdict" functions, which say which branch the
handler takes for a given table, uid, token and time. Their companion
functions give the table the handler leaves behind. The lemmas about
replay and single use are proved against those functions.

Two places in the code behave differently from what their comments and
names suggest. The model follows the code in both:
- The tag-stripping loop of `CustomUserUpdateForm.clean` sits inside the
  "email empty" branch (users/forms.py:112-117). On any form that can be
  saved, that branch never runs (`ProfileCleanIsIdentityOnAcceptedEmail`).
  The stripping that does reach the table is `CustomUser.clean`, which
  `update_account_details` calls.
- `create_superuser` passes `username` and `last_name` to `create_user`
  with their positions swapped (see Findings).

## Model

| member | source | states |
|---|---|---|
| Text.Strip | users/forms.py:10-21 | A form field's value has no leading or trailing blank after cleaning, and is no longer than the raw value. What it keeps is the next row. |
| Text.StripRemovesOnlyEndBlanks | users/forms.py:10-21 | The stripped value is one contiguous span of the raw value, and every character outside that span is a blank: only blanks at the two ends are removed. |
| Text.DecimalRoundTrip | users/views.py:111-112 | The printed pk in a link parses back to the same pk. |
| Text.DecimalInjective | users/tokens.py:17 | Two different numbers never print the same. |
| Text.Decimal | users/tokens.py:17 | `str(pk)` is a non-empty string of decimal digits. |
| Text.ParseDecimal | users/views.py:111-112 | The model's reading of `int(uid)`: it succeeds exactly on a non-empty string of ASCII decimal digits (see Left out for what else `int()` accepts). |
| Text.StripTags | users/models.py:73 | The stand-in for `strip_tags`: every span from a `<` to the next `>` is dropped (see Left out for how it differs from Django). Its properties are the two lemmas below. |
| Text.StripTagsLeavesNoTag | users/models.py:73 | After the `strip_tags` stand-in no `<` is left. This is a fact about the stand-in, not about Django's `strip_tags` (see Left out). |
| Text.StripTagsIdempotent | users/models.py:73 | Applying the `strip_tags` stand-in twice gives the same result as once. |
| Accounts.SetPassword | users/models.py:13 | `set_password(None)` stores an unusable password. A given password is accepted afterwards. |
| Accounts.SetPasswordAcceptsOnlyThatPassword | users/models.py:13 | The stored hash accepts exactly the password it was set from, and the unusable one accepts none. |
| Accounts.CheckPassword | users/models.py:13 | `check_password`: a stored hash accepts a raw password exactly when it was set from it; an unusable password accepts none. Its properties are the two rows above. |
| Accounts.NewAccount | users/models.py:34-50 | A fresh instance has pk 0, an unusable password, both consents false, `email_confirmed` false, and is active, not staff and not superuser. |
| Accounts.Clean | users/models.py:65-73 | The loop over the seven listed fields leaves exactly the `Sanitized` record. |
| Accounts.Sanitized | users/models.py:65-73 | The record `clean` leaves: each of the seven listed fields tag-stripped when non-empty. Its properties are the rows below. |
| Accounts.CleanTouchesOnlyListedFields | users/models.py:65-73 | Each listed field becomes its tag-stripped value if it was non-empty, and stays as it was if empty. Every other field, flag, pk and password is unchanged. |
| Accounts.CleanLeavesNoMarkup | users/models.py:65-73 | With the `strip_tags` stand-in, no listed field contains `<` after `clean`. Django's `strip_tags` keeps a `<` that opens no tag, so this holds of the stand-in only. |
| Accounts.CleanIdempotent | users/models.py:65-73 | With the `strip_tags` stand-in, cleaning a cleaned record changes nothing. |
| Store.LookUp | users/views.py:110-114 | The user is found exactly when the uid decodes, is a number, and names a stored row; the row found is that one. |
| Store.LookUpOwnLink | users/views.py:111-112 | The uid made from a stored account's pk finds that account. |
| Store.RewriteNeverClashes | users/views.py:24 | Saving a stored row again with its own email and username never breaks uniqueness. |
| Store.Database.Save | users/models.py:35-38 | An insert gets the next pk and an update replaces the row. A clash on a unique column fails and writes nothing. The table stays consistent. |
| Store.Database.SaveEmailConfirmed | users/views.py:169 | `save(update_fields=["email_confirmed"])` writes that column of the stored row and nothing else. |
| Store.Database.FirstWithEmail | users/views.py:89 | `.filter(email=...).first()` returns a stored row with that email exactly when one exists. |
| Managers.NormalizeEmail | users/models.py:10 | An address without `@` is returned as given. With an `@`, the result keeps the stripped local part and the last `@`, and lower-cases every character of the domain. |
| Managers.NormalizeEmailIdempotent | users/models.py:10 | Normalising a normalised address changes nothing. |
| Managers.UsernameFromEmail | users/models.py:29-30 | `email.split('@')[0]` is a prefix of the email, holds no `@`, and stops at the first `@`. |
| Managers.UsernameFromEmailCases | users/models.py:29-30 | With no `@` the whole email is the username. With `local@rest` the username is `local`. |
| Managers.CreatedRecord | users/models.py:10-13 | The record `create_user` builds holds: the normalised email; the given names; a password set through the hasher; every boolean column named in `extra_fields` with its value, and each other boolean column with its default; empty text columns. |
| Managers.CreateUser | users/models.py:6-15 | An empty email raises and writes nothing. Otherwise the record is saved once, and fails only on a unique clash. |
| Managers.SuperuserFlags | users/models.py:20-21 | `setdefault` adds `is_staff` and `is_superuser` as true only when absent and keeps every given entry. |
| Managers.SuperuserName | users/models.py:29-30 | The username `create_superuser` uses: the given one, or `email.split('@')[0]` when none is given. |
| Managers.CreateSuperuser | users/models.py:19-31 | The code as written. A staff or superuser flag given as false raises first. An empty email raises. A saved superuser is staff and superuser. The username lands in `last_name` and `last_name` in `username`. |
| Managers.CreateSuperuserIntended | users/models.py:19-31 | The same checks and defaults, with the names stored in the columns the signature intends. |
| Managers.SuperuserNamesSwapped | users/models.py:31 | For `create_superuser("ada@…", "Ada", "Lovelace", "pw")` the code as written stores username "Lovelace" and last name "ada". The intended version stores the reverse. |
| Tokens.HashValue | users/tokens.py:13-17 | `_make_hash_value` as written: the pk, the email, the timestamp and the flag text, run together. Its properties are the fingerprint rows below. |
| Tokens.MakeToken | users/tokens.py:9 | The inherited `make_token` gives a well-formed token stamped with the current time. |
| Tokens.CheckToken | users/views.py:163 | The inherited `check_token`: a well-formed token whose MAC is over the account's current fingerprint at the token's timestamp, and whose age is within the timeout. |
| Tokens.MakeResetToken | users/tasks.py:120 | `default_token_generator.make_token` gives a well-formed reset token stamped with the current time, over the assumed reset fingerprint. |
| Tokens.CheckResetToken | users/views.py:117 | `default_token_generator.check_token`: the same test over the assumed reset fingerprint. |
| Tokens.FingerprintIgnoresOtherFields | users/tokens.py:13-17 | Only pk, email, flag and timestamp enter the fingerprint. Phone, address, names and consents do not. |
| Tokens.ConcatenatedTailInjective | users/tokens.py:17 | For a fixed pk and timestamp, the as-written string determines the email and the flag. |
| Tokens.ConfirmingChangesFingerprint | users/tokens.py:17 | The fingerprints with `email_confirmed` false and true differ, for both schemes. |
| Tokens.EmailChangeChangesFingerprint | users/tokens.py:17 | With pk, flag and timestamp fixed, two emails give two fingerprints. |
| Tokens.TimestampChangesFingerprint | users/tokens.py:17 | With the user fixed, two timestamps give two fingerprints. |
| Tokens.MadeTokenChecks | users/tokens.py:9 | A token made for a record checks against that record exactly while its age is within the timeout. |
| Tokens.ConfirmedAccountRejectsEarlierToken | users/tokens.py:17 | A token issued before confirmation never checks once the account is confirmed. |
| Tokens.LinkTokenNeverChecksOnConfirmed | users/tokens.py:17 | A token from an activation link never checks against the confirmed account with that pk. |
| Tokens.TokenBindsState | users/tokens.py:17 | A checking token proves that the record with that pk still has the email and flag it was issued for. |
| Tokens.ConcatenatedTokenCrossesAccounts | users/tokens.py:17 | Account 1 with email "23@example.com" and account 12 with email "3@example.com" share every as-written fingerprint. Account 1's token checks for account 12. |
| Tokens.DelimitedHashValueInjective | users/tokens.py:17 | The corrected fingerprint determines pk, timestamp, flag and email. |
| Tokens.DelimitedTokenBindsAccount | users/tokens.py:17 | Under the corrected fingerprint, a token checks only for the account it was made for, with its email and flag. |
| Tokens.ActivationLinkToken | users/tasks.py:60-64 | The activation task issues a token exactly for an unconfirmed account, stamped with the current time. |
| Tokens.PasswordChangeInvalidatesResetToken | users/views.py:117 | Under the assumed reset fingerprint (see Left out), a changed password hash invalidates every earlier reset token. |
| Tokens.PurposesAreSeparate | users/views.py:163 | Under the assumption that reset digests and activation digests never coincide (see Left out), activation tokens never pass the reset check, and reset tokens never pass the activation check. |
| Forms.CleanField | users/forms.py:10-21 | A declared field yields its stripped value, which is within `max_length`, holds no null character, and is non-empty if the field is required. Otherwise the field fails. |
| Forms.PasswordsDiffer | users/forms.py:140 | The mismatch error: both passwords given and different. |
| Forms.RegistrationValid | users/forms.py:9-37 | `is_valid()` of the registration form: every field passes, the email is free, and the two passwords match. Its properties are the rows below. |
| Forms.RegistrationCleanEmail | users/forms.py:33-37 | An email is refused exactly when a stored account holds it. |
| Forms.RegistrationRejectsTakenEmail | users/forms.py:33-37 | A registration whose email a stored account holds is invalid. |
| Forms.RegistrationPasswordsAgree | users/forms.py:18-21 | A valid registration carries one non-empty password, typed twice. |
| Forms.RegisteredAccount | users/forms.py:39-45 | The instance holds: the cleaned email, names and username; a hash of password1; both consents copied; `email_confirmed` false. |
| Forms.RegisteredAccountFits | users/forms.py:33-37 | A valid registration clashes with no stored row, so its save succeeds. |
| Forms.SaveRegistration | users/forms.py:39-45 | With `commit` the instance is inserted under the next pk. Without it the table is untouched. |
| Forms.LoginClean | users/forms.py:53-63 | With both fields set: a failed `authenticate` is an invalid-login error, and an inactive user an inactive error. A missing field raises nothing. |
| Forms.PhoneMatches | users/forms.py:67 | The phone `RegexValidator`: an optional `+`, an optional `1`, then 9 to 15 digits. Its contract is the row below. |
| Forms.PhoneMatchesExactly | users/forms.py:67 | `^\+?1?\d{9,15}$` accepts exactly an optional `+` then 9–15 digits, or 16 digits starting with `1`. |
| Forms.PhonePatternExceedsColumn | users/forms.py:67 | The pattern admits a 17-character value, longer than the 15-character `phone` column. |
| Forms.CleanProfileField | users/forms.py:66-80 | A cleaned profile value is the stripped submission. The phone field passes exactly when empty or matching the pattern. |
| Forms.FieldsCleaned | users/forms.py:84-85 | `cleaned_data` holds exactly the fields whose own cleaning passed, with their stripped values. |
| Forms.ProfileCleanEmail | users/forms.py:100-106 | A non-empty email is refused exactly when an account other than the edited one holds it. |
| Forms.ProfileCleanEmailAcceptsOwnEmail | users/forms.py:100-106 | The edited account's own email always passes. |
| Forms.EmailRefusedIffTaken | users/forms.py:100-106 | On a form whose fields pass, `clean_email` refuses exactly an email held by another account. |
| Forms.ProfileCleanResult | users/forms.py:109-119 | With a non-empty email, `cleaned_data` is returned unchanged. Otherwise the instance's email is restored, each listed non-empty value is tag-stripped, and every other value is kept. |
| Forms.ProfileClean | users/forms.py:109-119 | The in-place loop over `cleaned_data` returns exactly `ProfileCleanResult`. |
| Forms.ProfileCleanIsIdentityOnAcceptedEmail | users/forms.py:112 | On a form whose email passed, `clean` changes nothing, so its stripping never reaches a saved record. |
| Forms.ProfileAccount | users/forms.py:84-85 | The edited record has the instance's pk, password, confirmation and permission flags, with the submitted consents. |
| Forms.Construct | users/forms.py:84-85 | `construct_instance` keeps the instance's pk, password and confirmation, and takes the submitted consents. |
| Forms.ProfileAccountFitsIff | users/models.py:35-46 | The edited record fits every column's `max_length` exactly when every stripped submission does. |
| Forms.AcceptedFieldsBuildProfile | users/forms.py:109-119 | When every field passed and the email is accepted, `construct_instance` builds exactly the edited record. |
| Forms.CleanProfileForm | users/forms.py:100-119 | No form error is recorded exactly when every field passes and no other account holds the email. The data returned is what `clean` returns. |
| Forms.ProfileValid | users/forms.py:65-119 | `is_valid()` of the profile form: every field passes, every column fits, and no other account holds the email or the username. |
| Forms.PostClean | users/models.py:65-73 | The instance is constructed and then cleaned by `CustomUser.clean`. No model error is recorded exactly when every column fits and no other account holds the username. |
| Forms.ValidateProfile | users/views.py:68-69 | `is_valid()` holds exactly when the profile is valid. A valid form leaves the sanitized edited record. |
| Forms.ValidProfileNeverClashes | users/views.py:72 | Saving the record of a valid profile form never breaks uniqueness. |
| Forms.ResetRequestEmail | users/forms.py:122-125 | The reset-request form is valid exactly when the stripped email is non-empty, at most 150 characters and free of null characters. |
| Forms.ResetConfirmValid | users/forms.py:128-142 | `is_valid()` of the reset-confirm form: both fields pass and the passwords do not differ. Its contract is the row below. |
| Forms.ResetConfirmValidMeansMatch | users/forms.py:136-142 | The reset-confirm form is valid exactly when both entries strip to the same non-empty password of at most 150 characters with no null character. |
| Views.ActivationConfirmVerdict | users/views.py:156-166 | The link is invalid exactly when the uid finds no user or the token does not check. Otherwise the "already confirmed" branch is taken exactly when the user's flag is set. |
| Views.AfterActivation | users/views.py:168-169 | A confirmation of a stored pk sets that row's flag to true. No row is added or removed, only the flag column changes, and any other verdict leaves the table as it is. |
| Views.ResetConfirmVerdict | users/views.py:110-127 | The link is invalid exactly when the uid finds no user or the reset token does not check. The new password is set exactly when the link is valid and a valid form was posted. |
| Views.AfterReset | users/views.py:121-122 | No row is added or removed. Only the password of the linked row changes. Afterwards it accepts exactly the new password. |
| Views.ActivationLinkConfirms | users/views.py:163-171 | The link mailed to an unconfirmed account confirms that account while the token is young enough, and the table it leaves has that account's flag set. |
| Views.ActivationReplayChangesNothing | users/views.py:163-169 | Submitting a confirmed activation link again, at any later time, finds an invalid link and leaves the table as it is. |
| Views.LinkNeverFindsConfirmedAccount | users/views.py:164-166 | A mailed link never reaches the "already confirmed" branch for its own account. |
| Views.ConcatenatedLinkConfirmsAnotherAccount | users/views.py:163 | Under the as-written fingerprint, account 1's token with its uid edited to "12" confirms account 12. |
| Views.DelimitedLinkConfirmsOnlyItsAccount | users/views.py:163 | Under the corrected fingerprint, a token confirms only the account it was made for. |
| Views.ResetLinkSingleUse | users/views.py:117-122 | After a reset that changed the password hash, the same link is invalid at any later time. |
| Views.Server.Delay | users/views.py:28 | `.delay(...)` appends one job to the end of the queue. |
| Views.Server.WriteBackStored | users/views.py:24 | Saving a row exactly as it is stored leaves the table unchanged. |
| Views.Server.SaveNewUser | users/views.py:22-24 | `form.save()` then `user.save()` inserts the registered account under the next pk, with `email_confirmed` false. |
| Views.Server.Register | users/views.py:18-33 | Valid POST: one new row with `email_confirmed` false; the client logged in as it; exactly one welcome mail queued; a profile redirect. Any other request: nothing changes and the form is shown. |
| Views.Server.SaveProfile | users/views.py:70-72 | `user.clean()` and `user.save()` overwrite the client's row with the sanitized edited record. |
| Views.Server.UpdateAccountDetails | users/views.py:65-76 | Valid POST: the client's row becomes the sanitized edited record, and that record is shown. Invalid POST or GET: nothing writes. No session: a login redirect. |
| Views.Server.PasswordResetRequest | users/views.py:84-104 | A reset mail is queued only for a valid email that some account holds, and then only one, naming that account. Every other case queues nothing and adds its warning. The table is never written. |
| Views.Server.PasswordResetConfirm | users/views.py:107-130 | The new table is `AfterReset` of the verdict. The page is: the invalid-link page for a bad uid, user or token; the form again (`validlink` true) for a GET or an invalid POST; the completion page for a new password. |
| Views.Server.AccountActivationRequest | users/views.py:132-150 | A POST from an unconfirmed client queues one activation mail for it. A confirmed client or a GET queues nothing. Every case redirects to the profile. |
| Views.Server.AccountActivationConfirm | users/views.py:153-174 | The new table is `AfterActivation` of the verdict: a valid link for an unconfirmed account sets its flag, and nothing else is ever written. A bad link shows the invalid-link page. A confirmed account is left as it is. |

## Left out

- `login_view`, `profile_views`, `account_details`, `edit_account_details` and `logout_view` are not modelled. They only render or call Django's `login`/`logout`. Their one rule, `CustomUserLoginForm.clean`, is `Forms.LoginClean`.
- users/urls.py registers no route named `account_activation_confirm`, so the `reverse(...)` at users/tasks.py:70 cannot resolve in the code as given, and no activation mail would be sent. The model assumes that route exists. Routing itself is not modelled.
- users/tasks.py (composing and sending the mails) is I/O and not modelled. A queued job is a `Mail` value in `outbox`. The task's "already confirmed" guard is `Tokens.ActivationLinkToken`.
- Templates, `render`/`redirect` arguments, message texts and logging are left out. A page is a `Page` value, and a message is a `Notice` value.
- The internals of Django's `default_token_generator` are not modelled. `Tokens.MakeResetToken` and `Tokens.CheckResetToken` model its `make_token` and `check_token` over an assumed fingerprint that binds pk, password hash, timestamp and email; `last_login` is left out. That assumption is what makes `Tokens.PasswordChangeInvalidatesResetToken` hold.
- Tokens.PurposesAreSeparate: rests on an assumption. Both generators are `PasswordResetTokenGenerator`s with the same key salt and secret, so in the program the two kinds of token differ only through their hash strings. The model gives reset digests their own constructor (`ResetMac`) and does not show that the two hash strings never coincide.
- Both token generators sign with a keyed HMAC. Here it is a symbolic digest that cannot be forged. Base-36 timestamps, the constant-time compare and the secret key are left out.
- `urlsafe_base64_decode` and `force_str` are not modelled. A link's uid arrives already decoded, or as `None` when decoding failed.
- `Store.LookUp`: the uid is read as ASCII decimal digits (`Text.ParseDecimal`). It does not accept what else Python's `int()` takes: a sign, surrounding blanks, `_` between digits, and non-ASCII decimal digits. So a uid of "1_2" finds account 12 in the program and no account here.
- Text.ParseDecimal: models `int()` only on strings of ASCII digits. Python's `int()` also accepts "+12", " 12 ", "1_2" and other Unicode decimal digits such as "١٢".
- `Text.Strip`: blanks are the ASCII whitespace set and `\x1c`–`\x1f`. It does not cover the other Unicode whitespace of `str.strip()`.
- `Text.StripTags`: drops every span from `<` to the next `>`. It is not Django's `strip_tags`. That function runs an HTML parser and loops only while both `<` and `>` remain, so "a<b" and "1 < 2" come back unchanged, where the stand-in gives "a" and "1 ".
- Text.StripTagsLeavesNoTag: holds of the stand-in only. In the program a stripped value can still contain `<`.
- Accounts.CleanLeavesNoMarkup: holds of the stand-in only. In the program a cleaned phone or address field can still contain `<`.
- Accounts.CleanIdempotent: proved for the stand-in, not for Django's parser-based `strip_tags`.
- Forms.PhoneMatches: a digit is an ASCII digit `0`-`9`. Python's `\d` on a str pattern matches every Unicode decimal digit (category Nd).
- Forms.PhoneMatchesExactly: inherits that ASCII reading of `\d`. Nine Arabic-Indic digits pass the validator of users/forms.py:67 but not this pattern.
- Forms.CleanProfileField: the phone check inherits the ASCII reading of `\d`, so such a phone is refused here and accepted by the program.
- Forms.CleanField: does not check an `EmailField`'s address syntax (`validate_email`). Every stripped, non-empty value within the length limit passes.
- Form error messages are left out; only validity is modelled. Two of Django's own checks are left out too:
  - the password validators (`AUTH_PASSWORD_VALIDATORS`) that `UserCreationForm._post_clean` runs;
  - Django's case-insensitive username check.
- In `update_account_details`, an invalid form has already changed `request.user` in memory through `construct_instance`. That copy is only shown, not saved, and the model does not keep it.
- Managers.CreatedRecord: `extra_fields` is a map of booleans, so only the boolean columns can be passed through it. A text column such as `phone` given there, which `self.model(**extra_fields)` would store, cannot be expressed. An unknown key, which Django refuses with a `TypeError`, is ignored.
- Managers.NormalizeEmail: lower-cases only the ASCII letters of the domain (`Text.Lower`). Python's `str.lower()` also maps other capitals, so "É" becomes "é" there and stays "É" here.
- `Managers.CreateSuperuser`: represents `extra_fields` as a map of booleans. A flag supplied as a non-boolean truthy value, which `is not True` also refuses, cannot be expressed.
- The `else` branch of `account_activation_request` (users/views.py:148-149) is dead code. `@login_required` guarantees a user, so the model has no such branch.
- Concurrency between requests and between database writes is left out. Each handler is one atomic transition.

## Findings

| source | as written | input that shows it | evidently intended | confidence | as-written member | corrected member |
|---|---|---|---|---|---|---|
| users/tokens.py:17 | `f'{user.pk}{user.email}{timestamp}{user.email_confirmed}'` runs the pk and the email together with no separator. | Account 1 with email "23@example.com" and account 12 with email "3@example.com" have the same fingerprint at every timestamp. Account 1's activation link with its uid edited to "12" confirms account 12. | A token binds the account it was issued for. Here that is a fingerprint with delimited components (`Tokens.DelimitedHashValue`). | not executed | Tokens.ConcatenatedTokenCrossesAccounts | Tokens.DelimitedTokenBindsAccount |
| users/models.py:31 | `self.create_user(email, first_name, username, last_name, password, ...)` against the signature `create_user(self, email, first_name, last_name, username, ...)` (users/models.py:6). | `create_superuser("ada@example.com", "Ada", "Lovelace", "pw")` stores username "Lovelace" and last name "ada". | Username "ada" and last name "Lovelace". | not executed | Managers.SuperuserNamesSwapped | Managers.CreateSuperuserIntended |

For the first finding, the handlers are parameterised by `Server.scheme`, so the same `Server` runs either fingerprint. `Views.ConcatenatedLinkConfirmsAnotherAccount` and `Views.DelimitedLinkConfirmsOnlyItsAccount` show the consequence at the level of the confirm view.
