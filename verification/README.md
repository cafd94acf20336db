# Tonewise comment analyzer: casing tone and commenter profiles

A Dafny model of the logic in the Tonewise microservice that does not belong
to the web framework or the machine-learning library:

- **Casing tone** (`Casing`). `analyze_casing` labels a text by four tests
  run in a fixed order: all upper, then all lower, then title case, and
  mixed otherwise. The tests are Python's `str.isupper`, `str.islower` and
  `str.istitle`. `StrBuiltins` models them for ASCII text. Each one is
  written twice: as the scan CPython runs, and as the property the Python
  documentation states over character positions. Lemmas prove the two
  versions equal. `StrBuiltins` also models `str.strip` and `str.lower`.
- **Commenter profiles** (`Profiles`). `commenter_profiles` is a
  process-wide table from commenter id to a record of four counters:
  `total_comments`, `positive`, `negative` and `neutral`. A record is
  created on first reference with every counter at zero. `update_profile`
  always raises `total_comments`, then raises the counter whose key equals
  the label, if the record has such a key. The table is the class
  `ProfileStore`. A ghost history of the labels applied to each commenter
  ties every record to `Replay`, a function of those labels. The lemmas
  about `Replay` give the counting properties.
- **The endpoint** (`Service`). `analyze_comment` and
  `analyze_comment_core` are modelled with the sentiment model's output
  taken as an input. A missing or empty comment is refused with status 400
  before anything else happens. A model failure gives status 500 before the
  table is touched. Otherwise, the casing is computed on the stripped
  comment and the profile of `name` (default `"anonymous"`) is updated
  under the lower-cased label.

In three places the code behaves differently from what a reader might
expect, and the model follows the code:

- A natural expectation is that `total_comments` always equals the sum of
  the sentiment counters. The code does not keep that. An update whose
  label is not a record key raises only the total. The label
  `"total_comments"` raises the total twice. `Profiles.ProfileSumBound`
  proves what does hold: the sum never exceeds the total, and it equals the
  total exactly when every label was `positive`, `negative` or `neutral`.
- An unknown label is not refused. The code counts it silently in the
  total, and so does the model.
- Letter-free text gets Python's rule: a string with no cased character
  fails all three tests, so `""` and `"123"` are "Conversational or Mixed".

## Model

| member | source | states |
|---|---|---|
| StrBuiltins.IsUpper | tonewise_ai_microservice.py:35 | `text.isupper()` holds exactly when some character is cased and none is lowercase |
| StrBuiltins.IsLower | tonewise_ai_microservice.py:37 | `text.islower()` holds exactly when some character is cased and none is uppercase |
| StrBuiltins.IsTitle | tonewise_ai_microservice.py:39 | `text.istitle()` holds exactly when some character is cased, every uppercase letter starts the string or follows an uncased character, and every lowercase letter follows a cased one |
| StrBuiltins.UpperScanMeaning | tonewise_ai_microservice.py:35 | CPython's `isupper` scan, from any flag state, agrees with the documented property of the rest of the string |
| StrBuiltins.LowerScanMeaning | tonewise_ai_microservice.py:37 | CPython's `islower` scan agrees with the documented property |
| StrBuiltins.TitleScanMeaning | tonewise_ai_microservice.py:39 | CPython's `istitle` scan, given whether the previous character was cased, agrees with the title-case rule |
| StrBuiltins.UncasedFailsAll | tonewise_ai_microservice.py:35-39 | text with no cased character fails `isupper`, `islower` and `istitle` |
| StrBuiltins.UpperExcludesLower | tonewise_ai_microservice.py:35-37 | no text is both `isupper` and `islower` |
| StrBuiltins.StripStart | tonewise_ai_microservice.py:57 | the leading-whitespace half of `strip`: a suffix of the input, not starting with whitespace, with only whitespace dropped |
| StrBuiltins.StripEnd | tonewise_ai_microservice.py:57 | the trailing-whitespace half of `strip`: a prefix of the input, not ending with whitespace, with only whitespace dropped |
| StrBuiltins.Strip | tonewise_ai_microservice.py:57 | `comment.strip()` is a slice of the comment with only whitespace outside it, and neither starts nor ends with whitespace |
| StrBuiltins.ToLower | tonewise_ai_microservice.py:58 | `prediction.lower()` has the same length, no uppercase letter, changes exactly the uppercase letters into lowercase ones, maps each uppercase letter to the lowercase letter 32 code points above it (`A` to `a`, `Z` to `z`), and keeps every other character |
| StrBuiltins.LowerIdempotent | tonewise_ai_microservice.py:58 | lower-casing an already lower-cased label changes nothing |
| Casing.Tone.Label | tonewise_ai_microservice.py:36-42 | each tone is returned as exactly one of the four strings "STRONG EMPHASIS or URGENCY", "Neutral or Passive", "Proper Formatting (Title Case)" and "Conversational or Mixed", and each string names exactly one tone |
| Casing.AnalyzeCasing | tonewise_ai_microservice.py:34-42 | the tone is "STRONG EMPHASIS" exactly when the text is all upper; "Neutral" exactly when not all upper but all lower; "Title Case" exactly when neither but title-shaped; "Mixed" exactly when none of the three tests holds |
| Casing.LabelsDistinct | tonewise_ai_microservice.py:36-42 | the four returned strings are pairwise different, so the label determines the branch taken |
| Casing.UncasedIsMixed | tonewise_ai_microservice.py:35-42 | text without letters (empty, digits, punctuation) is "Conversational or Mixed" |
| Casing.EmptyAndDigitsAreMixed | tonewise_ai_microservice.py:35-42 | `""` and `"123"` are "Conversational or Mixed" |
| Casing.SingleCapitalIsEmphasis | tonewise_ai_microservice.py:35-40 | `"I"` is title case too, but the upper test comes first and wins |
| Casing.UpperExample | tonewise_ai_microservice.py:35-36 | `"I LOVE THIS"` is "STRONG EMPHASIS or URGENCY" |
| Casing.LowerExample | tonewise_ai_microservice.py:37-38 | `"i love this"` is "Neutral or Passive" |
| Casing.TitleExample | tonewise_ai_microservice.py:39-40 | `"I Love This"` is "Proper Formatting (Title Case)" |
| Casing.MixedExample | tonewise_ai_microservice.py:41-42 | `"I Love this very much"` is "Conversational or Mixed", since "this" starts lowercase after a space |
| Casing.StripKeepsCasing | tonewise_ai_microservice.py:57 | classifying `comment.strip()` gives the same tone as classifying the comment itself |
| Profiles.Profile.Get | tonewise_ai_microservice.py:47-49 | `profile[key]` reads `total_comments`, `positive`, `negative` or `neutral` as `key` names it |
| Profiles.Fresh | tonewise_ai_microservice.py:26-31 | the record the default factory builds has every one of the four keys at zero |
| Profiles.KeysDetermineProfile | tonewise_ai_microservice.py:26-31 | two records that agree on all four keys are the same record, so the four keys are the whole record |
| Profiles.Profile.Bump | tonewise_ai_microservice.py:49 | `profile[key] += 1` raises the counter `key` by one and leaves the other three as they were |
| Profiles.Apply | tonewise_ai_microservice.py:47-49 | one update raises `total_comments` by one (by two for the label "total_comments") and raises the counter named by the label by one when it is a sentiment key; an unknown label changes only the total |
| Profiles.Lookup | tonewise_ai_microservice.py:46 | `commenter_profiles[commenter_id]` before the update is the stored record when the id has one, and an all-zero record when it does not |
| Profiles.ReplayCounts | tonewise_ai_microservice.py:45-50 | after a sequence of updates from a fresh record, each sentiment counter is the number of updates with that label, and the total is the number of updates plus the number labelled "total_comments" |
| Profiles.ProfileSumBound | tonewise_ai_microservice.py:47-49 | the three sentiment counters never add up to more than the total, and add up to exactly the total when, and only when, every label was a sentiment |
| Profiles.TotalIsUpdateCount | tonewise_ai_microservice.py:46-47 | after N updates none of which is labelled "total_comments", the total is N |
| Profiles.TwoUpdatesExample | tonewise_ai_microservice.py:45-50 | a positive then a negative update give total 2, positive 1, negative 1, neutral 0 |
| Profiles.StoredSumsBounded | tonewise_ai_microservice.py:26-31 | in a consistent table, every record's sentiment counters add up to at most its total |
| Profiles.ProfileStore.constructor | tonewise_ai_microservice.py:26-31 | the table starts empty |
| Profiles.ProfileStore.UpdateProfile | tonewise_ai_microservice.py:45-50 | the commenter's record, or a fresh all-zero one on first reference, gets the update; every other commenter's record is unchanged; the whole updated record is returned; the table stays consistent with its history |
| Service.NoComment | tonewise_ai_microservice.py:74 | `not comment` holds exactly when the comment is absent or the empty string |
| Service.CommenterId | tonewise_ai_microservice.py:72 | `data.get('name', 'anonymous')` is the given name when there is one, whatever it is, and "anonymous" when there is none |
| Service.AnalyzeCommentCore | tonewise_ai_microservice.py:53-65 | the result carries the comment, the model's label as given, the casing of the stripped comment and the commenter's record after an update under the lower-cased label |
| Service.AnalyzeComment | tonewise_ai_microservice.py:69-82 | an absent or empty comment gives 400 "No comment provided" with the table unchanged; a model failure gives 500 "Failed to analyze comment" with the table unchanged; otherwise the profile of `name`, or of "anonymous" when `name` is absent, is updated and the core's result is returned |

## Left out

- The Flask application, its routes, `request.get_json`, `jsonify`, the `/` liveness route and `app.run`. These are HTTP plumbing. The model starts at the parsed request fields and ends at a response value.
- Loading the model and vectorizer with `joblib.load`, and `vectorizer.transform`, `model.predict` and `model.predict_proba`. These are file I/O and calls into scikit-learn. The predicted label is an input, and `None` stands for any exception they raise, including a model that failed to load.
- The `confidence` field (`int(np.max(...) * 100)` formatted with `:.1f`). It is floating-point numerics on the library's output.
- The `details` text of the 500 response. It is the text of a library exception.
- StrBuiltins.IsUpper, StrBuiltins.IsLower, StrBuiltins.IsTitle: the only cased characters are ASCII `A`-`Z` and `a`-`z`. Python consults the full Unicode database, including titlecase letters.
- StrBuiltins.Strip: removes only ASCII whitespace (0x09-0x0D, 0x1C-0x1F, space). Python also strips Unicode whitespace.
- StrBuiltins.ToLower: maps only `A`-`Z`. Python lower-cases every Unicode letter.
- Service.AnalyzeComment: `comment` and `name` are strings or absent. A JSON body may carry other types, such as `0` or `[]`, which `not comment` also refuses, or a `name` that is `null`, which the code would use as the key. A body that is not JSON at all is also not modelled.
- Profiles.ProfileStore.UpdateProfile: returns the record as a value. Python returns the dictionary object that stays in the table. The response serialises it at once, so the difference is not observable there.
- Concurrent requests. The code has no locking, and the model treats updates as sequential.
