# Health-ai relay: verified model of the feature extractor and the handler decisions

The service in `app.py` is a Flask relay in front of IBM watsonx. It has two endpoints:

- `/chat` forwards a user message to a chat-completion endpoint.
- `/predict` turns symptoms and a patient record into a six-number feature vector.
  It sends that vector to a deployed scoring model and returns the scalar it gets back.

This project models the parts with behaviour you can state:

- the feature extractor `preprocess_symptoms`, with the Python string operations it uses;
- the branching of the two handlers.

Everything is modelled as pure Dafny functions with lemmas about them. This matches the source: one list expression and two straight-line handlers, with no loops and no stored state.

Modules, one per component:

- `Wrappers` (`wrappers.dfy`): `Option`, used for Python's "value or missing".
- `Json` (`json.dfy`): decoded JSON values and the Python operations the handlers apply to them.
  These are truthiness (`if not x`, the predicate `Truthy`), `dict.get` with a default, `x[key]` and `x[0]`.
  A subscript that would raise gives `None`.
- `Text` (`text.dfy`): strings as `seq<char>`.
  It covers `str.lower()`, `str.split(",")` (with `",".join` as its inverse) and `str.split()`.
  `str.split()` splits on runs of whitespace and drops empty tokens.
- `Features` (`features.dfy`): the patient record and `Preprocess` (`preprocess_symptoms`).
  It also reads the record from the decoded `patientData` value.
- `Handlers` (`handlers.dfy`): token extraction, `Chat` and `Predict`.
  Each outbound reply is a parameter: `None` when the call fails, returns a non-2xx status or returns a body that is not JSON.
  Each response records the outbound calls made, in order. So "validate, then compute the features, then fetch the token, then call upstream" is part of the contract.

Three behaviours of the code are easy to misread. The model follows the code:

- **Whitespace.** `str.split()` separates on everything `str.isspace` accepts.
  That is TAB through CR, U+001C to U+001F, space, U+0085, U+00A0, U+1680, U+2000 to U+200A, U+2028, U+2029, U+202F, U+205F and U+3000, not only the six ASCII whitespace characters.
  `Text.IsSpace` lists the full set.
- **Required fields.** The handlers reject any falsy `message` or `symptoms`, not only an empty string or a missing key.
  Falsy values are `null`, `false`, `0`, `""`, `[]` and `{}`.
- **Scoring payload.** The payload declares two field names (`feature1`, `feature2`) but its single row carries all six features (app.py:111-112).
  The model sends the row as written. `Handlers.PayloadCarriesAllSix` states the mismatch.

## Model

| member | source | states |
|---|---|---|
| `Text.LowerChar` | app.py:128 | lower-casing one character gives at least one character, and a comma exactly when the character is a comma |
| `Text.Lower` | app.py:128 | `lower()` never shortens the string |
| `Text.LowerKeepsCommas` | app.py:128 | `s.lower()` has exactly as many commas as `s` |
| `Text.Split` | app.py:128 | `s.split(",")` has one segment more than `s` has commas (so at least one, and `""` gives one), and no segment contains a comma |
| `Text.JoinSplit` | app.py:128 | joining the segments of `s.split(",")` with `","` gives back `s` |
| `Text.SplitJoin` | app.py:128 | splitting comma-free segments joined by `","` gives back the same segments |
| `Text.SplitNoSeparator` | app.py:128 | a string with no comma is a single segment |
| `Text.IsSpace` | app.py:133-135 | no character `str.split()` separates on is a comma |
| `Text.AsciiWhitespace` | app.py:133-135 | among ASCII characters, `str.split()` separates exactly on space, TAB, LF, CR, VT, FF and U+001C to U+001F |
| `Text.Words` | app.py:133-135 | every token of `s.split()` is non-empty and contains no whitespace |
| `Text.WordsSplitAtSpace` | app.py:133-135 | splitting a string at any whitespace character splits its tokens there, so no token spans whitespace |
| `Text.WordIsOneToken` | app.py:133-135 | a non-empty whitespace-free string is exactly one token; with `Text.WordsSplitAtSpace` this makes the tokens the maximal runs |
| `Text.WordCount` | app.py:133-135 | `len(s.split())` equals the independent word-start scan count |
| `Text.NoWordsIffAllSpace` | app.py:133-135 | `s.split()` is empty exactly when `s` is empty or all whitespace |
| `Text.WordCountIsScan` | app.py:133-135 | `len(s.split())` equals the number of maximal non-whitespace runs, counted by an independent left-to-right scan |
| `Text.WordsCoverText` | app.py:133-135 | the tokens of `s.split()`, concatenated, are exactly the non-whitespace characters of `s`, in order |
| `Text.WordsJoin` | app.py:133-135 | splitting words joined by single spaces gives back the same words |
| `Json.Get` | app.py:37 | `d.get(key, default)` is the stored value when the key is present and the default otherwise |
| `Json.Field` | app.py:121 | `j[key]` succeeds exactly on a dict holding the key, with the stored value |
| `Json.First` | app.py:121 | `j[0]` succeeds exactly on a non-empty list (giving its first element) or a non-empty string (giving its first character) |
| `Json.Truthy` | app.py:39 | a value is falsy (`not x`) exactly when it is `null`, `false`, `0`, `""`, `[]` or `{}` |
| `Features.Preprocess` | app.py:127-136 | the vector has exactly six entries. Entry 0 is the comma count of the raw symptoms plus 1 (always at least 1). Entry 1 is the age, or 0 when absent. Entry 2 is 1 exactly when gender is the literal `"Male"` and 0 otherwise. Entries 3-5 are non-negative and are 0 exactly when their field is absent, empty or all whitespace |
| `Features.TextOr` | app.py:133-135 | a text field read with `.get(key, "")` is its value when present and `""` when absent |
| `Features.SegmentCountIgnoresCase` | app.py:128-130 | lower-casing the symptoms first does not change entry 0 |
| `Features.WordFeaturesAreWordStarts` | app.py:133-135 | entries 3-5 are the word-start counts of medical history, current medication and allergies, each defaulting to `""` |
| `Features.SegmentCount` | app.py:128-130 | the number of comma-separated segments of the lower-cased symptoms is the comma count of the raw symptoms plus one |
| `Features.FieldWords` | app.py:133-135 | the word count of a text field (default `""`) is non-negative, and 0 exactly when the field is absent, empty or all whitespace |
| `Features.FeaturesInOrder` | app.py:129-136 | for every input the vector is, in order: comma count plus one, age or 0, the `"Male"` flag, and the independent word-start counts of history, medication and allergies |
| `Features.EmptyInput` | app.py:127-136 | `""` with an empty record gives `[1, 0, 0, 0, 0, 0]` |
| `Features.WorkedExample` | app.py:127-136 | `"fever, cough"` for a 30-year-old `"Male"` with history `"asthma since childhood"`, no medication and allergy `"pollen"` gives `[2, 30, 1, 3, 0, 1]` |
| `Features.TextField` | app.py:133-135 | an absent text field reads as absent, a string as itself, and any other value as the failure `.split()` raises |
| `Features.PatientOf` | app.py:131-135 | a record is read exactly when `patientData` is a dict whose `age`, if present, is an integer and whose three text fields, if present, are strings. Its age is the stored integer, or absent when the key is. Its text fields are the stored strings, or absent. Its gender is `"Male"` exactly when the dict holds the string `"Male"` |
| `Features.PatientRoundTrip` | app.py:131-135 | every record is read back unchanged from the dict that carries its fields |
| `Features.EmptyPatient` | app.py:95 | the default `{}` reads as the record with every field absent |
| `Handlers.Token` | app.py:28-30 | a token is obtained exactly when the identity reply is a JSON object with `access_token`, and it is that member |
| `Handlers.Message` | app.py:37 | `message` is the stored value when present, and the falsy `""` when absent |
| `Handlers.Symptoms` | app.py:94 | `symptoms` is the stored value when present, and the falsy `""` when absent |
| `Handlers.PatientData` | app.py:95 | `patientData` is the stored value when present, and `{}` when absent |
| `Handlers.NumList` | app.py:112 | the feature row is a JSON list of the same length holding each feature as a number, in order |
| `Handlers.Payload` | app.py:108-115 | the payload is `{"input_data": [{"fields": ["feature1", "feature2"], "values": [row]}]}` with nothing else, and its one row holds every feature, in order |
| `Handlers.Chat` | app.py:34-87 | a falsy `message` gives 400 `"No message provided"` with no outbound call. A body that is not an object makes no call. Otherwise the token request is always made, and it is made first. The chat request is made exactly when the token was obtained, and it carries the message and the token. The reply is returned unchanged exactly when both calls succeed |
| `Handlers.ChatRejectsMissingMessage` | app.py:36-40 | a missing or empty `message` gives 400 with no outbound call, whatever the upstream would answer |
| `Handlers.ExtractPrediction` | app.py:121 | a prediction is found only if the reply is an object with a non-empty `predictions` list whose first element is an object with `values`, and `values` and `values[0]` can both be indexed at 0. The value found is `values[0][0]`, so an empty `values` or `values[0]` gives no prediction |
| `Handlers.ExtractAtPath` | app.py:121 | when the path exists, the result is exactly the value at `predictions[0].values[0][0]` |
| `Handlers.ExtractRoundTrip` | app.py:121 | a value placed at the prediction path is extracted unchanged |
| `Handlers.Predict` | app.py:91-125 | a falsy `symptoms` gives 400 `"No symptoms provided"` with no outbound call. The token request is made exactly when the body is an object, `symptoms` is a non-empty string and the patient record can be read. The scoring request is made exactly when the token was also obtained, and it carries the token and the features of exactly those inputs. The result is 200 `{"prediction": v}` exactly when the scoring reply arrived and `v` is the value at its prediction path |
| `Handlers.PredictRejectsMissingSymptoms` | app.py:93-98 | missing or empty `symptoms` gives 400 with no outbound call, whatever `patientData` holds |
| `Handlers.TokenFailureStopsBoth` | app.py:29 | if the token cannot be obtained, neither handler succeeds and neither makes a call after the token request. A request that passed validation gets a 500 after exactly the token request |
| `Handlers.MissingPredictionsFails` | app.py:121-125 | a scoring reply without `predictions` gives a 500 |
| `Handlers.PredictSucceeds` | app.py:100-122 | a successful exchange makes the token request, then the scoring request carrying `Preprocess` of the inputs, and returns the value found at the prediction path |
| `Handlers.PayloadCarriesAllSix` | app.py:108-115 | the scoring payload names two fields but its row carries all six features |

## Left out

- Outbound HTTP is not modelled: `requests.post` to the identity, chat and scoring endpoints, and `raise_for_status`. Each reply is a parameter, `None` for any failure.
- The Flask application, routing, `jsonify`, CORS, `load_dotenv`/`os.getenv` configuration and `app.run` are process wiring with no decision logic.
- The fixed system prompt, the generation parameters, the model and project identifiers and the endpoint URLs are constants passed to the upstream. `Handlers.ChatRequest` records only the token and the user message.
- The text of a 500 error (`str(e)`) is not modelled. `Handlers.ServerError` only says that the request failed.
- What `request.get_json()` does with a body that is not JSON or has the wrong content type is not modelled. The model starts from the decoded value. A decoded value that is not an object fails with 500, as `.get` on it would.
- JSON numbers are integers. Floating-point values, and Python's treatment of `true`/`false` as the integers 1/0, are not modelled.
- `Features.PatientOf`: an `age` that is present but not an integer (a string, a float, `null`) is treated as a failure before any call. The source would put it into the vector and send it upstream.
- `Text.LowerChar`: lower-casing covers ASCII, the Latin-1 capitals and U+0130 (whose lower case has two characters). Other Unicode case mappings leave the character unchanged in the model. Only the comma count of the lower-cased string is used, and no case mapping produces or removes a comma.
- `Handlers.Chat`: the upstream reply is modelled as JSON that is returned unchanged. Its content is not examined, as in the source.
