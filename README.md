# CyberGuardian verdict engine and request relay, in Dafny

CyberGuardian is a phishing-triage agent that runs as an AWS Lambda function.
A request carries a text message. The handler trims it and asks a hosted
classifier for a label (`LABEL_1` malicious, `LABEL_0` benign) and a score.
It then runs a rule-based **verdict engine** over the message and the
classifier's answer. The engine produces:

- the risky-keyword hits;
- a severity tier (high, medium or low);
- the likely channel (email or SMS);
- a recommended action;
- an override that can turn a benign classification into a malicious one,
  with the score raised to a floor of 0.95;
- a verdict sentence and an explanation.

The handler returns the resulting audit record with status 200. Every
failure becomes status 500.

The model has five modules. All of them are pure, like the source:

- `Wrappers`: the `Option` and `Result` types that carry failures.
- `Text`: the Python string operations the agent uses. These are substring
  containment (`in`), `lower`, `strip` and `join`, with lemmas about them.
- `VerdictEngine`: `generate_metadata` and the properties of its outputs.
- `Scenarios`: what the engine decides for whole classes of messages,
  including the "click here" message that is medium severity yet safe.
- `Relay`: the request path of `lambda_handler`. It selects the body, reads
  and trims the message, applies the classifier defaults and builds the
  record.

Some things are inputs to the model:

- The JSON decoder (`parse`).
- The classifier endpoint (`classify`).
- The two-decimal rendering of the score (`formatScore`).
- The record's id and timestamp.

The source writes the source channel as `"SMS"` in upper case, and the model
follows it; a lower-case `sms` would not match what the agent stores.

## Model

| member | source | states |
|---|---|---|
| Text.Contains | lambda/CyberGuardianAgent.py:30-37 | Python's `in` on strings: the empty string occurs in every text, and a text never contains anything longer than itself |
| Text.Join | lambda/CyberGuardianAgent.py:60 | `', '.join`: an empty list joins to the empty string, the join starts with the first part, and it holds the separator once there are two parts |
| Text.Lower | lambda/CyberGuardianAgent.py:26 | lower-casing keeps the length and maps every character through the ASCII lower-case mapping |
| Text.LowerChar | lambda/CyberGuardianAgent.py:26 | an upper-case ASCII letter moves up by 32, any other character is kept, and the result is never upper-case |
| Text.LowerIdempotent | lambda/CyberGuardianAgent.py:26 | lower-casing an already lower-cased message changes nothing |
| Text.LowerOfLowerCase | lambda/CyberGuardianAgent.py:26 | a text without capitals is its own lower-cased form |
| Text.Trim | lambda/CyberGuardianAgent.py:79 | the stripped text is a slice of the input with only whitespace around it; it is empty exactly when the input is all whitespace; otherwise its ends are not whitespace |
| Text.TrimIsSlice | lambda/CyberGuardianAgent.py:79 | the stripped text occurs in the raw text |
| Text.TrimIdempotent | lambda/CyberGuardianAgent.py:79 | stripping twice is stripping once |
| Text.JoinAppend | lambda/CyberGuardianAgent.py:60 | joining one more part appends the separator and that part to the earlier join, so the parts appear in list order |
| Text.JoinContainsEach | lambda/CyberGuardianAgent.py:60 | every joined keyword occurs in the `', '.join` of the hits |
| Text.MissingCharNotContained | lambda/CyberGuardianAgent.py:30 | a keyword with a character the text lacks is not a substring of it |
| Text.ContainsTransitive | lambda/CyberGuardianAgent.py:37 | a substring of a substring is a substring (why "bank account" implies "account") |
| VerdictEngine.Matching | lambda/CyberGuardianAgent.py:30 | the comprehension keeps exactly the contained keywords, in list order, as a subsequence, at most as many as the list, with no duplicates when the list has none |
| VerdictEngine.RiskyKeywordsDistinct | lambda/CyberGuardianAgent.py:29 | the seven risky keywords are pairwise distinct |
| VerdictEngine.KeywordHits | lambda/CyberGuardianAgent.py:29-30 | the hits are exactly the risky keywords in the lower-cased message, in list order, each once, at most seven |
| VerdictEngine.MatchingUnique | lambda/CyberGuardianAgent.py:30 | any duplicate-free ordered selection holding exactly the contained keywords is the comprehension's result |
| VerdictEngine.KeywordHitsUnique | lambda/CyberGuardianAgent.py:29-30 | the hits are the only ordered selection of risky keywords that holds exactly the contained ones |
| VerdictEngine.MatchingNone | lambda/CyberGuardianAgent.py:30 | when no keyword occurs there are no hits |
| VerdictEngine.MatchingSingle | lambda/CyberGuardianAgent.py:30 | when exactly one keyword occurs it is the single hit |
| VerdictEngine.AnyContained | lambda/CyberGuardianAgent.py:33-34 | `any(kw in text for kw in keywords)`: true exactly when some listed keyword occurs in the text |
| VerdictEngine.SeverityOf | lambda/CyberGuardianAgent.py:33-34 | high exactly when "bank account", "update now" or "urgent" occurs; medium exactly when none of those occurs but "click here" or "verify" does; low exactly when none of the five occurs |
| VerdictEngine.SourceOf | lambda/CyberGuardianAgent.py:37 | email exactly when "verify" or "account" occurs, else SMS; every message with "bank account" is an email |
| VerdictEngine.BankAccountMentionsAccount | lambda/CyberGuardianAgent.py:37 | a text holding "bank account" holds "account" |
| VerdictEngine.RecommendationFor | lambda/CyberGuardianAgent.py:40 | "Report to authorities" exactly for high severity, "Ignore or delete" otherwise |
| VerdictEngine.Max | lambda/CyberGuardianAgent.py:45 | `max(score, 0.95)`: at least both arguments and equal to one of them |
| VerdictEngine.OverrideOf | lambda/CyberGuardianAgent.py:43-45 | the override fires exactly for the malicious label or at least two hits; when it fires the label is malicious and the score is at least 0.95, at least the raw score, and one of the two; otherwise label and score pass through unchanged |
| VerdictEngine.VerdictText | lambda/CyberGuardianAgent.py:48-55 | the verdict is the safe sentence exactly when the override did not fire; a warning names the final label and the formatted final score |
| VerdictEngine.WarningVerdict | lambda/CyberGuardianAgent.py:49-53 | the warning sentence starts with the "Warning" opening, names the final label and the formatted score, and is longer than the safe sentence |
| VerdictEngine.Explanation | lambda/CyberGuardianAgent.py:58-64 | the explanation always quotes the verdict; it opens with the "no known phishing patterns" sentence exactly when there are no hits; otherwise it opens with "The message contains keywords like " and holds the joined hits and each hit |
| VerdictEngine.GenerateMetadata | lambda/CyberGuardianAgent.py:25-66 | hits come from the lower-cased message; report exactly for high severity; medium or high severity implies a hit; "bank account" gives high and email; the override and the safe verdict are decided by the label and the hit count alone; the explanation quotes the verdict and opens with the no-patterns sentence exactly when there are no hits |
| VerdictEngine.SeverityHasHit | lambda/CyberGuardianAgent.py:29-34 | medium or high severity implies at least one keyword hit |
| VerdictEngine.MetadataCaseInsensitive | lambda/CyberGuardianAgent.py:26 | the engine's whole output is the same for a message and its lower-cased form |
| VerdictEngine.RecommendationIgnoresClassifier | lambda/CyberGuardianAgent.py:40-45 | the recommendation depends on neither the label nor the score (so not on the override either), only on the severity |
| Scenarios.SingleHitStaysSafe | lambda/CyberGuardianAgent.py:43-55 | one hit with a benign label keeps label and score and yields the safe verdict |
| Scenarios.UrgentBankAccountOverrides | lambda/CyberGuardianAgent.py:29-55 | a message with "urgent" and "bank account" is high, email, reported, overridden to the malicious label with score max(raw, 0.95), and not safe |
| Scenarios.NoRiskyWordsIsSafe | lambda/CyberGuardianAgent.py:29-64 | a benign message with no risky keyword and no "account" has no hits, low severity, SMS, "Ignore or delete", unchanged label and score, the safe verdict and the no-patterns explanation |
| Scenarios.ClickHereAlone | lambda/CyberGuardianAgent.py:29-55 | a benign message whose only keyword is "click here" has that single hit, medium severity, SMS, "Ignore or delete", unchanged label and score, and the safe verdict |
| Scenarios.ClickHereText | lambda/CyberGuardianAgent.py:29-37 | "click here" contains no other risky keyword and not "account" |
| Scenarios.ClickHereExample | lambda/CyberGuardianAgent.py:25-66 | the message "click here" with label `LABEL_0` and score 0.3 is medium severity, SMS, "Ignore or delete", keeps `LABEL_0` and 0.3, and is reported safe |
| Relay.SelectBody | lambda/CyberGuardianAgent.py:74-77 | a string "body" is decoded and must hold an object; an event without one is itself the body; the only failure is a malformed body |
| Relay.UserInput | lambda/CyberGuardianAgent.py:79-81 | succeeds exactly when "message" is a string that is not all whitespace; the result is the stripped message, a non-empty slice of it that stripping leaves unchanged; a missing message counts as empty; a non-string message fails separately |
| Relay.TopPrediction | lambda/CyberGuardianAgent.py:91-93 | an empty answer fails; otherwise the first prediction's label and score, with "LABEL_0" and 0.0 for missing ones |
| Relay.TopPredictionIgnoresRest | lambda/CyberGuardianAgent.py:92-93 | predictions after the first never matter |
| Relay.Classification | lambda/CyberGuardianAgent.py:84-93 | a classification exists exactly when the endpoint answers a non-empty list; a failed call is `ClassifierFailed`, an empty answer `NoPrediction`; otherwise the top prediction with its defaults |
| Relay.BuildRecord | lambda/CyberGuardianAgent.py:99-108 | the record carries the id, the stripped message, the verdict as analysis, the explanation, the recommendation and the timestamp, and names severity and source so that each name stands for exactly one value |
| Relay.Handle | lambda/CyberGuardianAgent.py:69-125 | a body or message failure is the response's fault; success means a valid body, the stripped message and a classification, and a record built from the engine's output on the stripped message; after a valid message only classifier faults remain |
| Relay.Response.StatusCode | lambda/CyberGuardianAgent.py:112-125 | status 200 exactly for a record, 500 exactly for a failure |
| Relay.RecordShape | lambda/CyberGuardianAgent.py:98-108 | a stored record has the given id and timestamp, a non-empty message, a severity of low/medium/high, a source of email/SMS, "Report to authorities" exactly for high, and an explanation quoting the analysis |
| Relay.ValidMessageAnswered | lambda/CyberGuardianAgent.py:79-115 | once body and message are valid, the answer is a record (holding that message) exactly when the endpoint answers a non-empty list; otherwise it is the classifier's fault, `ClassifierFailed` for a failed call and `NoPrediction` for an empty answer |
| Relay.BlankMessageRejected | lambda/CyberGuardianAgent.py:79-81 | the request is rejected with the empty-message error exactly when the message is missing or only whitespace |
| Relay.DefaultsApplied | lambda/CyberGuardianAgent.py:91-96 | with no label and no score the message is judged as `LABEL_0` with 0.0, and is safe exactly when it hits fewer than two keywords |
| Relay.EncodedBodyUsed | lambda/CyberGuardianAgent.py:74-77 | an event whose string body decodes to an object with no string "body" of its own is answered as a direct invocation with that object |

## Left out

- The dashboard reader (`lambda/CyberGuardianDashboardReader.py`) is not part of this model.
- Writing the record to DynamoDB (`save_to_dynamo`) is left out. Its failures are caught and logged, so the response never depends on the store, and the model's response does not either.
- The classifier endpoint call and its JSON decoding are the parameter `classify`. A failed call or undecodable answer is one fault, `ClassifierFailed`.
- `json.loads` on the request body is the parameter `parse`. Invalid JSON and JSON that is not an object are one fault, `MalformedBody`, because both raise in the source.
- `uuid.uuid4()` and `datetime.utcnow().isoformat()` are inputs; uniqueness of ids and the timestamp format are not modelled.
- Logging, the JSON serialisation of the response body and the `{error, details}` envelope of a 500 are not modelled; a failure is a `Fault` value.
- The `.2f` rendering of the score inside the warning is the parameter `formatScore`.
- Text.Lower: models `str.lower` for ASCII only; non-ASCII letters are kept unchanged.
- Text.Trim: models `str.strip` for ASCII whitespace only; Unicode spaces are not removed.
- Relay.Handle: the Lambda event is taken to be a JSON object. An event that is a string, list, number or null, which the source always answers with status 500 because the lookups on `event` and `body` raise, cannot be expressed in the model.
- Relay.TopPrediction: the label is taken to be a string and the score a real; a non-numeric score (a failing `float(...)`), NaN and floating-point rounding are not modelled.
- The concrete messages "Urgent: verify your bank account now" and "Hey, are we still meeting at 5?" are instances of Scenarios.UrgentBankAccountOverrides and Scenarios.NoRiskyWordsIsSafe; that each message meets the containment hypotheses of its lemma is not proved here.
