# RSTMindHealth core, modelled in Dafny

RSTMindHealth is a caregiving app for people living with Alzheimer's disease and
for their caregivers. It has three layers. This project models the decision
logic of each layer and proves what that logic promises.

- **The native exit alert (Android, Java).** `GeofencePlugin` checks the six
  arguments of `start`, then saves the configuration the receiver needs. It
  checks the location permission and registers one exit-only region called
  `SAFE_ZONE`. `GeofenceBroadcastReceiver` reacts to exit transitions only.
  It reads the saved token and URL and makes exactly one POST to the
  `geofence-alert` function.
  - The key/value store, the geofencing client, the log and the HTTP client
    are small classes (`AndroidPlatform`).
  - Outgoing requests are appended to an outbox.
- **The server functions (Supabase edge functions, TypeScript).**
  - `check-geofence-and-notify`: the inside/outside transition, the alert row
    and the ten-minute e-mail cooldown.
  - `geofence-alert`: the patient-or-caregiver resolution.
  - `create-caregiver-invite`: the ordered validation cascade, the withdrawal
    of pending invites, and the six-digit code with its fifteen-minute expiry.
  - `confirm-caregiver-invite`: the selection of the newest unused, unexpired
    invite, the link and the mark-used.
  - `send-sos`: the deduplicated recipient list.

  Each handler is a method. It takes a snapshot of the tables it reads and
  returns a reply together with the list of writes and mails it performs.
- **The app (React, TypeScript).**
  - Four cognitive games: card matching with a Fisher-Yates shuffle, a
    Simon-style colour sequence, missing-number sequences, and "find the
    different one". Each is a class whose methods are the click handlers and
    the timer continuations. Each `Math.random()` draw is a parameter.
  - The data hooks over Supabase tables: trusted and emotional contacts, story
    albums and photos, tasks, blood-pressure records, and game statistics.
    - Each hook is a class whose fields are the hook's state plus the table
      it reads and writes.
    - A database answer is a parameter, and a thrown error is the `Thrown`
      outcome.
    - `TargetPatient` holds the rule for which patient a caregiver works on.
  - The client-side rules:
    - role normalisation and preference clamping;
    - registration and vital-sign input validation;
    - the profile, safety, support and daily screens;
    - safe-zone editing;
    - the progress category parameter;
    - music decade arithmetic;
    - two metric cards.

JavaScript semantics are modelled where they matter (`JsText`, `JsMath`):

- what counts as truthy;
- `trim` and its whitespace set, and ASCII `toLowerCase`;
- `parseInt`;
- the truncating `%`;
- `Math.round`;
- the regular expressions the code uses.

`check-geofence-and-notify` never reads the zone's `active` flag, and the model
does not read it either.

## Model

| member | source | states |
|---|---|---|
| GeofenceReceiver.AlertUrl | android/app/src/main/java/com/marcos/RSTMindHealth/GeofenceBroadcastReceiver.java:60-61 | the stored `supabaseUrl`, or "YOUR_SUPABASE_URL" when none is stored, followed by "/functions/v1/geofence-alert" |
| GeofenceReceiver.AlertBody | android/app/src/main/java/com/marcos/RSTMindHealth/GeofenceBroadcastReceiver.java:73-78 | the body holds event_type "EXIT", lat and lng, plus patient_id only when one is stored (a null `put` removes the key) |
| GeofenceReceiver.AlertRequest | android/app/src/main/java/com/marcos/RSTMindHealth/GeofenceBroadcastReceiver.java:84-90 | a POST to the URL with the single header `Authorization: Bearer <token>` and a JSON body of content type `application/json; charset=utf-8` |
| GeofenceReceiver.DispatchFor | android/app/src/main/java/com/marcos/RSTMindHealth/GeofenceBroadcastReceiver.java:40-66 | a request exists exactly when the event has no error, is an EXIT, and a token is stored; it carries the stored URL, the token, the stored patient id and the triggering location |
| GeofenceReceiver.OnlyExitDispatches | android/app/src/main/java/com/marcos/RSTMindHealth/GeofenceBroadcastReceiver.java:42-49 | error events, ENTER and DWELL transitions never produce a request |
| GeofenceReceiver.StoredCoordinatesIgnored | android/app/src/main/java/com/marcos/RSTMindHealth/GeofenceBroadcastReceiver.java:53-65 | whatever is stored under "lat"/"lng", the request is the same and carries the event's own location |
| GeofenceReceiver.PatientIdNotRequired | android/app/src/main/java/com/marcos/RSTMindHealth/GeofenceBroadcastReceiver.java:54-66 | with a token and no patient id a request still goes out, its body holding only event type and coordinates |
| GeofenceReceiver.Receiver.OnReceive | android/app/src/main/java/com/marcos/RSTMindHealth/GeofenceBroadcastReceiver.java:39-68 | the outbox grows by exactly the request `DispatchFor` gives, and not at all for an error event |
| GeofenceReceiver.Receiver.SendAlert | android/app/src/main/java/com/marcos/RSTMindHealth/GeofenceBroadcastReceiver.java:70-93 | exactly one request is appended: a single attempt |
| GeofenceReceiver.Receiver.CompleteSend | android/app/src/main/java/com/marcos/RSTMindHealth/GeofenceBroadcastReceiver.java:93-103 | the outcome only adds one log line; the network is untouched, so there is no retry and no report to a caller |
| GeofenceReceiver.OutcomeLine | android/app/src/main/java/com/marcos/RSTMindHealth/GeofenceBroadcastReceiver.java:95-101 | the line is logged as an error exactly when the call failed or answered outside 2xx |
| GeofencePlugin.GeofenceIntent | android/app/src/main/java/com/marcos/RSTMindHealth/GeofencePlugin.java:98-102 | the broadcast intent for the receiver, request code 0, mutable and update-current |
| AndroidPlatform.Register | android/app/src/main/java/com/marcos/RSTMindHealth/GeofencePlugin.java:75 | every geofence of the request is registered under its id, and nothing registered before is lost |
| AndroidPlatform.Unregister | android/app/src/main/java/com/marcos/RSTMindHealth/GeofencePlugin.java:88 | exactly the registrations under another intent remain, unchanged |
| AndroidPlatform.UnregisterUndoesRegister | android/app/src/main/java/com/marcos/RSTMindHealth/GeofencePlugin.java:75-96 | removing through the same intent removes every geofence the request added |
| AndroidPlatform.RegisteredUnderIntent | android/app/src/main/java/com/marcos/RSTMindHealth/GeofencePlugin.java:75 | each geofence of a request is registered under the request's intent |
| AndroidPlatform.GeofencingClient.AddGeofences | android/app/src/main/java/com/marcos/RSTMindHealth/GeofencePlugin.java:75-84 | on success the registrations are `Register` of the old ones; on failure unchanged |
| AndroidPlatform.GeofencingClient.RemoveGeofences | android/app/src/main/java/com/marcos/RSTMindHealth/GeofencePlugin.java:88-96 | on success the registrations are `Unregister` of the old ones; on failure unchanged |
| AndroidPlatform.GetString | android/app/src/main/java/com/marcos/RSTMindHealth/GeofenceBroadcastReceiver.java:54-60 | the stored string exactly when the key holds a string, otherwise none |
| GeofencePlugin.SafeZoneRequest | android/app/src/main/java/com/marcos/RSTMindHealth/GeofencePlugin.java:63-73 | one circular region "SAFE_ZONE" at the given centre and radius, never expiring, EXIT transitions only, initial trigger EXIT |
| GeofencePlugin.SavedConfig | android/app/src/main/java/com/marcos/RSTMindHealth/GeofencePlugin.java:48-55 | patientId, token and supabaseUrl are stored as strings, lat and lng narrowed to float, and every other entry kept |
| GeofencePlugin.StopRemovesWhatStartAdded | android/app/src/main/java/com/marcos/RSTMindHealth/GeofencePlugin.java:75-96 | a successful start followed by a successful stop leaves no safe zone registered under the plugin's intent |
| GeofencePlugin.Plugin.constructor | android/app/src/main/java/com/marcos/RSTMindHealth/GeofencePlugin.java:28-31 | the plugin keeps the preferences file and geofencing client it is given |
| GeofencePlugin.Plugin.Start | android/app/src/main/java/com/marcos/RSTMindHealth/GeofencePlugin.java:33-84 | a missing argument rejects before any write; otherwise the config is saved first, and a permission denial rejects with the config still stored; with permission, success registers the safe zone and resolves, failure rejects with the cause |
| GeofencePlugin.Plugin.Stop | android/app/src/main/java/com/marcos/RSTMindHealth/GeofencePlugin.java:86-96 | success unregisters the plugin's intent and resolves; failure changes nothing and rejects with the cause |
| EdgeRuntime.Single | supabase/functions/check-geofence-and-notify/index.ts:44-57 | `single()` yields a row exactly when one row matched, and that row |
| EdgeRuntime.StripBearerOfBearer | supabase/functions/check-geofence-and-notify/index.ts:31 | a header "Bearer <token>" yields the token |
| EdgeRuntime.GetUser | supabase/functions/check-geofence-and-notify/index.ts:32-39 | the user the token was issued to, or none for an unknown token |
| CheckGeofence.ZonesOf | supabase/functions/check-geofence-and-notify/index.ts:44-48 | exactly the safe zones of the patient |
| CheckGeofence.LocationsOf | supabase/functions/check-geofence-and-notify/index.ts:60-64 | exactly the stored locations of the patient |
| CheckGeofence.CooldownInMinutes | supabase/functions/check-geofence-and-notify/index.ts:107-112 | the source's minutes test `(now - last)/1000/60 >= 10` is the ten-minute test in milliseconds |
| CheckGeofence.CooledDown | supabase/functions/check-geofence-and-notify/index.ts:107-112 | no e-mail was ever sent, or the last one is at least ten minutes old |
| CheckGeofence.Handle | supabase/functions/check-geofence-and-notify/index.ts:13-144 | the early exits in source order, none writing: missing configuration or an absent or empty Authorization header (400), an unknown token (401), a failed zone query (400), no safe zone (200), no location (400); otherwise inside iff the distance is within the radius, and on a change of state an ENTER/EXIT alert row and the location update, with an e-mail only on EXIT after the cooldown; no change, no writes; a throwing mail call leaves the alert row alone in place and answers 400 |
| GeofenceAlert.LinkAsCaregiver | supabase/functions/geofence-alert/index.ts:76-82 | a link it finds has the caller as caregiver and the patient the body names |
| GeofenceAlert.LinkAsPatient | supabase/functions/geofence-alert/index.ts:66-70 | the caller's own link as a patient, if any |
| GeofenceAlert.Resolve | supabase/functions/geofence-alert/index.ts:60-89 | a linked patient reports to their own caregiver; otherwise a caregiver linked to a named patient reports for that patient; otherwise no caregiver |
| GeofenceAlert.Handle | supabase/functions/geofence-alert/index.ts:9-125 | in source order: an absent or empty Authorization header (401), an unknown token (401), an unreadable body (400), no event type (400), no caregiver after resolution (404), a failed insert (400); otherwise the event is stored with the resolved patient and caregiver ids and the reply is success; an event is stored iff the reply is success |
| CreateInvite.CodeFromDraw | supabase/functions/create-caregiver-invite/index.ts:153 | every draw in [0, 1) gives a code from 100000 to 999999 |
| CreateInvite.CodeTextIsSixDigits | supabase/functions/create-caregiver-invite/index.ts:153 | the mailed code's text is six digits |
| CreateInvite.NormalizeEmail | supabase/functions/create-caregiver-invite/index.ts:95 | no longer than the input, empty only for a blank input, with no surrounding whitespace and no capital letters |
| CreateInvite.Withdraw | supabase/functions/create-caregiver-invite/index.ts:145-150 | exactly the unused invites from the patient to the address become used; every other row is unchanged |
| CreateInvite.ChecksPass | supabase/functions/create-caregiver-invite/index.ts:101-142 | the caregiver is registered, is not the patient, the patient has no link and the caregiver has none |
| CreateInvite.LinkCheck | supabase/functions/create-caregiver-invite/index.ts:101-142 | the first failing check in source order (unregistered caregiver, self link, patient linked, caregiver linked); none exactly when every check passes |
| CreateInvite.Handle | supabase/functions/create-caregiver-invite/index.ts:28-194 | in source order, each writing nothing: an absent or empty Authorization header, an empty token, an unknown token, no address, a malformed address, then the first failing link check; a failed insert leaves only the withdrawal; otherwise withdraw, insert the hashed code expiring in 15 minutes, and mail the code, in that order, answering sent unless the mail fails |
| JsText.IsValidEmailMatchesPattern | supabase/functions/create-caregiver-invite/index.ts:24-26 | the test agrees with `^[^\s@]+@[^\s@]+\.[^\s@]+$` in both directions |
| JsText.ValidEmailHasOneAtAndNoSpace | supabase/functions/create-caregiver-invite/index.ts:24-26 | a valid address has exactly one `@` and no whitespace |
| ConfirmInvite.GeneratedCodeIsAccepted | supabase/functions/confirm-caregiver-invite/index.ts:23-25 | every code the invite function mails passes the six-digit check |
| ConfirmInvite.SelectInvite | supabase/functions/confirm-caregiver-invite/index.ts:109-121 | an eligible invite (the caller's, this hash, unused, unexpired) with the latest creation time; none iff none is eligible |
| ConfirmInvite.Eligible | supabase/functions/confirm-caregiver-invite/index.ts:109-115 | the invite is the caller's, carries this hash, is unused and unexpired |
| ConfirmInvite.SelectNewest | supabase/functions/confirm-caregiver-invite/index.ts:116-118 | a unique newest eligible invite is the one selected |
| ConfirmInvite.Handle | supabase/functions/confirm-caregiver-invite/index.ts:27-169 | in source order, each writing nothing: an absent or empty Authorization header, an empty token, an unknown token, no code, a code that is not six digits, a patient already linked (before invites are read), no eligible invite, a missing caregiver, a caregiver already linked, a failed link insert; on success exactly the link insert and the mark-used of the selected invite |
| ConfirmInvite.SecondConfirmationRefused | supabase/functions/confirm-caregiver-invite/index.ts:99-106 | after a successful link the patient has exactly one link, so a second confirmation is refused |
| ConfirmInvite.WithdrawKeepsOtherAddresses | supabase/functions/create-caregiver-invite/index.ts:145-150 | withdrawing invites to one address leaves the invites to other addresses eligible |
| ConfirmInvite.MailedCodeSelectsNewInvite | supabase/functions/confirm-caregiver-invite/index.ts:109-118 | after a successful invitation the mailed code, entered before expiry, selects the new invite |
| SendSos.ContactEmails | supabase/functions/send-sos/index.ts:83-88 | an address is listed exactly when a trusted contact of the patient has it |
| SendSos.Candidates | supabase/functions/send-sos/index.ts:90-95 | the caregiver address when truthy, then the contact addresses |
| SendSos.Dedup | supabase/functions/send-sos/index.ts:91-95 | the values in first-seen order, each once |
| SendSos.DedupProperties | supabase/functions/send-sos/index.ts:91-95 | the set-based list has no duplicates and the same members as its input |
| SendSos.DedupKeepsFirst | supabase/functions/send-sos/index.ts:91-95 | the first value keeps the first place |
| SendSos.CollectRecipients | supabase/functions/send-sos/index.ts:90-95 | the loop over the set yields the deduplicated candidates: caregiver first, then contacts |
| SendSos.RecipientsAreExactlyTheContacts | supabase/functions/send-sos/index.ts:90-95 | every recipient is the caregiver or a trusted contact, each once, and none left out |
| SendSos.RecipientsProperties | supabase/functions/send-sos/index.ts:66-95 | the recipients have no duplicates, include every trusted contact and nothing else but the caregiver |
| SendSos.NobodyToWarn | supabase/functions/send-sos/index.ts:97-102 | an empty recipient list means no caregiver address and no contacts |
| SendSos.PatientName | supabase/functions/send-sos/index.ts:57-63 | the name in the e-mail is never empty (the profile's name, or a default) |
| SendSos.Handle | supabase/functions/send-sos/index.ts:16-155 | unauthorised without a valid token; refused with no mail exactly when the deduplicated candidates (caregiver first, then contacts) are empty; otherwise one mail whose recipients are exactly those candidates, the caregiver first when present, with the default message and name where missing |
| MemoryMatch.InitialDeck | components/games/memory/MemoryMatchEasyScreen.tsx:143-148 | two cards per pair, ids in order, every card face up and unmatched |
| MemoryMatch.Swap | components/games/memory/MemoryMatchEasyScreen.tsx:153 | the two positions exchange their cards, all others unchanged |
| MemoryMatch.SwapPermutes | components/games/memory/MemoryMatchEasyScreen.tsx:153 | a swap keeps the multiset of cards |
| MemoryMatch.ShuffleSteps | components/games/memory/MemoryMatchEasyScreen.tsx:151-154 | the deck after k steps of the Fisher-Yates loop |
| MemoryMatch.ShufflePermutes | components/games/memory/MemoryMatchEasyScreen.tsx:151-154 | any number of steps keeps the multiset of cards |
| MemoryMatch.Shuffle | components/games/memory/MemoryMatchEasyScreen.tsx:151-154 | the in-place loop yields the specified shuffle, a permutation of the deck |
| MemoryMatch.MatchedCountAllMatched | components/games/memory/MemoryMatchEasyScreen.tsx:249-255 | a count of matched cards equal to the deck size means every card is matched |
| MemoryMatch.MatchedCount | components/games/memory/MemoryMatchEasyScreen.tsx:249-255 | the number of matched cards, at most the deck size |
| MemoryMatch.MatchPair | components/games/memory/MemoryMatchEasyScreen.tsx:243-247 | exactly the two cards of the pair become matched, every other card unchanged, and the matched count grows by two |
| MemoryMatch.Game.constructor | components/games/memory/MemoryMatchEasyScreen.tsx:142-214 | counters reset and nothing active; when the session row is created the shuffled deck face up and the board locked for the preview; otherwise no cards and the session error message |
| MemoryMatch.Game.EndPreview | components/games/memory/MemoryMatchEasyScreen.tsx:161-165 | every card face down, the board open, the game active |
| MemoryMatch.Game.Tick | components/games/memory/MemoryMatchEasyScreen.tsx:55-68 | the clock advances only while the game is active |
| MemoryMatch.Game.ClickCard | components/games/memory/MemoryMatchEasyScreen.tsx:220-272 | ignored when locked, inactive, or for a missing, face-up or matched card; otherwise the card turns, and a second card locks the board and counts a move |
| MemoryMatch.Game.ResolveMatch | components/games/memory/MemoryMatchEasyScreen.tsx:242-258 | both cards matched (`MatchPair`), one hit more, the board open and no timer; the fourth pair completes the level, stores its result and shows the save error message when the save fails; otherwise activity, result and message are unchanged |
| MemoryMatch.Game.HandleLevelComplete | components/games/memory/MemoryMatchEasyScreen.tsx:276-349 | the game stops, the level is complete, the result holds the moves, hits, errors and time, and a failed save shows its error message; nothing else changes |
| MemoryMatch.Game.ResolveMismatch | components/games/memory/MemoryMatchEasyScreen.tsx:260-270 | both cards face down again, one error more, the board open |
| MemoryMatch.Game.CompleteMeansAllMatched | components/games/memory/MemoryMatchEasyScreen.tsx:249-255 | a completed level has every card matched |
| MemorySequence.Accuracy | components/games/memory/MemorySequenceEasyScreen.tsx:249 | a percentage from 0 to 100: 100 with no errors and some hits, 0 with no hits (NaN becomes 0) |
| MemorySequence.FractionAtMostOne | components/games/memory/MemorySequenceEasyScreen.tsx:249 | hits over rounds lies in [0, 1] |
| MemorySequence.Game.SyncStats | components/games/memory/MemorySequenceEasyScreen.tsx:78-81 | the best level becomes the running maximum of the rendered level; nothing else changes |
| MemorySequence.Game.constructor | components/games/memory/MemorySequenceEasyScreen.tsx:142-173 | counters reset; when the session row is created a sequence of two colours and playback begins; otherwise still loading, no sequence, and the session error message |
| MemorySequence.Game.EndPlayback | components/games/memory/MemorySequenceEasyScreen.tsx:175-192 | the highlight is cleared and the player's turn begins |
| MemorySequence.Game.ClearHighlight | components/games/memory/MemorySequenceEasyScreen.tsx:199 | the highlight goes off and nothing else changes |
| MemorySequence.Game.Tick | components/games/memory/MemorySequenceEasyScreen.tsx:84-96 | the clock advances outside loading and summary |
| MemorySequence.Game.ButtonClick | components/games/memory/MemorySequenceEasyScreen.tsx:194-214 | accepted only on the player's turn with nothing lit; a wrong press fails the round, the press completing the sequence wins it |
| MemorySequence.Game.ResolveFeedback | components/games/memory/MemorySequenceEasyScreen.tsx:216-241 | after a win the sequence grows by one colour, or the game completes at six; after a loss the game ends not completed |
| MemorySequence.Game.Finish | components/games/memory/MemorySequenceEasyScreen.tsx:243-295 | the summary shows and the stored result is the counters, with the accuracy above |
| MemorySequence.Game.LostGameOverstatesBestLevel | components/games/memory/MemorySequenceEasyScreen.tsx:78-81 | the best level stored for a lost game is one above the level the subtraction intends |
| MemorySequence.IntendedBestLevelCountsRoundsWon | components/games/memory/MemorySequenceEasyScreen.tsx:78-81 | the intended best level is the rounds won plus one |
| MemorySequence.FirstRoundLossExample | components/games/memory/MemorySequenceEasyScreen.tsx:78-81 | losing the first round at once stores best level 2 where 1 is intended |
| CalcSequence.StepOf | components/games/calculation/CalcSequenceEasyScreen.tsx:130-131 | the step is 1, 2 or 5 |
| CalcSequence.HiddenOf | components/games/calculation/CalcSequenceEasyScreen.tsx:145 | the hidden position lies inside the sequence |
| CalcSequence.ArithmeticTerms | components/games/calculation/CalcSequenceEasyScreen.tsx:139-142 | term i is start + i × step |
| CalcSequence.TermsWithinRange | components/games/calculation/CalcSequenceEasyScreen.tsx:134-142 | with the drawn start every term stays inside 0..30 |
| CalcSequence.Blanked | components/games/calculation/CalcSequenceEasyScreen.tsx:148-149 | exactly the hidden term is blank, and filling it with the answer gives the terms back |
| CalcSequence.Offset | components/games/calculation/CalcSequenceEasyScreen.tsx:154 | an offset of 1 to 3 in size, of either sign |
| CalcSequence.Distractors | components/games/calculation/CalcSequenceEasyScreen.tsx:152-159 | the loop computes `DistractorsOf`: distinct non-negative values other than the answer, at most 3 away from it, two of them unless the draws ran out |
| CalcSequence.DistractorsFromFacts | components/games/calculation/CalcSequenceEasyScreen.tsx:152-159 | what the loop collects from any point on is duplicate-free, excludes the answer, lies 1 to 3 away from it, and holds at most two values |
| CalcSequence.DistractorsFromExhausted | components/games/calculation/CalcSequenceEasyScreen.tsx:152-159 | fewer than two values are collected only when every pair of draws gave a refused value: negative, the answer, or one already found |
| CalcSequence.OrderPermutes | components/games/calculation/CalcSequenceEasyScreen.tsx:161 | reordering the three options keeps the same multiset |
| CalcSequence.DistractorsAlwaysExist | components/games/calculation/CalcSequenceEasyScreen.tsx:152-159 | for every answer some draws give two distractors, so the loop can always finish |
| CalcSequence.ShuffledOptionsAround | components/games/calculation/CalcSequenceEasyScreen.tsx:161 | the answer and the two distractors in any order are three distinct options around the answer |
| CalcSequence.GenerateQuestion | components/games/calculation/CalcSequenceEasyScreen.tsx:128-164 | none exactly when the draws run out before two distractors; otherwise a question with 3 or 4 terms, one blank holding the answer start + hidden × step, the filled terms stepping by 1, 2 or 5 inside 0..30, and three distinct options that are the answer and its distractors in some order |
| CalcSequence.GenerateQuestions | components/games/calculation/CalcSequenceEasyScreen.tsx:180-182 | none exactly when some draw supply runs out; otherwise ten well-formed questions with ids 0..9, question i answering draw i |
| CalcSequence.CompletedAccuracy | components/games/calculation/CalcSequenceEasyScreen.tsx:265 | hits × 10 percent, within 0..100 |
| CalcSequence.AbandonedAccuracy | components/games/calculation/CalcSequenceEasyScreen.tsx:358 | the percentage stored on leaving, as written: hits over `max(1, attempts)`, one decimal; never negative, at most 100 while hits do not exceed attempts, above 100 when they do with at most ten attempts |
| CalcSequence.CorrectedAbandonedAccuracy | components/games/calculation/CalcSequenceEasyScreen.tsx:358 | counting every answered question, the stored accuracy never exceeds 100 |
| CalcSequence.OneDecimalBounds | components/games/calculation/CalcSequenceEasyScreen.tsx:358 | rounding to one decimal keeps a value within 0..100 |
| CalcSequence.AbandonedAccuracyExceedsHundred | components/games/calculation/CalcSequenceEasyScreen.tsx:51-58 | leaving during the second question's feedback with two right answers stores 200% |
| CalcSequence.Game.constructor | components/games/calculation/CalcSequenceEasyScreen.tsx:166-212 | everything resets; active only when the session row was created |
| CalcSequence.Game.Tick | components/games/calculation/CalcSequenceEasyScreen.tsx:61-74 | the clock advances only while the game is active |
| CalcSequence.Game.Answer | components/games/calculation/CalcSequenceEasyScreen.tsx:214-233 | ignored while inactive or during feedback; otherwise exactly one of score and errors grows, by whether the option is the answer |
| CalcSequence.Game.ResolveAnswer | components/games/calculation/CalcSequenceEasyScreen.tsx:234-314 | the next question, or after the tenth the completed game with ten attempts and accuracy hits × 10% |
| CalcSequence.Game.Exit | components/games/calculation/CalcSequenceEasyScreen.tsx:316-383 | leaving an active game stores the partial result with attempts equal to the question index |
| CalcSequence.Game.AttemptsLagDuringFeedback | components/games/calculation/CalcSequenceEasyScreen.tsx:51-58 | during feedback the stored attempts are one less than hits plus errors |
| AttentionDifferent.PairsAreDistinguishable | components/games/attention/AttentionDifferentEasyScreen.tsx:13-24 | every pair shows two different symbols |
| AttentionDifferent.GenerateRoundGrid | components/games/attention/AttentionDifferentEasyScreen.tsx:140-154 | a grid of the drawn pair, ids in order, only the drawn position different |
| AttentionDifferent.ExactlyOneDifferent | components/games/attention/AttentionDifferentEasyScreen.tsx:140-154 | two different items of a grid are the same item |
| AttentionDifferent.Accuracy | components/games/attention/AttentionDifferentEasyScreen.tsx:335 | the stored percentage lies within 0..100 whenever hits do not exceed attempts |
| AttentionDifferent.Game.constructor | components/games/attention/AttentionDifferentEasyScreen.tsx:156-197 | counters reset, a first grid, active once the session row exists |
| AttentionDifferent.Game.Tick | components/games/attention/AttentionDifferentEasyScreen.tsx:73-86 | the clock advances only while the game is active |
| AttentionDifferent.Game.Tap | components/games/attention/AttentionDifferentEasyScreen.tsx:199-212 | ignored while inactive or during feedback; otherwise one attempt more, a hit exactly when the tapped item is the different one |
| AttentionDifferent.Game.ResolveTap | components/games/attention/AttentionDifferentEasyScreen.tsx:213-291 | a new grid for the next round, or after ten rounds the completed game with its stored result |
| AttentionDifferent.Game.Exit | components/games/attention/AttentionDifferentEasyScreen.tsx:293-356 | leaving an unfinished game stores the partial result with attempts equal to the taps, so the accuracy stays within 0..100 |
| RoleUtils.NormalizeRole | utils/roleUtils.ts:9-23 | patient iff the role is present, non-empty and its trimmed, lower-cased text is patient/usuario/paciente; caregiver iff that text is caregiver/cuidador/familiar instead; unknown iff the role is absent or empty or the text is in neither list |
| RoleUtils.IsPatientRole | utils/roleUtils.ts:25-27 | true iff the role normalises to patient |
| RoleUtils.IsCaregiverRole | utils/roleUtils.ts:29-31 | true iff the role normalises to caregiver, never together with the patient test |
| RoleUtils.NormalizeIgnoresCaseAndPadding | utils/roleUtils.ts:12 | surrounding whitespace and letter case do not change the role |
| RoleUtils.AliasesMapToRoles | utils/roleUtils.ts:14-20 | each of the six aliases, in any letter case, reaches its role |
| Preferences.Clamp | contexts/PreferencesContext.tsx:41 | the value within [lo, hi], unchanged when already inside |
| Preferences.ClampIdempotent | contexts/PreferencesContext.tsx:39-48 | clamping twice is clamping once |
| Preferences.Load | contexts/PreferencesContext.tsx:15-23 | the default when nothing or "" is stored (otherwise the item parsed as an integer, or NaN) |
| Preferences.LoadAfterStore | contexts/PreferencesContext.tsx:15-37 | what the storage effect writes is what the next load reads |
| Preferences.PreferencesState.constructor | contexts/PreferencesContext.tsx:15-37 | the loaded values with font size 16 and volume 50 as defaults, both stored back |
| Preferences.PreferencesState.SetFontSize | contexts/PreferencesContext.tsx:39-43 | the font size becomes the value clamped to 12..24 and is stored; a NaN argument stays NaN |
| Preferences.PreferencesState.SetVolume | contexts/PreferencesContext.tsx:45-48 | the volume becomes the value clamped to 0..100 and is stored; a NaN argument stays NaN |
| Onboarding.WrittenBirthDateIsValid | components/screens/Onboarding.tsx:218-226 | a date written from a year between 1900 and the current one passes the date check |
| Onboarding.IsNameValid | components/screens/Onboarding.tsx:216 | a name with a non-whitespace character, of at most 30 characters |
| Onboarding.IsBirthDateValid | components/screens/Onboarding.tsx:218-226 | a date whose year is from 1900 to the current year |
| Onboarding.IsPasswordValid | components/screens/Onboarding.tsx:229 | at least six characters |
| Onboarding.DoPasswordsMatch | components/screens/Onboarding.tsx:230 | equal and not empty |
| Onboarding.IsPhoneValid | components/screens/Onboarding.tsx:233-234 | at least ten digits in the typed number |
| Onboarding.IsFormValid | components/screens/Onboarding.tsx:236 | all six tests pass |
| Onboarding.FormattedPhone | components/screens/Onboarding.tsx:245-251 | the local number for "Otro", otherwise a number starting "+54 9 " |
| Onboarding.FormattedPhoneDigits | components/screens/Onboarding.tsx:233-251 | the stored number's digits are 549 followed by the digits that were validated |
| Onboarding.PhoneInput | components/screens/Onboarding.tsx:412-415 | the field keeps at most ten digits: the typed digits, or the old value |
| Onboarding.Registration.constructor | components/screens/Onboarding.tsx:212-213 | not loading, no error, nothing sent |
| Onboarding.Registration.Submit | components/screens/Onboarding.tsx:238-240 | an invalid form changes nothing; a valid one is signed up |
| Onboarding.Registration.SignUp | components/screens/Onboarding.tsx:242-309 | one sign-up request; an auth error or no user shows its message; a created user gets the profile row, the five local entries and the home screen |
| Profile.StoredOr | components/screens/Profile.tsx:11-13 | the stored text when non-empty, otherwise the fallback |
| Profile.DateErrorOf | components/screens/Profile.tsx:40-56 | no error for an empty date; an error exactly when the parsed year is outside 1900..current |
| Profile.DateErrorAgreesWithRegistration | components/screens/Profile.tsx:49-54 | for a date with a readable year the profile check agrees with the registration check |
| Profile.UnparseableYearRaisesNoError | components/screens/Profile.tsx:49-52 | a date with no readable year passes (NaN comparisons are false) |
| Profile.ProfileState.constructor | components/screens/Profile.tsx:11-26 | the stored values or the defaults, no error, both written back |
| Profile.ProfileState.SetName | components/screens/Profile.tsx:17-19 | the name changes and is stored |
| Profile.ProfileState.HandleDateChange | components/screens/Profile.tsx:40-56 | the date changes, its error is `DateErrorOf`, and the date is stored only without an error |
| Profile.InitialSafetyView | components/screens/Profile.tsx:427-444 | the two demo contacts and a closed, empty form |
| Profile.AddSafetyContact | components/screens/Profile.tsx:446-459 | with a name and phone that are not blank, one contact is appended and the form closes and clears; otherwise nothing changes |
| Profile.AddSafetyContactKeepsFilled | components/screens/Profile.tsx:446-459 | added contacts always have a non-blank name and phone |
| Profile.InsertAt | components/screens/Profile.tsx:638 | the element lands at the index, the rest keep their order |
| Profile.InitialSupportList | components/screens/Profile.tsx:604-641 | Ana, Luis, Pedro, Maria with ids 1 to 4, only Luis linked |
| Profile.DeleteSupportContact | components/screens/Profile.tsx:648-650 | exactly the contacts with other ids |
| Profile.AddSupportContact | components/screens/Profile.tsx:652-667 | with a name and role, one contact is appended and the form clears; otherwise nothing changes |
| Profile.AddThenDeleteSupportContact | components/screens/Profile.tsx:648-667 | deleting the fresh id of an added contact restores the list |
| Profile.Toggle | components/screens/Profile.tsx:865-867 | only the tasks with the id flip, each keeping its place, id and text |
| Profile.ToggleTwice | components/screens/Profile.tsx:884-890 | toggling twice restores the list |
| Profile.ToggleAbsent | components/screens/Profile.tsx:865-867 | toggling an absent id changes nothing |
| Profile.AddFamilyTask | components/screens/Profile.tsx:850-863 | a non-blank text appends one uncompleted task, with "Sin hora" when no time is given |
| Profile.AddTask | components/screens/Profile.tsx:892-910 | a non-blank text goes to today's or tomorrow's list by the chosen type |
| Profile.AddTaskGoesToOneList | components/screens/Profile.tsx:903-907 | an accepted task lands in at most one list, exactly one when a type is set |
| Health.RangeInput | components/screens/Health.tsx:306-316 | the field takes the typed text when it is empty or reads as 0..max, otherwise keeps its value |
| Health.RangeInputRefusesAboveBound | components/screens/Health.tsx:311-313 | a number above the bound is refused |
| Health.HeartRateStep | components/screens/Health.tsx:177 | each step lies in -2..2 |
| Health.EveryHeartRateStepReachable | components/screens/Health.tsx:177 | every step from -2 to 2 is drawn by some draw |
| Health.HealthRecord.constructor | components/screens/Health.tsx:144-152 | not scanning, not connected, rate 0, no record, a closed empty form |
| Health.HealthRecord.ConnectBluetooth | components/screens/Health.tsx:155-158 | scanning starts |
| Health.HealthRecord.ResolveScan | components/screens/Health.tsx:158-162 | connected at 72 beats per minute, scanning over |
| Health.HealthRecord.Disconnect | components/screens/Health.tsx:165-168 | disconnected, rate 0 |
| Health.HealthRecord.HeartRateTick | components/screens/Health.tsx:172-181 | while connected the rate moves by the drawn step |
| Health.HealthRecord.OpenForm | components/screens/Health.tsx:373 | the form opens |
| Health.HealthRecord.EditSystolic | components/screens/Health.tsx:306-316 | the systolic field through its 0..240 filter |
| Health.HealthRecord.EditDiastolic | components/screens/Health.tsx:332-342 | the diastolic field through its 0..200 filter |
| Health.HealthRecord.SaveRecord | components/screens/Health.tsx:186-194 | with both fields filled the record becomes "sys/dia" and the form clears; otherwise nothing changes |
| Health.HealthRecord.CancelAdd | components/screens/Health.tsx:196-200 | the form closes and clears, the record stays |
| Health.HealthRecord.DeleteRecord | components/screens/Health.tsx:202-204 | no record afterwards |
| Health.SavedRecordReadsBack | components/screens/Health.tsx:186-194 | the saved record reads back as the two numbers entered |
| SafeZone.PickCenter | components/screens/FamilyFeatures/SafeZoneScreen.tsx:120-135 | an existing zone only moves its centre; otherwise a new active zone of the default radius for the patient |
| SafeZone.CurrentCenter | components/screens/FamilyFeatures/SafeZoneScreen.tsx:79-84 | the zone's centre, or Buenos Aires without a zone |
| SafeZone.CenterFollowsPick | components/screens/FamilyFeatures/SafeZoneScreen.tsx:120-135 | the map shows the point just picked |
| SafeZone.ToggleActive | components/screens/FamilyFeatures/SafeZoneScreen.tsx:175-178 | only `active` flips; without a zone nothing happens |
| SafeZone.ToggleActiveTwice | components/screens/FamilyFeatures/SafeZoneScreen.tsx:175-178 | toggling twice restores the zone |
| SafeZone.SliderRadius | components/screens/FamilyFeatures/SafeZoneScreen.tsx:353-355 | each notch is a radius from 50 to 1000 in steps of 50 |
| SafeZone.SliderValuesAreNotches | components/screens/FamilyFeatures/SafeZoneScreen.tsx:353-355 | every slider value is one of the twenty notches |
| SafeZone.SetRadius | components/screens/FamilyFeatures/SafeZoneScreen.tsx:357-364 | only the radius changes |
| SafeZone.PayloadOf | components/screens/FamilyFeatures/SafeZoneScreen.tsx:151-158 | the zone's centre, radius and flag for the linked patient, owned by the signed-in caregiver |
| SafeZone.Editor.constructor | components/screens/FamilyFeatures/SafeZoneScreen.tsx:73-75 | the fetched zone, not saving |
| SafeZone.Editor.Pick | components/screens/FamilyFeatures/SafeZoneScreen.tsx:120-135 | reachable only with a non-empty patient id, as the map is not shown otherwise (line 188); the zone becomes `PickCenter` of the old one, centred on the click |
| SafeZone.Editor.Toggle | components/screens/FamilyFeatures/SafeZoneScreen.tsx:175-178 | the zone becomes `ToggleActive` of the old one |
| SafeZone.Editor.Slide | components/screens/FamilyFeatures/SafeZoneScreen.tsx:351-364 | the zone takes the notch's radius |
| SafeZone.Editor.BeginSave | components/screens/FamilyFeatures/SafeZoneScreen.tsx:138-140 | saving starts iff the patient id is present and non-empty and there is a zone; otherwise nothing changes |
| SafeZone.Editor.CompleteSave | components/screens/FamilyFeatures/SafeZoneScreen.tsx:141-172 | follows a started save (non-empty patient id and a zone); without a user no upsert; otherwise one upsert of the payload and the matching message; saving ends either way |
| Progress.InitialCategory | components/screens/ProgressScreen.tsx:23-33 | the lower-cased parameter selects memory, attention or calculation; anything else, or none, is all |
| Progress.CategoryNameRoundTrip | components/screens/ProgressScreen.tsx:23-33 | each category's own name, in any letter case, selects it |
| Progress.ShortCalculationIsAll | components/screens/ProgressScreen.tsx:25-33 | "calc" is not recognised and shows every category |
| Progress.RenderDashboard | components/screens/ProgressScreen.tsx:128-172 | loading first; a caregiver sees the linked patient's dashboard, or the no-patient view when the patient id is absent or empty; anyone else sees their own |
| Progress.NonCaregiverSeesOwnDashboard | components/screens/ProgressScreen.tsx:170-171 | a non-caregiver never sees another person's statistics |
| Music.EffectiveBirthYear | hooks/useMusicRecommendations.ts:63-66 | the year when present and not 0, otherwise 1950 |
| Music.StartDecade | hooks/useMusicRecommendations.ts:71 | a multiple of ten, the decade containing birth year + 10 |
| Music.Decades | hooks/useMusicRecommendations.ts:71-73 | the start decade and the next |
| Music.DecadeExamples | hooks/useMusicRecommendations.ts:68-73 | born 1950 gives the 1960s and 1970s, born 1948 the 1950s and 1960s |
| Music.BirthYearOf | hooks/useMusicRecommendations.ts:30-61 | anyone but a caregiver uses their own year; an unlinked caregiver has none; only a caregiver's lookups can fail |
| Music.UnlinkedCaregiverGetsDefault | hooks/useMusicRecommendations.ts:33-66 | an unlinked caregiver is shown the decades of 1950 |
| Music.Tagged | hooks/useMusicRecommendations.ts:79-84 | the songs in order, song i with id "arg-{decade}-{i}" |
| Music.ArgentineList | hooks/useMusicRecommendations.ts:77-86 | no decades, no songs; two decades are spelled out by `ArgentineListOfTwo` |
| Music.ArgentineListOfTwo | hooks/useMusicRecommendations.ts:77-86 | for two decades: the first decade's songs, then the second's |
| Music.BuildArgentineList | hooks/useMusicRecommendations.ts:77-86 | the `forEach` loop builds `ArgentineList` |
| Music.Recommendations.constructor | hooks/useMusicRecommendations.ts:20-22 | no songs, loading, no error |
| Music.Recommendations.Fetch | hooks/useMusicRecommendations.ts:24-124 | nothing signed out; otherwise the playable songs of the two decades for the region, or the failure's message |
| PatientGameStats.Insert | hooks/metrics/patient/usePatientGameStats.ts:62-64 | a new day placed in its ascending position |
| PatientGameStats.AccuracyByDay | hooks/metrics/patient/usePatientGameStats.ts:51-65 | one entry per day the rows mention, ascending, each with the day's summed hits and errors |
| PatientGameStats.AccuracyFromDictionary | hooks/metrics/patient/usePatientGameStats.ts:62-64 | the dictionary's values in ascending day order are the accuracy data |
| PatientGameStats.CompletionByDay | hooks/metrics/patient/usePatientGameStats.ts:68-81 | one entry per day, ascending, with the day's summed levels |
| PatientGameStats.CompletionFromDictionary | hooks/metrics/patient/usePatientGameStats.ts:78-80 | the dictionary's values in ascending day order are the completion data |
| PatientGameStats.SumOverDaysIsTotal | hooks/metrics/patient/usePatientGameStats.ts:52-60 | per-day sums over the distinct days add up to the total |
| PatientGameStats.AccuracyKeepsTotals | hooks/metrics/patient/usePatientGameStats.ts:51-65 | the aggregate's hits and errors add up to those of the rows |
| PatientGameStats.QueryRows | hooks/metrics/patient/usePatientGameStats.ts:22-35 | exactly the user's rows whose game type is in the category |
| PatientGameStats.Stats.constructor | hooks/metrics/patient/usePatientGameStats.ts:10-11 | no data, loading, no error |
| PatientGameStats.Stats.Fetch | hooks/metrics/patient/usePatientGameStats.ts:13-48 | nothing without a user; otherwise the query's rows, or the failure's message or the default |
| PatientGameStats.Stats.AccuracyData | hooks/metrics/patient/usePatientGameStats.ts:51-65 | the per-day accuracy of the current data |
| PatientGameStats.Stats.CompletionData | hooks/metrics/patient/usePatientGameStats.ts:68-81 | the per-day completion of the current data |
| CaregiverGameStats.OfCategory | hooks/metrics/caregiver/useCaregiverGameStats.ts:30-32 | exactly the rows of the category |
| CaregiverGameStats.QueryRows | hooks/metrics/caregiver/useCaregiverGameStats.ts:26-36 | the first rows of the category in view order: seven, or all of them when fewer |
| CaregiverGameStats.AccuracyOf | hooks/metrics/caregiver/useCaregiverGameStats.ts:53-59 | one point per row, in row order, nulls kept |
| CaregiverGameStats.CompletionOf | hooks/metrics/caregiver/useCaregiverGameStats.ts:62-67 | one point per row, in row order |
| CaregiverGameStats.ChartsFollowRowOrder | hooks/metrics/caregiver/useCaregiverGameStats.ts:40-67 | reversing the rows reverses the chart points |
| CaregiverGameStats.ReversedRowsAreNewestFirst | hooks/metrics/caregiver/useCaregiverGameStats.ts:40 | rows in ascending day order, reversed, are newest first |
| CaregiverGameStats.ShownRows | hooks/metrics/caregiver/useCaregiverGameStats.ts:34-40 | at most seven rows of the category, the query's page in reverse order |
| CaregiverGameStats.Stats.constructor | hooks/metrics/caregiver/useCaregiverGameStats.ts:10-11 | no data, loading, no error |
| CaregiverGameStats.Stats.Fetch | hooks/metrics/caregiver/useCaregiverGameStats.ts:13-50 | signed out: empty; otherwise the page reversed, or the failure with empty data |
| CaregiverGameStats.EarliestPageMissesNewest | hooks/metrics/caregiver/useCaregiverGameStats.ts:34-40 | with more than seven rows in the category the newest one is not shown |
| CaregiverGameStats.LatestWeekRows | hooks/metrics/caregiver/useCaregiverGameStats.ts:34-40 | a page of the same size as the query's, at most seven rows |
| CaregiverGameStats.LatestWeekKeepsNewest | hooks/metrics/caregiver/useCaregiverGameStats.ts:34-40 | the latest week holds the newest row, and every row it drops is older than all it keeps |
| TargetPatient.LowerRole | hooks/useEmotionalContacts.ts:22 | the role lower-cased, none when absent |
| TargetPatient.LinkedPatient | hooks/useEmotionalContacts.ts:26 | the patient id only when linked and non-empty |
| TargetPatient.ForRole | hooks/useEmotionalContacts.ts:24-27 | a caregiver's linked patient, the other value for any other role |
| TargetPatient.CaregiverRoleSpelling | hooks/useEmotionalContacts.ts:22-25 | letter case does not matter to the role test, surrounding spaces do |
| TrustedContacts.Target | hooks/useTrustedContacts.ts:23-26 | a caregiver's linked patient, a patient's own id, nobody for any other role |
| TrustedContacts.OfPatient | hooks/useTrustedContacts.ts:43-47 | exactly the patient's rows |
| TrustedContacts.AddCheck | hooks/useTrustedContacts.ts:64-71 | the first failing check in source order: read-only, five contacts, no patient, invalid e-mail |
| TrustedContacts.InsertFailureMessage | hooks/useTrustedContacts.ts:80-83 | code 23505 gives the duplicate-email message, any other error its own |
| TrustedContacts.Contacts.constructor | hooks/useTrustedContacts.ts:30-32 | no contacts, loading, no error |
| TrustedContacts.Contacts.Fetch | hooks/useTrustedContacts.ts:34-57 | without a target only loading ends; otherwise the patient's contacts or the failure |
| TrustedContacts.Contacts.AddContact | hooks/useTrustedContacts.ts:63-85 | a failed check or insert throws and changes nothing; otherwise exactly one row is inserted, and the list becomes the patient's rows, or stays as it was with the refetch error |
| TrustedContacts.Contacts.DeleteContact | hooks/useTrustedContacts.ts:87-93 | refused for caregivers, and a failed delete throws, both changing nothing; otherwise exactly the rows with the id leave the table, and the list is refetched as `Fetch` states |
| EmotionalContacts.Target | hooks/useEmotionalContacts.ts:24-27 | a caregiver's linked patient, otherwise the user's own id |
| EmotionalContacts.IsValidPhoneMatchesPattern | hooks/useEmotionalContacts.ts:70 | the phone test agrees with `^\+?[0-9\s-]{6,}$` in both directions |
| EmotionalContacts.IsValidPhone | hooks/useEmotionalContacts.ts:70 | an optional plus, then at least six digits, spaces or dashes |
| EmotionalContacts.AddCheck | hooks/useEmotionalContacts.ts:65-72 | silent for read-only or no target, refused at ten contacts or for an invalid phone, in source order |
| EmotionalContacts.Apply | hooks/useEmotionalContacts.ts:92 | the supplied fields replaced, the rest kept |
| EmotionalContacts.Updated | hooks/useEmotionalContacts.ts:92 | only the rows with the id change, by `Apply` |
| EmotionalContacts.EmptyPhoneUpdateIsWritten | hooks/useEmotionalContacts.ts:88-92 | an update with an empty phone skips the check and writes the empty phone |
| EmotionalContacts.OfUser | hooks/useEmotionalContacts.ts:44-48 | exactly the user's rows |
| EmotionalContacts.Contacts.constructor | hooks/useEmotionalContacts.ts:31-33 | no contacts, loading, no error |
| EmotionalContacts.Contacts.Fetch | hooks/useEmotionalContacts.ts:35-58 | without a target only loading ends; otherwise the user's contacts or the failure |
| EmotionalContacts.Contacts.AddContact | hooks/useEmotionalContacts.ts:64-83 | silent for a caregiver or without a target, else the checks; a throw changes nothing; otherwise one row inserted, and the list becomes the user's rows, or stays with the refetch error |
| EmotionalContacts.Contacts.UpdateContact | hooks/useEmotionalContacts.ts:85-95 | silent for a caregiver; a malformed non-empty phone or a failed update throws and changes nothing; otherwise the table becomes `Updated` and the list is refetched as `Fetch` states |
| EmotionalContacts.Contacts.DeleteContact | hooks/useEmotionalContacts.ts:97-103 | silent for a caregiver; a failed delete throws and changes nothing; otherwise exactly the rows with the id go and the list is refetched as `Fetch` states |
| StoryAlbums.Target | hooks/useStoryAlbums.ts:24-27 | a caregiver's linked patient, otherwise the user's own id |
| StoryAlbums.CanEdit | hooks/useStoryAlbums.ts:90 | true iff there is a non-empty target |
| StoryAlbums.CaregiverEditsOnlyWhenLinked | hooks/useStoryAlbums.ts:24-27 | a caregiver can edit iff linked to a patient |
| StoryAlbums.NewestFirst | hooks/useStoryAlbums.ts:42-46 | exactly the patient's albums, the table's rows of the patient read from the last to the first (later-created first) |
| StoryAlbums.LaterAlbumComesFirst | hooks/useStoryAlbums.ts:46 | of two albums of the patient, the later-created one is listed before the earlier one |
| StoryAlbums.Albums.constructor | hooks/useStoryAlbums.ts:29-31 | no albums, loading, no error |
| StoryAlbums.Albums.Fetch | hooks/useStoryAlbums.ts:33-56 | without a target only loading ends; otherwise the target's albums newest first, or the failure |
| StoryAlbums.Albums.CreateAlbum | hooks/useStoryAlbums.ts:62-75 | silent without a target, refused at twenty, a failed insert throws, each changing nothing; otherwise one album inserted and the list becomes `NewestFirst` with it first, or stays with the refetch error |
| StoryAlbums.Albums.DeleteAlbum | hooks/useStoryAlbums.ts:77-81 | a failed delete throws and changes nothing; otherwise exactly the albums with the id leave the table, and the list becomes `NewestFirst` of the rest, or stays with the refetch error |
| StoryPhotos.Target | hooks/useStoryPhotos.ts:28-33 | a caregiver's linked patient, otherwise the user's own id |
| StoryPhotos.UploadCheck | hooks/useStoryPhotos.ts:88-92 | no message iff all checks pass; otherwise the first failing one in source order: album, count 50, size 5 MB, type |
| StoryPhotos.Extension | hooks/useStoryPhotos.ts:97 | the text after the last dot, lower-cased; the whole name without a dot; "jpg" only when that is empty |
| StoryPhotos.ExtensionOfDottedName | hooks/useStoryPhotos.ts:97 | `base.ext` has the extension `ext` lower-cased |
| StoryPhotos.StoragePath | hooks/useStoryPhotos.ts:97-99 | `{target}/{album}/{uuid}.{ext}` |
| StoryPhotos.WithSignedUrls | hooks/useStoryPhotos.ts:49-72 | every photo of the album, each with the signed URL of its own path; entry `k` is the album's row `n-1-k` in table order, so later-created first |
| StoryPhotos.ListedPhotosAreSignedRows | hooks/useStoryPhotos.ts:49-72 | every listed photo is a row of the table in the album, with only its signed URL filled in |
| StoryPhotos.LaterPhotoComesFirst | hooks/useStoryPhotos.ts:54 | of two photos of the album, the later-created one is listed before the earlier one |
| StoryPhotos.Photos.constructor | hooks/useStoryPhotos.ts:35-38 | no photos, loading, not uploading, no error |
| StoryPhotos.Photos.Fetch | hooks/useStoryPhotos.ts:40-81 | without album or target only loading ends; otherwise the album's photos with URLs, or the failure |
| StoryPhotos.Photos.UploadPhoto | hooks/useStoryPhotos.ts:87-126 | a failed check throws before anything; otherwise the file is stored, then the row inserted; a failed insert leaves the file stored; on success the list becomes `WithSignedUrls` and holds the new photo, or stays with the refetch error; uploading ends on every path |
| StoryPhotos.Photos.DeletePhoto | hooks/useStoryPhotos.ts:128-146 | the file leaves storage first, and a storage failure stops there; a failed row delete throws; otherwise the rows with the id go and the list is refetched as `Fetch` states |
| Tasks.Target | hooks/useTasks.ts:25-28 | a caregiver's linked patient, otherwise the user's own id |
| Tasks.OrderKey | hooks/useTasks.ts:54-56 | today's keys are below tomorrow's |
| Tasks.QueryTasks | hooks/useTasks.ts:50-56 | exactly the target's tasks of today and tomorrow, sorted by day and time |
| Tasks.QueryOrder | hooks/useTasks.ts:55-56 | today before tomorrow; within a day timed before untimed, earlier before later |
| Tasks.CompletionStamp | hooks/useTasks.ts:96-97 | a timestamp iff completed, and then the clock's |
| Tasks.SetCompletion | hooks/useTasks.ts:106-108 | only the tasks with the id take the new flag and stamp |
| Tasks.ToggleKeepsStampsAgreeing | hooks/useTasks.ts:95-108 | a toggle keeps every task's flag and stamp in agreement |
| Tasks.ToggleTwiceRestoresFlags | hooks/useTasks.ts:95-108 | toggling on and off restores an uncompleted task |
| Tasks.TaskList.constructor | hooks/useTasks.ts:30-32 | no tasks, loading, no error |
| Tasks.TaskList.Fetch | hooks/useTasks.ts:34-66 | without a target the list empties; otherwise `QueryTasks`, or the failure |
| Tasks.TaskList.CreateTask | hooks/useTasks.ts:72-93 | refused without target or user, and a failed insert throws, each changing nothing; otherwise one uncompleted task inserted and the list becomes `QueryTasks`, or stays with the refetch error |
| Tasks.TaskList.ToggleTask | hooks/useTasks.ts:95-109 | on success the table and the list both take `SetCompletion`; on failure nothing changes |
| Tasks.TaskList.DeleteTask | hooks/useTasks.ts:111-115 | a failed delete throws and changes nothing; otherwise exactly the tasks with the id leave the table, and the list becomes `QueryTasks` of the rest, empty without a target, or stays with the refetch error |
| BloodPressure.EffectivePatient | hooks/health/useBloodPressureRecords.ts:23 | the given patient when non-empty, otherwise the signed-in user |
| BloodPressure.ErrorText | hooks/health/useBloodPressureRecords.ts:41 | the failure's own message, or the default when it is empty |
| BloodPressure.NewRecord | hooks/health/useBloodPressureRecords.ts:61-65 | always for the signed-in user, measured now unless a time is given |
| BloodPressure.NewestFirst | hooks/health/useBloodPressureRecords.ts:31-35 | exactly the patient's records, newest measurement first |
| BloodPressure.Records.constructor | hooks/health/useBloodPressureRecords.ts:18-20 | no records, loading, no error |
| BloodPressure.Records.Fetch | hooks/health/useBloodPressureRecords.ts:25-45 | nothing without a patient; otherwise `NewestFirst`, or the failure's text |
| BloodPressure.Records.AddRecord | hooks/health/useBloodPressureRecords.ts:47-76 | refused unless the role is exactly "patient" and a user is signed in, changing nothing; a failed insert sets the error and rethrows; otherwise one record appended and the list becomes `NewestFirst` for the hook's patient, or keeps its records with the refetch error text |
| BloodPressure.Records.DeleteRecord | hooks/health/useBloodPressureRecords.ts:78-97 | refused for non-patients; on success exactly the records with the id leave the table and the list |
| BloodPressure.DeleteKeepsOthers | hooks/health/useBloodPressureRecords.ts:89 | deleting keeps every other record; an absent id changes nothing |
| BloodPressure.RoleMustMatchExactly | hooks/health/useBloodPressureRecords.ts:22 | "Patient" is not a patient's role, "patient" is |
| MetricCards.FormattedTime | components/metrics/AvgSessionTimeCard.tsx:7-11 | for a non-negative time, the minutes, "m ", the seconds, "s" |
| MetricCards.MinutesAndSeconds | components/metrics/AvgSessionTimeCard.tsx:8-9 | the seconds are below 60 and minutes × 60 + seconds is the time |
| MetricCards.FormattedTimeParts | components/metrics/AvgSessionTimeCard.tsx:7-11 | the text before the "m" is the minutes, the text between the space and the final "s" the seconds |
| MetricCards.FormattedTimeInjective | components/metrics/AvgSessionTimeCard.tsx:7-11 | different times are written differently |
| MetricCards.AvgSessionCard | components/metrics/AvgSessionTimeCard.tsx:13-38 | hidden iff there is an error, the placeholder while loading, otherwise the formatted time |
| MetricCards.AbsChange | components/metrics/cards/WeeklyTrendCard.tsx:19 | the change's size: non-negative and equal to the change or its opposite |
| MetricCards.TrendMessage | components/metrics/cards/WeeklyTrendCard.tsx:42-50 | one message per reader and direction |
| MetricCards.TrendMessageIdentifiesCase | components/metrics/cards/WeeklyTrendCard.tsx:42-50 | the four messages differ, so a message tells reader and direction |
| MetricCards.WeeklyTrendCard | components/metrics/cards/WeeklyTrendCard.tsx:11-50 | the skeleton iff loading, the no-data text iff no trend, otherwise direction, size and message |
| MetricCards.TrendCardKeepsChange | components/metrics/cards/WeeklyTrendCard.tsx:18-19 | direction and size give back the change; a missing change reads as zero upward |

## Left out

- CheckGeofence.Handle: the `SendAlertEmail` effect records that `sendAlertEmail` was called, not that mail was delivered. That function sends nothing without `RESEND_API_KEY` or a caregiver address, and ignores a failed Resend reply; the handler still stamps `last_alert_sent_at` and answers `email_sent: true`.
- Haversine distance: `check-geofence-and-notify` receives the distance as a parameter.
- SHA-256: modelled as a hash-function parameter.
- Timers and their intervals, audio, maps, charts, images and the PDF export.
- The network, the clock and `Math.random()`: modelled as parameters.
- Thread scheduling on Android: the receiver's background thread is a separate completion step.
- Row-level security policies of the database.
- `.single()` with several matching rows: modelled as "no row", the same as no match.
- JavaScript string lengths: modelled in characters, not UTF-16 units.
- `toLowerCase`: modelled on ASCII only.
- `toFixed`: modelled as rounding to a decimal.
- A random `sort` comparator: modelled as an order parameter.
- Equal sort keys in database queries: they keep table order.
- StoryAlbums/StoryPhotos: `created_at` order is modelled as the table's insertion order, so newest first is that order reversed.
- Java `float` narrowing: kept symbolic.
- useTrustedContacts.sendSOS is not part of this model; the `send-sos` function it calls is modelled separately.
- `crypto.randomUUID()` and the storage URL signer: modelled as parameters.
- `err.message`: modelled as a string.
- Health: the sanitising of the number input beyond the range filter.
- SafeZone: the fetch effect is not modelled. The slider is modelled by its notches.
- Profile: contact pictures are not modelled.
- Game statistics: days are day numbers, and the view is given in day order.
- Tasks: times are seconds since midnight, and today and tomorrow are parameters.
- BloodPressure: `measured_at` ISO strings are modelled as instants.
- Music.Recommendations.Fetch: the birth year and the database rows are parameters. The song table (utils/argentineMusicData.ts) is modelled as constants; nothing is proved about its contents.
- MetricCards: a fractional average of seconds is not modelled, and rendering is reduced to which state shows.

## Findings

| source | as written | input that shows it | evidently intended | confidence | as-written member | corrected member |
|---|---|---|---|---|---|---|
| components/games/calculation/CalcSequenceEasyScreen.tsx:358 | the abandonment accuracy divides hits by `min(currentIndex, 10)`, but during feedback the hits already count the answer on screen | leave during the feedback of question 2 after two right answers: hits 2, index 1, accuracy 200 | the percentage counts every answered question and never exceeds 100 | not executed | CalcSequence.AbandonedAccuracyExceedsHundred | CalcSequence.CorrectedAbandonedAccuracy |
| components/games/memory/MemorySequenceEasyScreen.tsx:80 | the best level subtracts one only while the wrong-press feedback shows, after the sequence length was already recorded | a first two-colour round answered wrong at once stores best level 2 | the best level counts the rounds won plus one (1 here) | not executed | MemorySequence.Game.LostGameOverstatesBestLevel | MemorySequence.IntendedBestLevelCountsRoundsWon |
| hooks/metrics/caregiver/useCaregiverGameStats.ts:34-40 | the query orders by day ascending and takes the first seven rows, so it shows the earliest week | eight days of rows in the category: the eighth, newest day is not shown | the latest seven days, newest included | not executed | CaregiverGameStats.EarliestPageMissesNewest | CaregiverGameStats.LatestWeekKeepsNewest |
