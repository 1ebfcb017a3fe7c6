# Dog-care chat bot: session state machine, profile store and nutrition calculator

This project models the core of a LINE chat bot for dog owners, together with
its companion web forms.

- **Chat sessions.** Each user has at most one open *step* in the in-memory
  session table. A text message is stripped first. `退出` ends any session. A
  user with a session gets that step's transition. An idle user gets the
  command routing. An image message serves the two photo steps.
- **Profile store.** Each owner has one SQLite database with a `dogs` table
  keyed by name and a `daily_records` table keyed by `(name, date)`.
- **Web forms.** The chat, and the create, edit, delete and daily-intake forms,
  read and write that database.
- **Nutrition calculator.** It computes the resting energy requirement (RER),
  the daily energy requirement (DER) interval and the water interval.

Everything is a pure function over immutable values:

- `Session.Step` is the closed datatype of steps, including the data each one
  caches.
- `Bot.World` pairs the session table `map<UserId, Step>` with one
  `ProfileStore.Db` per user. `Bot.HandleText` and `Bot.HandleImage` return
  the next world and the reply.
- What the code only consults is a field of `Environment.Env`, so every
  property of one event holds for every choice of it. `Bot.Run` takes a
  separate `Env` for each event, so the clock and the searches may change
  between events. The run invariant on birthdays also requires that the
  date parser stay the same. The collaborators are:
  - Python's `float()` and `strptime`;
  - the clock ("today" and the days since a birthday);
  - the real power `w ** 0.75`;
  - the breed table;
  - the place search;
  - `str.title()`;
  - the public base URL.
- `str.strip()`, `str.split` and `str.replace(pat, '')` are written out over
  `seq<char>`, using Python's whitespace set.
- `int()` on a float is written out as truncation toward zero. `days // 365` is
  floor division, which is what Dafny's `/` computes for a positive divisor.

Modules:

- `Wrappers`: `Option` and `Result`.
- `Text`: the string operations.
- `Environment`: the abstract collaborators.
- `DailyCalories`: the calculator.
- `ProfileStore`: the two tables and their writes.
- `WebForms`: the store logic of the forms.
- `Messages`: every reply text, as a datatype of messages with their wording.
- `ChatParsing`: the multi-line message format.
- `Session`: the per-user transitions.
- `Bot`: all users, and runs of events.
- `Scenarios`: properties spanning several turns.

Behaviour of the code worth knowing:

- **Invalid Y/N answer.** An answer other than Y or N at either confirmation
  step replies "請輸入 Y 或 N" and still deletes the session; it does not
  re-prompt (`Session.SaveConfirmationTurn`, `Session.RecordConfirmationTurn`).
- **Chat records overwrite.** Confirming a chat daily record overwrites today's
  record (`INSERT OR REPLACE`), while the web form adds to it
  (`Scenarios.ChatRecordOverwrites`, `Scenarios.WebIntakeAccumulates`).
- **RER has no guard.** Nothing rejects a weight of zero or less, so such a pet
  still gets targets (`Scenarios.NonPositiveWeightAnswered`).
- **Rename keeps the old row.** Renaming a pet in the edit form writes a new row
  and relabels the records, but leaves the old pet row in place
  (`Scenarios.RenameKeepsOldName`).
- **Pet-info steps are unreachable.** No idle command opens
  `awaiting_dog_info` or `awaiting_dog_name`, and nothing else opens
  `awaiting_save_confirmation`. In every world the chat can reach, the chat
  therefore never changes a pet (`Bot.RunKeepsReachable`,
  `Bot.ChatNeverWritesPets`).
- **Text during a photo step.** A text message while a photo is expected
  matches no branch: there is no reply and nothing changes.
- **Rename conflict.** Foreign keys are not enforced, so records can exist
  under a name with no pet row. A rename onto such a name can then hit the
  `(name, date)` key. The `UPDATE` aborts after the new pet row was committed;
  this is `WebForms.FormOutcome.Crashed`.
- **Unknown status name.** A form status outside the 13 names makes
  `statuses.index` raise after the commit; this is also `Crashed`.
- **Negative weight in a form.** For a negative weight `weight ** 0.75` is a
  complex number, and `round(rer, 2)` then raises a `TypeError` after the
  commit. The create and edit forms end in `Crashed` with the row written
  (`WebForms.RealPower`).
- **Large daily records.** A chat record whose truncated value lies outside
  SQLite's 64-bit integers makes the save raise outside any `try`: nothing is
  sent and the confirmation step stays open. In the intake form such a total
  raises an `OverflowError` that `except ValueError` does not catch. Values
  that fit are kept in `REAL` columns, so above 2^53 they come back as the
  nearest double (`ProfileStore.SaveDailyRecord`,
  `Scenarios.LargeRecordRounded`).
- **A place search that raises.** The two place searches run outside any
  `try` and before the session entry is deleted. A search that raises sends
  no reply and leaves the restaurant step open
  (`Session.RestaurantChoiceTurn`, `Session.LandmarkTurn`).

## Model

| member | source | states |
|---|---|---|
| Text.Lead | app.py:290 | the count covers exactly the maximal run of leading whitespace |
| Text.Trail | app.py:290 | the count covers exactly the maximal run of trailing whitespace |
| Text.Strip | app.py:290 | the result has no leading or trailing whitespace (Python's full `isspace` set); it is the infix of the input starting after the leading whitespace, and everything cut on either side is whitespace; an already stripped text is returned unchanged |
| Text.StripIdempotent | app.py:290 | stripping twice is stripping once |
| Text.StripPadded | app.py:324-326 | surrounding a stripped text with any whitespace and stripping gives the text back |
| Text.Split | app.py:323-326 | splitting on one character yields at least one part, no part contains the separator, and joining the parts with it restores the input |
| Text.SplitJoin | app.py:323-326 | splitting a join of separator-free parts recovers exactly those parts |
| Text.RemoveAll | app.py:326 | removing every occurrence of a pattern shortens the text exactly when the pattern occurs, and otherwise leaves it unchanged |
| Text.RemoveAllLeftmost | app.py:326 | occurrences are removed leftmost first without overlap: a prefix in which no occurrence starts is kept, the occurrence after it is removed, and removal resumes behind that occurrence |
| Text.RemoveAllSuffix | app.py:326 | a unit suffix written after a value that does not contain the unit's first character is removed, leaving the value |
| ChatParsing.Field | app.py:324 | a line has a field exactly when it contains the full-width colon; the field is stripped and colon-free |
| ChatParsing.Lines | app.py:323 | the lines of a message are at least one and newline-free, and joined with newlines they give the message back |
| ChatParsing.ThreeLines | app.py:323 | three newline-free lines joined by newlines split back into those three lines |
| ChatParsing.FieldOfLabelled | app.py:324 | the field of `key：value…` is the stripped value up to the next colon, whatever the key |
| ChatParsing.ParsePetInfo | app.py:321-336 | a pet-info message parses exactly when it has at least three lines, the first three each with a colon, a weight `float()` accepts after removing `公斤`, and a valid birthday; the pet is then the fields of the first three lines, with the weight converted |
| ChatParsing.PetInfoRoundTrip | app.py:321-334 | a three-line message written from plain fields parses back to exactly those name, birthday and weight |
| ChatParsing.ParseNutritionRequest | app.py:371-373 | a nutrition request parses exactly when its first two lines carry a colon, and then to the fields of those two lines |
| ChatParsing.TwoLines | app.py:371 | two newline-free lines joined by a newline split back into those two lines |
| ChatParsing.NutritionRoundTrip | app.py:371-373 | a two-line request written from plain fields parses back to exactly that name and status code |
| ChatParsing.ParseDailyRecord | app.py:406-417 | a daily record parses exactly when it has at least three lines, the first three with colons, and both amounts are accepted by `float()` after removing `卡路里` and `毫升`; the record is then the first line's field with the two converted amounts |
| ChatParsing.DailyRecordRoundTrip | app.py:406-415 | a record message written from plain fields parses back to exactly that name, calories and water |
| DailyCalories.GetAfForStatus | daily_calories.py:36-59 | each code `"k"` (1..13) yields the k-th tabulated pair, any other key yields (1.6, 1.8), and every result is an ordered interval in [1.0, 3.0] |
| DailyCalories.KnownCodesAreExactlyTheKeys | app.py:374 | the chat's accepted status strings are exactly the keys of the factor dictionary |
| DailyCalories.DefaultFactor | daily_calories.py:59 | "0", "14", "abc" and "" fall back to (1.6, 1.8) instead of failing |
| DailyCalories.TableOrdered | daily_calories.py:44-58 | every tabulated pair satisfies 1.0 <= min <= max <= 3.0 |
| DailyCalories.CalculateRER | daily_calories.py:3-11 | the RER is non-negative exactly when the power term is; no weight is rejected |
| DailyCalories.CalculateDER | daily_calories.py:13-22 | a factor of at least 1 never lowers a non-negative RER, and a factor of at most 1 never raises it |
| DailyCalories.FactorsScale | daily_calories.py:13-22 | a non-negative RER scaled by the ends of an ordered factor interval gives RER <= DER min <= DER max <= 3 RER |
| DailyCalories.DerRangeOrdered | daily_calories.py:22 | for a non-negative RER the DER interval of any status is ordered |
| DailyCalories.DerLinear | daily_calories.py:22 | the DER is linear in the RER and in the factor |
| DailyCalories.CalculateWaterIntake | daily_calories.py:24-34 | the water interval is ordered for a non-negative weight, its ends are in ratio 5:6, and it is positive or zero exactly when the weight is |
| DailyCalories.WaterLinear | daily_calories.py:32-33 | both ends of the water interval are linear in the weight, so with the value at ten kilograms they are 50 and 60 ml per kilogram |
| DailyCalories.WaterAtTenKilograms | daily_calories.py:32-34 | ten kilograms need 500 to 600 ml |
| DailyCalories.ComputeTargets | app.py:380-384 | for a non-negative power term, 0 <= RER <= DER min <= DER max <= 3 RER; the water interval is ordered for a non-negative weight |
| ProfileStore.Trunc | app.py:234-235 | `int()` on a float truncates toward zero |
| ProfileStore.SavePet | app.py:222-229 | insert-or-replace: the pet is stored under its name, every other pet and every record is unchanged |
| ProfileStore.InsertPet | app.py:819-824 | a plain insert fails exactly when the name exists, and otherwise adds only that pet |
| ProfileStore.DeletePet | app.py:1013-1015 | the pet and exactly the records under its name are removed, everything else kept |
| ProfileStore.RelabelRecords | app.py:903 | the relabelling aborts exactly when both names have a record on the same date; otherwise every record of the old name moves to the new one with its values and all others stay |
| ProfileStore.Spacing | app.py:168-169 | the gap between neighbouring doubles is 1 below 2^53 and, above, lies between the magnitude over 2^53 and the magnitude over 2^52 |
| ProfileStore.NearestMagnitude | app.py:168-169 | the kept value is a multiple of the gap, within half a gap of the integer, even in units of the gap on a tie, and exact when the integer is already a multiple |
| ProfileStore.NearestDouble | app.py:168-169 | integers of magnitude at most 2^53 are kept exactly; others move by at most half a gap, keeping their sign |
| ProfileStore.SaveDailyRecord | app.py:232-242 | the save fails exactly when a truncated value lies outside SQLite's 64-bit integers; otherwise the record for the name and date becomes the nearest doubles of the truncated values, replacing any earlier one; pets and other records are unchanged |
| ProfileStore.GetDailyRecord | app.py:245-256 | a record is found exactly when one is stored for the name and date, and it is the stored one |
| ProfileStore.AgeInYears | app.py:204 | the age is the whole number of 365-day years in the elapsed days |
| ProfileStore.GetDogData | app.py:194-206 | a pet is found exactly when its name is stored, with the stored fields and its age |
| WebForms.StatusIndex | app.py:827 | the index is the first position of the status name, and is absent exactly when the name is not one of the 13 |
| WebForms.CreateDogProfile | app.py:799-842 | a request is rejected exactly when a field is empty, the weight or date does not parse, or the name exists; the error is the missing-field one exactly when a field is empty, the weight-or-date one exactly when all are filled but one does not parse, and the name-taken one otherwise; an accepted one adds only the new pet; it shows targets exactly when the status name is one of the 13 and the weight is non-negative, and those targets are computed from the weight and the status name's first position; otherwise it crashes after the commit; valid birthdays stay valid |
| WebForms.EditDogProfile | app.py:848-905 | an edit is rejected for an unknown pet, an empty field, a bad weight or date, or a rename onto an existing pet, in that order, and each of the four errors is reported exactly when its check is the first to fail; otherwise it performs the writes of WriteEdit |
| WebForms.EditWrites | app.py:895-905 | the new row is written and the old row kept; on a rename every record moves to the new name with its values and other records stay, unless a date conflicts, which leaves the records untouched; valid birthdays stay valid |
| WebForms.WriteEdit | app.py:895-922 | an accepted edit performs the writes of EditWrites; it shows targets exactly when there is no rename conflict, the status name is one of the 13 and the weight is non-negative, and those targets are computed from the weight and the status name's first position; otherwise it crashes after the writes |
| WebForms.Amount | app.py:1088-1089 | an empty field counts as 0; otherwise the truncated `float()` value, absent exactly when `float()` raises |
| WebForms.Accumulate | app.py:1084-1096 | the write fails exactly when a new total lies outside SQLite's 64-bit integers; otherwise today's stored totals become the earlier totals (or zero) plus the amounts, as doubles keep them; other records and the pets are unchanged |
| WebForms.RecordDailyIntake | app.py:1036-1101 | no pets redirects, two empty fields save nothing, a non-numeric field saves nothing; otherwise the totals grow by the amounts, or the request fails with nothing written when a total lies outside SQLite's 64-bit integers |
| Session.DogInfoTurn | app.py:321-337 | a well-formed pet message moves to confirmation carrying its fields and the age; anything else re-prompts and keeps the step; nothing is written |
| Session.SaveConfirmationTurn | app.py:340-350 | `Y`/`y` stores the pet with no breed and no status, replacing a namesake; `N` and any other answer store nothing; the session ends in all three cases |
| Session.DogNameTurn | app.py:353-366 | the profile is shown exactly when the name is stored, with every stored field and the age in whole years, and with breed and status only when both are non-empty; otherwise the not-found reply |
| Session.NutritionInfoTurn | app.py:369-397 | a malformed request keeps the step; otherwise the session ends with a range error, a not-found reply or the targets; nothing is written |
| Session.NutritionAnswer | app.py:374-392 | a status outside "1".."13" is a range error, an unknown name is not found, and otherwise the targets come from the stored weight and the status |
| Session.BreedNameTurn | app.py:259-272 | the breed's text, or the not-found text, and the session ends |
| Session.DailyRecordTurn | app.py:406-418 | a well-formed record moves to confirmation carrying its values; anything else re-prompts and keeps the step |
| Session.RecordConfirmationTurn | app.py:421-431 | `Y`/`y` overwrites today's record with the truncated values as stored and ends the session, unless a value does not fit SQLite's integers, which sends nothing and keeps the step; any other answer writes nothing and ends the session |
| Session.RecordCheckTurn | app.py:434-444 | today's record is shown exactly when it exists |
| Session.LabelValue | app.py:453-458 | a missing label key reads as zero |
| Session.Scaled | app.py:452-453 | the scaled energy times 1000 is the label energy times the grams |
| Session.Feeding | app.py:451-458 | the report exists exactly when every label value converts; its energy is the label energy scaled by grams per 1000, and its protein, fat, fiber, carbohydrate and water are the label values |
| Session.FeedingWeightTurn | app.py:447-468 | a valid gram amount gives the report with the scaled energy and the label percentages, anything else the gram error; the session ends |
| Session.RestaurantChoiceTurn | app.py:471-499 | `目前位置` sends the search reply and ends the session, unless the search raises, which sends nothing and keeps the step; `輸入地標名稱` asks for a landmark; anything else re-prompts and keeps the step |
| Session.LandmarkTurn | app.py:502-523 | the search reply for the landmark and the session ends, unless the search raises, which sends nothing and keeps the step |
| Session.StepTurn | app.py:317-526 | each step runs its own transition; text during a photo step gets no reply and changes nothing |
| Session.StepTurnKeeps | app.py:317-526 | only a `Y` at a confirmation step writes, and only the pet confirmation changes pets; valid birthdays stay valid; a step reachable from idle leads only to such steps |
| Session.IdleTurn | app.py:529-610 | a session opens exactly for the eight entry commands, each with its step and prompt; the three form commands answer with their links for the user and `1` with the toxic-food list; any other text gets the welcome message; nothing is written |
| Session.Foods | app.py:663-669 | the reported foods are exactly the stripped, title-cased non-empty labels |
| Session.ImageTurn | app.py:614-707 | a failed fetch keeps the step; a package photo with a non-empty extraction moves to the gram question, an empty one or a failed extraction keeps the step with its own reply; a fresh-food photo ends the session with the detected foods, the no-food reply or the error reply; any other step gets no reply |
| Bot.Resume | app.py:334 | the user's entry is the next step, or removed when there is none; other users' entries are kept |
| Bot.UserTurn | app.py:307-526 | `退出` ends the session with the welcome reply and no write, before any step logic; otherwise a user with a session gets the transition of their step, and an idle user the routing of IdleTurn |
| Bot.Commit | app.py:140-175 | the user's step and database are written back and their database exists afterwards; no other user changes |
| Bot.HandleText | app.py:289-610 | exit priority; a user with a session gets the step's transition on the stripped text and an idle user the routing; no other user touched; writes only after a `Y` at a confirmation step; reachability and valid birthdays are preserved |
| Bot.HandleImage | app.py:614-707 | an image never writes and touches no other user; the user's new step and the reply are those of ImageTurn for the user's step, so a package photo with labels opens the gram question and a fresh-food photo always ends the session; only these two steps change |
| Bot.Deliver | app.py:288-614 | a text event is handled by HandleText and an image event by HandleImage; one event touches only its own user and preserves both invariants |
| Bot.InitialInvariants | app.py:95 | the empty session table satisfies both invariants |
| Bot.RunKeepsReachable | app.py:529-607 | no run of events opens the pet-info steps in a world that has none open, whatever environment each event sees |
| Bot.ValidAcross | app.py:327 | the birthday invariant depends only on which dates parse |
| Bot.RunKeepsValid | app.py:327 | every stored and cached birthday stays a valid date over any run whose events all use the same date parser, while the clock and the searches may change |
| Bot.ChatNeverWritesPets | app.py:340-350 | in a reachable world, no run of chat events changes any user's pets |
| Bot.RunIsolatesUsers | app.py:95 | events of other users never change a user's session or database |
| Scenarios.PetInfoThenYes | app.py:321-350 | a plain pet message followed by `Y` stores exactly that pet with no breed and no status |
| Scenarios.DailyRecordThenYes | app.py:406-431 | a plain record message followed by `Y` stores the truncated values under today's date, or keeps the step silently when one does not fit SQLite's integers |
| Scenarios.DailyRecordThroughChat | app.py:289-565 | through the text handler from an idle user, `66666`, a record message that parses, and `Y` open the step, cache the record, and store it and close the session |
| Scenarios.RecordMessageAccepted | app.py:406-415 | a record message written from plain fields is unchanged by `strip()`, is not the exit command, and parses to its fields |
| Scenarios.RecordAsked | app.py:406-418 | in the record step a message that parses is cached and echoed |
| Scenarios.RecordConfirmed | app.py:421-431 | from any world, in the confirmation step `Y` stores the cached record and closes the session when its values fit |
| Scenarios.ChatRecordOverwrites | app.py:421-431 | confirming 100/200 and then 50/80 on one day leaves 50/80 |
| Scenarios.LargeRecordRounded | app.py:168-169 | a chat record of 2^53 + 1 calories reads back as 2^53 |
| Scenarios.WebIntakeAccumulates | app.py:1084-1096 | entering 100/200 and then 50/80 on a fresh day leaves 150/280 |
| Scenarios.SavedPetTargets | app.py:377-384 | a pet saved from the chat gets, for status "3", DER = RER × (1.4, 1.6) from its saved weight |
| Scenarios.SavedPetProfile | app.py:361-362 | a pet saved from the chat shows neither breed nor status |
| Scenarios.UnknownStatusRejected | app.py:374-375 | the status codes "99" and "0" get the range error even for a known dog |
| Scenarios.NonPositiveWeightAnswered | daily_calories.py:11 | a stored weight of zero or less still yields targets |
| Scenarios.ExitThenCommand | app.py:307-314 | after `退出` the next message is routed as an idle command |
| Scenarios.RenameKeepsOldName | app.py:896-905 | a rename that gets past the checks keeps a pet row under the old name |

## Left out

- LINE transport is not modelled: webhook signatures, reply tokens, quick-reply buttons, the rich-menu setup, and the ngrok URL polling thread. Each is I/O or concurrency. Replies are values; the public URL is `Env.baseUrl`.
- Flask request handling and template rendering are not modelled. The forms are functions from the owner's database to an outcome, and a missing `user_id` (the 400 reply) is not modelled.
- SQLite connections, the `PRAGMA`/`ALTER TABLE` migration in `init_db`, and transactions are abstracted. The tables are maps, and `init_db` is the creation of an empty database.
- The form's `dog_name` field being absent is not modelled; the name is always a string.
- Label extraction (Google Vision OCR), food detection (YOLO), the place searches and the breed CSV are not modelled. Each is an abstract input: `ImageInput` for the first two, and an `Env` field for the last two.
- The text of the restaurant search replies is not modelled. It is `Env.currentLocationReply` and `Env.landmarkReply`, where `None` stands for a search that raises.
- The second reply the `目前位置` branch sends with an already used reply token is not modelled.
- The per-food nutrition lines of the fresh-food reply and its 5000-character truncation are not modelled: only the set of foods is.
- Float formatting (`:.2f`), `round(…, 2)`, and the progress percentages of the profile page are not modelled. The arithmetic is exact over `real`.
- `float()` accepting `nan` and `inf` is not modelled; `Env.parseFloat` is arbitrary.
- `weight ** 0.75` is `Env.pow34`. For a negative weight Python produces a complex number. The real-valued model does not represent that number; it models only the crash it causes in the forms.
- The intake form's progress figures on its two error pages (both fields empty, a non-numeric field) are not modelled. They are computed with `statuses.index` and `int()` and can raise on an unknown status name or a negative weight, but that path only renders a page and writes nothing.
- The profile list and detail pages (`get_all_dogs`, `dog_profile`, `dog_profile_detail`) only display data. Of them only the empty-list redirect of the intake form is modelled. `get_all_dogs` raises on a stored birthday `strptime` rejects; `Bot.RunKeepsValid` and the form contracts keep every stored birthday valid.
- An exception from the `get_dog_data` call in the nutrition step (a stored birthday that does not parse) would land in the format-error branch. The birthday invariant excludes this, so it is not modelled.
- `delete_dog`'s rollback path is not modelled, because the two deletes cannot fail on the modelled maps.
- Concurrent requests are not modelled: every event is handled to completion before the next. `app.run(debug=True)` (app.py:1158) serves requests on threads. Nothing locks `user_states` or the read-add-write of the intake form (app.py:1084-1096), so two simultaneous submissions can lose an increment.
- The standalone `Feeding_Advice.py` script is not part of this model.
- DailyCalories.CalculateRER: states only the sign relation, because `w ** 0.75` is abstract.
