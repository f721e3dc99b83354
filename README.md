# VTM Storyteller: dice engine, roll commands and character rules in Dafny

This project models the rules core of the VTM Storyteller chat application. That core is the
Vampire: The Masquerade 5th edition dice engine and the code that feeds it and surrounds it:

- **IntelligentDice** (`intelligent_dice_system.py`):
  - reads "roll Attribute + Skill" suggestions out of narration text;
  - keeps the last suggestion per session;
  - parses `/roll` commands, with the Blood Surge flag and the "repeat the last suggestion" mode;
  - turns a roll specification into a dice pool from a character row;
  - draws and classifies the regular and Hunger dice, and renders the result message.
- **WebRoller** (`app.py`): the web endpoint's own, different dice roller and the input guard of
  its `/roll` route.
- **CommandSystem** (`command_system.py`): recognising slash commands, splitting them into a name
  and arguments, dispatching them to handlers, and the `/roll` handler, which mutates the cached
  suggestion in place.
- **CharacterRules** (`enhanced_character_system.py`): Health, Willpower and the Blood Potency
  table; the choice of power-level bonuses and their in-place merge into the character dict; the
  power level an imported sheet's experience earns.
- **SheetParser** (`pdf_character_parser.py`): the initial character structure, the count of
  filled dot checkboxes, the clean-up pass over extracted values, and the validation error list.
- **Roll20** (`roll20_integration.py`): the conversion of a character dict into Roll20's flat
  attribute dict.

Shared helpers:

- **Wrappers**: Option, and `dict.get`.
- **Ascii**: the `str` operations used, on ASCII: `lower`, `capitalize`, `strip`,
  `split(maxsplit=1)`, `replace`, `in`, `count`, `str(int)`.
- **Faces**: die faces 1..10 and counting over them.
- **Dicts**: Python dict assignment in order, `d[k] = v` for each pair, last write winning.

The model takes the source's own form:

- **Pure functions** become Dafny functions with lemmas about them. This covers classification,
  pools, lookups, the table rules and the roll parser's result.
- **Code that builds its result step by step** becomes methods, each proved equal to the
  specification function its steps add up to:
  - `_format_roll_message` appends to `msg`;
  - `parse_roll_command` reassigns `command` and fills `result`;
  - `_count_filled_checkboxes` and the three Roll20 loops are loops.
- **Objects whose state changes** become classes with `modifies` clauses:
  - the suggestion cache;
  - the command runner that owns it;
  - the character dict being merged;
  - the parser's `data`.

Randomness is a parameter. `random.randint(1, 10)` becomes a stream `die: nat -> Face`, read in
the order the source draws: all regular dice first, then the Hunger dice. The regular
expressions become deterministic scanners (see `IntelligentDice.MatchAt`). The database, the
Flask session and the clock become inputs.

The rollers of the repository disagree on two rules. The model follows each file's own code:

- **Bestial Failure.** `app.py:199-200` reports a Bestial Failure for zero successes with at least
  one Hunger die showing 1 (`WebRoller.ClassifyWeb`). The Discord bot uses the same rule at
  `discord_bot.py:137`; discord_bot.py is not part of this model. The engine in
  `intelligent_dice_system.py:260-262` requires every Hunger die to show 1 and the total to be
  below the difficulty (`IntelligentDice.Classify`).
  - Regular [5] with Hunger [1, 1, 2] is therefore a Bestial Failure for `app.py` and never one
    for the engine. `WebRoller.ClassifiersDisagreeOnBestialFailure` and
    `IntelligentDice.ScenarioNotAllOnes` prove it.
- **Pairs of tens.** The engine counts each pair of tens as two extra successes
  (`intelligent_dice_system.py:243-254`); `app.py` counts faces of at least 6 and nothing more
  (`WebRoller.ClassifiersDisagreeOnPairs`).

## Model

| member | source | states |
|---|---|---|
| IntelligentDice.AttributeKeyIsLower | intelligent_dice_system.py:104-116 | the attribute table maps every name to its lower-cased spelling, so the lookup key is always `attribute.lower()` |
| IntelligentDice.SkillKeyIsLower | intelligent_dice_system.py:133-172 | the skill lookup key is the lower-cased name, except that "AnimalKen" reads `animal_ken` |
| IntelligentDice.GetAttributeValue | intelligent_dice_system.py:102-129 | the value is the JSON table's entry under the lower-cased name if the table has it, else the legacy column, else 0 |
| IntelligentDice.GetSkillValue | intelligent_dice_system.py:131-185 | the same for skills, under the skill key |
| IntelligentDice.UnknownStatIsZero | intelligent_dice_system.py:123-129 | a name that neither the table nor the columns know resolves to 0 |
| IntelligentDice.CalculateDicePool | intelligent_dice_system.py:187-217 | pool = attribute + skill when both are given, else the discipline (looked up as a skill), else 0; plus Blood Potency under Blood Surge |
| IntelligentDice.BloodSurgeAddsBloodPotency | intelligent_dice_system.py:211-215 | Blood Surge adds Blood Potency (default 0) to the pool and appends " + Blood Surge (n)" to the description |
| IntelligentDice.AttributeSkillPool | intelligent_dice_system.py:195-203 | attribute and skill give their sum, described "A (a) + S (s)"; a discipline is then ignored |
| IntelligentDice.DisciplinePoolUsesSkills | intelligent_dice_system.py:205-209 | a discipline alone is looked up through the skill lookup, described "D (d)" |
| IntelligentDice.EmptySpecIsEmptyPool | intelligent_dice_system.py:192-217 | a specification that names nothing and has no surge gives pool 0 with description '' |
| IntelligentDice.Draw | intelligent_dice_system.py:239-240 | n dice are read from the stream in order |
| IntelligentDice.Classify | intelligent_dice_system.py:242-265 | criticals = tens div 2; total = faces ≥ 6 + 2 × criticals; messy ⇔ criticals > 0 and a Hunger ten; bestial ⇔ some Hunger dice, all 1, total < difficulty; success ⇔ total ≥ difficulty |
| IntelligentDice.RollDice | intelligent_dice_system.py:219-280 | a pool ≤ 0 returns early; otherwise max(0, pool − hunger) regular dice are drawn, then the Hunger dice, and the faces are classified |
| IntelligentDice.PoolIsPartitioned | intelligent_dice_system.py:235-240 | for pool ≥ 1 and Hunger ≥ 0: max(0, pool − hunger) regular and min(hunger, pool) Hunger dice, together the pool |
| IntelligentDice.TotalSuccessesAtLeastBase | intelligent_dice_system.py:243-254 | the total is never below the count of faces ≥ 6, and a critical means at least 4 successes |
| IntelligentDice.NoBestialFailureWithoutDifficulty | intelligent_dice_system.py:260-265 | with difficulty ≤ 0 there is no Bestial Failure and every roll succeeds |
| IntelligentDice.BestialFailureExcludes | intelligent_dice_system.py:257-265 | a Bestial Failure is never a success or messy; any Hunger die above 1 rules it out |
| IntelligentDice.ScenarioSingleTen | intelligent_dice_system.py:243-254 | [2, 4, 6, 8, 10] gives 3 successes and no critical |
| IntelligentDice.ScenarioMessyCritical | intelligent_dice_system.py:243-257 | regular [3, 7, 9] with Hunger [10, 10] gives 6 successes, one pair, a Messy Critical |
| IntelligentDice.ScenarioNotAllOnes | intelligent_dice_system.py:260-262 | regular [5] with Hunger [1, 1, 2] is never a Bestial Failure, at any difficulty |
| IntelligentDice.OutcomeOf | intelligent_dice_system.py:299-308 | the outcome label by priority: bestial, then messy, then critical, then success, then failure |
| IntelligentDice.JoinFacesSeparators | intelligent_dice_system.py:288-290 | the joined faces hold exactly one comma fewer than the faces |
| IntelligentDice.DiceLine | intelligent_dice_system.py:287-290 | a dice line is omitted exactly when there are no dice of its kind; otherwise it is the heading, the joined faces and the ending |
| IntelligentDice.DifficultyNote | intelligent_dice_system.py:294-295 | the difficulty note appears exactly when the difficulty is positive |
| IntelligentDice.OutcomeLine | intelligent_dice_system.py:303-304 | a critical reports its number of pairs, "pairs" only above one |
| IntelligentDice.MessageOf | intelligent_dice_system.py:224-280 | the early return's refusal is the message exactly for a pool ≤ 0; a roll's message opens with the header and is the formatted result |
| IntelligentDice.FormatRollMessage | intelligent_dice_system.py:282-310 | the message built line by line is the header, the dice lines, the total line and the outcome line |
| IntelligentDice.WordEnd | intelligent_dice_system.py:24 | `([A-Z][a-z]+)` under IGNORECASE matches a run of two or more letters, ending before a non-letter |
| IntelligentDice.MatchAt | intelligent_dice_system.py:24-38 | a match of any of the three patterns captures words |
| IntelligentDice.FirstMatch | intelligent_dice_system.py:25 | `re.search` finds the leftmost position where the pattern matches, and none means no position matches |
| IntelligentDice.Search | intelligent_dice_system.py:25 | the groups are None exactly when the pattern matches nowhere, and otherwise those of a match with no match to its left |
| IntelligentDice.ExtractRollSuggestion | intelligent_dice_system.py:15-48 | "roll A + S" wins over "roll D (discipline)"; the names are capitalized; no match gives None |
| IntelligentDice.SuggestedNamesAreCapitalized | intelligent_dice_system.py:27-46 | the names of a suggestion are capitalized words: either attribute and skill, or a discipline |
| IntelligentDice.CanonicalSuggestion | intelligent_dice_system.py:18-35 | "roll A + S" for words A and S is read back as the attribute A and the skill S, capitalized |
| IntelligentDice.SurgeAt | intelligent_dice_system.py:78 | a match of `\+?\s*blood\s*surge` covers at least the ten letters |
| IntelligentDice.RemoveSurges | intelligent_dice_system.py:78 | `re.sub` leaves the text alone exactly when no match exists, and otherwise shortens it |
| IntelligentDice.PhraseIsSurgeMatch | intelligent_dice_system.py:75-78 | wherever the flag test sees "blood surge" or "bloodsurge", the removal pattern matches |
| IntelligentDice.FlaggedSurgeIsRemoved | intelligent_dice_system.py:75-78 | when the flag is raised, the removal really removes something |
| IntelligentDice.ParsedRoll | intelligent_dice_system.py:58-100 | surge ⇔ the phrase test holds; repeat-last ⇔ the remainder is '' or '+', with no names; otherwise a "Name + Name" match in the remainder gives its two captured words, capitalized, as attribute and skill, and anything else is the capitalized remainder as discipline |
| IntelligentDice.ParseRollCommand | intelligent_dice_system.py:58-100 | the step-by-step parser returns exactly ParsedRoll's result, so the surge flag, the repeat mode and the captured names as ParsedRoll states them |
| IntelligentDice.BareRollRepeats | intelligent_dice_system.py:83-86 | a bare "/roll" repeats the last suggestion without a surge |
| IntelligentDice.CapitalizedSkillKey | intelligent_dice_system.py:143 | a capitalized name never reads `animal_ken`: its key is its plain lower-case form |
| IntelligentDice.ParsedSkillLookup | intelligent_dice_system.py:92-94 | a skill parsed from `/roll` is looked up under its lower-cased name |
| IntelligentDice.SuggestionCache.constructor | intelligent_dice_system.py:11-13 | the cache starts empty |
| IntelligentDice.SuggestionCache.Store | intelligent_dice_system.py:50-52 | only the session's entry is replaced |
| IntelligentDice.SuggestionCache.Lookup | intelligent_dice_system.py:54-56 | the session's entry, or None when there is none |
| WebRoller.ClassifyWeb | app.py:183-200 | successes = faces ≥ 6; pairs = tens div 2; critical ⇔ two tens; messy ⇔ critical and a Hunger ten; bestial ⇔ no successes and a Hunger 1 |
| WebRoller.RollWeb | app.py:167-211 | max(0, pool − hunger) normal dice are drawn, then max(0, hunger) Hunger dice, and the faces are classified |
| WebRoller.WebCountsMatchPoolOnlyUpToPool | app.py:179-181 | with Hunger ≥ 0 the dice add up to the pool exactly when Hunger ≤ pool, and to the Hunger above it |
| WebRoller.BestialFailureIsNeverCritical | app.py:184-200 | a roll is never both critical and a Bestial Failure, and messy implies critical |
| WebRoller.SuccessesAreFacesAboveFive | app.py:183-184 | successes are the faces ≥ 6 of both lists, never more than the dice |
| WebRoller.GuardError | app.py:312-316 | the request is refused exactly when pool < 1 or Hunger > pool, with the message of the first failing check |
| WebRoller.RollEndpoint | app.py:305-319 | the endpoint rolls exactly when the guard passes, with missing values read as 0 |
| WebRoller.MissingPoolIsRefused | app.py:306-313 | a request without a pool is refused |
| WebRoller.NegativeHungerOverdraws | app.py:312-319 | pool 3 with Hunger −1 passes the guard and rolls four dice |
| WebRoller.CheckedGuardError | app.py:312-316 | the guard with a check for Hunger ≥ 0 refuses exactly what is outside 1 ≤ pool and 0 ≤ Hunger ≤ pool |
| WebRoller.CheckedRollEndpoint | app.py:305-319 | the endpoint with the checked guard rolls exactly when it passes |
| WebRoller.CheckedRollUsesWholePool | app.py:179-181 | behind the checked guard the dice rolled are exactly the pool, the Hunger dice exactly the Hunger |
| WebRoller.ClassifiersDisagreeOnBestialFailure | app.py:199-200 | regular [5] with Hunger [1, 1, 2] is a Bestial Failure here and never one for the engine |
| WebRoller.ClassifiersDisagreeOnPairs | app.py:184-192 | regular [3, 7, 9] with Hunger [10, 10] gives 4 successes here and 6 for the engine |
| CommandSystem.IsCommand | command_system.py:22-24 | a message is a command exactly when its first non-space character is '/' |
| CommandSystem.ParseCommand | command_system.py:26-40 | not a command ⇔ the stripped message does not start with '/'; a crash ⇔ it is "/" alone; otherwise the name is the first whitespace-delimited token after the '/', lower-cased, and the arguments are what follows the whitespace after it, stripped |
| CommandSystem.SplitCommand | command_system.py:33-40 | the split after the '/' crashes exactly for "/" alone, and otherwise gives the lower-cased first token and the rest of a single split |
| CommandSystem.ParseWrittenCommand | command_system.py:26-40 | "/" + word + " " + stripped arguments is read back as the lower-cased word and those arguments |
| CommandSystem.Caught | command_system.py:52-55 | a raised exception becomes "Error executing command: " and its text |
| CommandSystem.Execute | command_system.py:42-55 | an invalid format, an unknown name or the handler's caught reply; "/" alone escapes uncaught |
| CommandSystem.OnlyKnownCommandsReachHandlers | command_system.py:49-53 | only registered names reach a handler |
| CommandSystem.AsWrittenRollAlwaysFails | command_system.py:516-522 | as written, every `/roll` answers with the NameError for `intelligent_dice` |
| CommandSystem.RollDataFor | command_system.py:538-552 | a repeat with no cached suggestion has nothing to roll; otherwise the explicit roll, or the suggestion with the surge merged in |
| CommandSystem.CacheAfter | command_system.py:545-547 | only the session's suggestion can change, and only by gaining the surge |
| CommandSystem.RollStepOf | command_system.py:516-575 | no character or no row is an error with the cache untouched; only the session's entry can change; a reply is a success with a roll |
| CommandSystem.RollUsesPoolAndHunger | command_system.py:555-564 | a roll made is the engine's roll of the computed non-zero pool, with the character's Hunger (default 0) and difficulty 0 |
| CommandSystem.NegativePoolIsReportedAsRoll | command_system.py:557-564 | a negative pool is not refused and comes back as a successful reply holding the engine's early return |
| CommandSystem.SurgeSticksToSuggestion | command_system.py:545-549 | after "/roll + blood surge" repeats a suggestion, a later plain repeat surges too |
| CommandSystem.CommandRunner.HandleRollCommand | command_system.py:516-575 | the handler's reply and the new cache are RollStepOf's |
| CommandSystem.CommandRunner.ExecuteCommand | command_system.py:42-55 | the dispatch with the engine in scope gives Execute's result, and only a dispatched `/roll` changes the cache |
| CharacterRules.BenefitsFor | enhanced_character_system.py:104-118 | the Blood Potency row for 0..10, and the BP-0 row for anything else |
| CharacterRules.AdjacentRowsGrow | enhanced_character_system.py:104-116 | each row grants at least what the row before it grants |
| CharacterRules.BenefitsNondecreasing | enhanced_character_system.py:104-116 | every benefit is nondecreasing in Blood Potency over 0..10 |
| CharacterRules.OutOfRangeGetsLeastBenefits | enhanced_character_system.py:102-118 | a Blood Potency outside 0..10 gets surge 1 and the least of every benefit |
| CharacterRules.CalculateDerivedStats | enhanced_character_system.py:89-129 | Health = Stamina + 3, Willpower = Composure + Resolve (defaults 1), benefits from Blood Potency (default 0) |
| CharacterRules.EmptySheetDefaults | enhanced_character_system.py:93-118 | an empty sheet has Health 4, Willpower 2 and the BP-0 benefits |
| CharacterRules.NamedBonuses | enhanced_character_system.py:16-61 | every level but ancilla and elder grants no XP, Blood Potency 0 and Generation 13 |
| CharacterRules.GrantOfDict | enhanced_character_system.py:155-157 | a custom dict's missing entries default to Blood Potency 0, Generation 13 and 0 XP |
| CharacterRules.SelectGrant | enhanced_character_system.py:146-149 | a non-empty custom dict is used exactly for the level 'custom'; otherwise the named level is used |
| CharacterRules.CustomOnlyForCustomLevel | enhanced_character_system.py:146-149 | custom bonuses are ignored for other levels, and an unknown level is a neonate |
| CharacterRules.MergedWrites | enhanced_character_system.py:155-165 | the merge writes its eleven keys in order |
| CharacterRules.CharacterData.ApplyPowerLevel | enhanced_character_system.py:146-165 | the dict afterwards is the old one with the bonuses and the stats derived from the old dict written on top |
| CharacterRules.DerivedStatsUseSuppliedBloodPotency | enhanced_character_system.py:152-165 | Blood Potency becomes the level's, while the surge and Health come from the values supplied |
| CharacterRules.MergedLastWrite | enhanced_character_system.py:155-165 | each merged key holds the value written for it |
| CharacterRules.MergeKeepsOtherEntries | enhanced_character_system.py:155-165 | every other key keeps its entry, or stays absent |
| CharacterRules.PowerLevelForExperience | enhanced_character_system.py:305-311 | ≥ 300 XP is elder, 150..299 ancilla, below 150 neonate |
| CharacterRules.ImportedLevelIsEarned | enhanced_character_system.py:305-311 | more XP never earns a lower level's bonus, and the bonus never exceeds the XP imported |
| SheetParser.Unrated | pdf_character_parser.py:54-95 | exactly the names given, each rated 0 |
| SheetParser.InitialData | pdf_character_parser.py:39-126 | empty names, all attributes and skills at 0, no disciplines or backgrounds, Health and Willpower 3, Humanity 7, Hunger 1, Blood Potency 0, Generation 13 |
| SheetParser.NamesAreDistinct | pdf_character_parser.py:18-32 | nine distinct attributes and 27 distinct skills |
| SheetParser.FilledUpTo | pdf_character_parser.py:206-216 | the count of filled boxes never exceeds the boxes looked at |
| SheetParser.FilledCountsOnlyFilledBoxes | pdf_character_parser.py:209-215 | the count is 0 exactly when no box is filled, and 5 exactly when all are |
| SheetParser.CountFilledCheckboxes | pdf_character_parser.py:206-216 | the loop returns the number of present, marked boxes among 1..5 |
| SheetParser.ClampDots | pdf_character_parser.py:279-288 | an int in 0..5 is kept, and everything else becomes 0 |
| SheetParser.ClampAll | pdf_character_parser.py:279-288 | every value of the dict is clamped, and the keys are kept |
| SheetParser.CharacterParser.ClampInPlace | pdf_character_parser.py:279-288 | the in-place loop over a dict yields the clamped dict |
| SheetParser.PlaceholderName | pdf_character_parser.py:272 | the generated name is never empty |
| SheetParser.Validated | pdf_character_parser.py:268-296 | name and chronicle defaults; dots clamped; Blood Potency outside 0..10 becomes 0 and Humanity becomes 7; nothing else changes |
| SheetParser.ValidatedIsInRange | pdf_character_parser.py:278-296 | after validation all dots are in 0..5, Blood Potency and Humanity in 0..10, names non-empty and the key sets kept |
| SheetParser.ValidateIsIdempotent | pdf_character_parser.py:268-296 | validating twice is validating once |
| SheetParser.ValidationErrors | pdf_character_parser.py:298-317 | each of the four problems is listed exactly when it applies |
| SheetParser.ValidationErrorsInOrder | pdf_character_parser.py:298-317 | the problems are listed at most once each, in the order name, chronicle, attributes, skills, and nothing else is listed |
| SheetParser.ValidatedDataHasNoMissingNames | pdf_character_parser.py:270-307 | after validation the name and chronicle errors cannot occur |
| SheetParser.InitialDataReportsEverything | pdf_character_parser.py:298-317 | the initial structure reports all four problems, in order |
| SheetParser.CharacterParser.constructor | pdf_character_parser.py:34-37 | the parser starts from the initial structure |
| SheetParser.CharacterParser.ValidateData | pdf_character_parser.py:268-296 | the data afterwards is the validated data |
| SheetParser.CharacterParser.GetValidationErrors | pdf_character_parser.py:298-317 | the problems appended one by one are ValidationErrors, in the order name, chronicle, attributes, skills, each at most once |
| Roll20.Renamed | roll20_integration.py:184-195 | each entry goes under the prefix plus its lower-cased name, with its value |
| Roll20.ConvertVtmToRoll20 | roll20_integration.py:172-197 | the output is the assignments made in order: clan, generation, attributes, disciplines, backgrounds |
| Roll20.CopySection | roll20_integration.py:183-195 | one loop performs the section's assignments on top of those before it |
| Roll20.ConvertedKeys | roll20_integration.py:172-197 | the output holds exactly clan and generation when present, plus the renamed key of every section entry |
| Roll20.AttributeOverwritesClan | roll20_integration.py:177-185 | an attribute named "Clan" overwrites the clan |
| Roll20.BasicInfoOnly | roll20_integration.py:176-180 | without sections only clan and generation appear, each exactly when present and copied unchanged |
| Roll20.RenamedEntryWins | roll20_integration.py:183-195 | a section entry whose lower-cased name no later entry repeats, and whose key no later write names, keeps its value under prefix + lower-cased name |
| Roll20.AttributeWins | roll20_integration.py:183-185 | an attribute is stored under its lower-cased name with its value, unless a later attribute, discipline or background entry lands on that key |
| Roll20.DisciplineWins | roll20_integration.py:188-190 | a discipline is stored under "discipline_" + its lower-cased name with its rating, unless a later discipline or background entry lands on that key |
| Roll20.BackgroundWins | roll20_integration.py:192-195 | a background not repeated later keeps its value under "background_" + its lower-cased name |

## Left out

- Text is ASCII. The three regular expressions are modelled with ASCII letters and ASCII
  whitespace. Python's Unicode case folding under `re.IGNORECASE` and its Unicode `\s` are not
  modelled.
- IntelligentDice.ExtractRollSuggestion: the dict's 'type' tag is not modelled, because nothing
  reads it.
- Values of the wrong type are not modelled: a `None` name, a string where an int is expected,
  and Python's `True == 1` in sums and lookups. The one exception is the checkbox test, where
  the number 1 counts as marked.
- IntelligentDice.GetAttributeValue: a JSON column that is missing, empty or fails to parse
  becomes NoTable. The `json.loads` call itself is not modelled.
- IntelligentDice.SuggestionCache.Store: nothing in the repository calls `store_suggested_roll`.
  It is modelled anyway, because the handler's lookups depend on it.
- CommandSystem.Execute: the handlers other than `/roll` (campaign, session, npc, location,
  item, help) read and write the database. They are a parameter here.
- CommandSystem.RollStepOf: the active session id, the active character id and the character row
  are inputs rather than Flask session and SQLite reads. `if not last_roll` treats an empty dict
  as missing, but a stored suggestion is never empty, so that case is not modelled.
- WebRoller.RollEndpoint: the request's other fields and the database insert after the roll
  are not modelled.
- CharacterRules.NamedBonuses: the 'name' and 'description' strings of the power levels are not
  modelled, because the merge never reads them.
- CharacterRules.CharacterData.ApplyPowerLevel: the character dict is modelled by its integer
  entries. The database insert after the merge is not modelled.
- SheetParser: reading the PDF is not modelled. That covers form fields and page text, the SHA-256
  hash and the `print` calls. `datetime.now()` becomes the given extraction date or timestamp.
- SheetParser.Validated: on the extracted values only the `isinstance(value, int)` distinction is
  kept (IntValue versus OtherValue).
- Roll20: the HTTP calls to the Roll20 API are not modelled. A dict section is its
  (key, value) list in insertion order, and its value type is a parameter.
- Concurrency between requests is not modelled. Each operation is modelled as one atomic step.

## Findings

| source | as written | input that shows it | evidently intended | confidence | as-written member | corrected member |
|---|---|---|---|---|---|---|
| command_system.py:516-522 | `handle_roll_command` uses `intelligent_dice`, but the module never imports it (lines 6-8), so the name is undefined | any `/roll` message, e.g. "/roll" | the engine object is imported and `/roll` rolls | not executed | CommandSystem.AsWrittenRollAlwaysFails | CommandSystem.CommandRunner.ExecuteCommand |
| app.py:312-316 | the guard checks pool ≥ 1 and Hunger ≤ pool, but not Hunger ≥ 0, so a negative Hunger passes | pool 3, Hunger −1: four normal dice are rolled | a negative Hunger is refused, so the dice rolled are exactly the pool | not executed | WebRoller.NegativeHungerOverdraws | WebRoller.CheckedRollUsesWholePool |
