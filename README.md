# Synthetic store-development data generators, modelled in Dafny

The repository generates synthetic test data for a retail store-development team. It produces a budget workbook, historical project records, meeting transcripts (two generators and a demo), Teams channel threads, and a production run that drives the generators over 300 stores. This project models the rules those scripts follow, with every `random` draw and the wall clock taken as parameters with their stated ranges. It proves what the outputs look like for every draw.

Modules, one per script plus shared pieces:

- `Budget` (`generate_budget_artifacts.py`) covers these values, as written into cells:
  - the per-type historical average;
  - the executive summary's cost table;
  - the five scenarios;
  - the fast-track premiums;
  - the value-engineering savings.
- `CostCategories` holds the seven cost categories and the truncated percentage split shared by the budget and the records.
- `StructuredData` (`generate_structured_data.py`) covers the historical-project loop and its CSV rows, and the regional-modifier CSV rows.
- `MeetingTranscripts` (`generate_meeting_transcripts.py`) covers:
  - participant and speaker selection;
  - the dialogue with its clock;
  - tags, action items and references;
  - the transcript layout.
- `MeetingTranscriptsV2` (`generate_meeting_transcripts_v2.py`) covers:
  - the per-type context;
  - the scenario dialogue;
  - the role-to-persona map;
  - the participant list in first-appearance order;
  - tags, action items and references;
  - the layout and the file name.
- `EnhancedDialogue` (`generate_enhanced_dialogue.py`) covers the eleven-turn lessons-learned demo, whose stamps a loop writes into an array, and its transcript.
- `TeamsConversations` (`generate_teams_conversations.py`) covers:
  - thread ids;
  - participants;
  - messages, reactions, tags, action items and references;
  - a `Channel` class whose thread list only grows;
  - the conversation index.
- `Phase3Production` (`run_phase3_production.py`) covers:
  - the store list and the 250-meeting schedule;
  - the eight Teams channels;
  - a `Phase3Generator` class that keeps the run's statistics;
  - the printed summary.
- Shared modules:
  - `Common`: results, digits, padding, splitting and sums;
  - `Calendar`: day ordinals, weekday, next Friday and `%Y-%m-%d`;
  - `Timestamps`: `[HH:MM:SS]`;
  - `TemplateFormat`: `str.format` with named fields;
  - `Personas`: the catalogue lookups;
  - `TranscriptText`: ASCII `title()`;
  - `StringOrder`: sorted, duplicate-free tag lists.

Speaker selection follows the code of `_select_speakers_for_topic`. The code keeps every participant whose role is among the matched roles, in participant order, and the model does the same.

## Model

| member | source | states |
|---|---|---|
| Common.Take | scripts/generate_meeting_transcripts.py:413 | `xs[:n]` has `min(n, len(xs))` elements, the first ones of `xs` |
| Common.DigitRun | scripts/generate_meeting_transcripts.py:382 | the length of the digit run a `\d+` match reads: only digits, and not followed by one |
| Common.DigitRunOf | scripts/generate_meeting_transcripts.py:382 | a run of digits followed by a non-digit or the end is read to its end |
| Common.NatToString | scripts/generate_structured_data.py:340 | `str(n)` is a non-empty run of digits, with no leading zero unless `n` is 0, and a single digit exactly below 10 |
| Common.ParseNatToString | scripts/generate_meeting_transcripts_v2.py:81 | `int(str(n)) == n` |
| Common.ParseNatAppend | scripts/generate_meeting_transcripts_v2.py:252 | reading two digit strings one after the other shifts the first by the length of the second |
| Common.ParseNatZeros | scripts/generate_teams_conversations.py:163 | a run of zeros reads as 0 |
| Common.ZeroPad | scripts/generate_teams_conversations.py:163 | `f"{n:0{w}d}"` is all digits, exactly `w` long unless `n` needs more, and reads back as `n` |
| Common.ZeroPad2Length | scripts/generate_meeting_transcripts.py:358 | two-digit padding below 100 is exactly two characters |
| Common.RemoveChar | scripts/generate_teams_conversations.py:161 | `s.replace(c, '')` leaves no `c` and is no longer than `s` |
| Common.RemoveCharAppend | scripts/generate_teams_conversations.py:161 | removing a character distributes over concatenation |
| Common.RemoveCharAbsent | scripts/generate_teams_conversations.py:161 | removing a character that does not occur changes nothing |
| Common.NatToStringBelow1000 | scripts/generate_teams_conversations.py:163 | a number below 1000 has at most three digits |
| Common.GroupThousandsReadsBack | scripts/generate_meeting_transcripts.py:326 | `f"{n:,}"` with its commas removed is all digits and reads back as `n` |
| Common.Lower | scripts/generate_teams_conversations.py:314 | `s.lower()` keeps the length and lowers each letter in place |
| Common.Split | scripts/generate_teams_conversations.py:160 | `s.split(c)` always has at least one field |
| Common.SplitWithout | scripts/generate_teams_conversations.py:160 | a string without the separator splits into itself alone |
| Common.SplitAt | scripts/generate_meeting_transcripts_v2.py:252 | splitting at the first separator gives the field before it, then the fields of the rest |
| Common.StripDelimited | scripts/generate_meeting_transcripts_v2.py:251 | `strip('[]')` of a bracketed string whose ends are not brackets gives back its inside |
| Common.SumStep | scripts/generate_budget_artifacts.py:933-934 | a running total grows by the next element |
| Common.SumBounds | scripts/generate_budget_artifacts.py:140 | a sum of `n` values each within bounds lies within `n` times the bounds |
| Common.Collect | scripts/generate_meeting_transcripts_v2.py:169-188 | a run of steps that all succeed yields one value per step |
| Common.CollectMeaning | scripts/generate_meeting_transcripts_v2.py:169-188 | a run succeeds exactly when every step does, and then its values are the steps' values in order |
| Common.CollectErrorFrom | scripts/generate_meeting_transcripts_v2.py:169-188 | a failed run reports the exception of one of its steps |
| Common.CollectFirstFailure | scripts/generate_meeting_transcripts_v2.py:169-188 | the exception reported is the one of the first step that raised |
| Common.CollectExtend | scripts/generate_meeting_transcripts_v2.py:169-188 | one more step: an earlier failure stands, a success appends its value, a raise ends the run |
| Common.CollectStaysFailed | scripts/generate_meeting_transcripts_v2.py:169-188 | a run that failed stays failed with the same exception, whatever follows |
| Common.CollectFailsAt | scripts/generate_meeting_transcripts_v2.py:169-188 | a run whose first `k` steps succeeded and whose step `k` raised reports that exception |
| Calendar.Weekday | scripts/generate_meeting_transcripts_v2.py:379 | `date.weekday()` is a number below 7 |
| Calendar.WeekdayPlusWeek | scripts/generate_meeting_transcripts_v2.py:380-382 | seven days later is the same weekday |
| Calendar.NextFriday | scripts/generate_meeting_transcripts_v2.py:376-382 | the result is a Friday, one to seven days after the date, with no Friday in between, and a week later when the date itself is a Friday |
| Calendar.DaysInYear | scripts/run_phase3_production.py:51 | a Gregorian year has 365 or 366 days |
| Calendar.DaysInMonth | scripts/run_phase3_production.py:51 | a month has 28 to 31 days |
| Calendar.DaysBeforeNextMonth | scripts/run_phase3_production.py:51 | the days before a month are the days before the previous month plus its length |
| Calendar.DecemberEndsYear | scripts/run_phase3_production.py:51 | the days before December plus December's are the year's days |
| Calendar.MonthOf | scripts/run_phase3_production.py:51 | the `rem`-th day of a year, counting from a month, is a valid date in that year that many days in |
| Calendar.YearOf | scripts/run_phase3_production.py:51 | the `rem`-th day counted from a year is a valid date that many days after that year's start |
| Calendar.FromOrdinal | scripts/run_phase3_production.py:51 | the date of a day number is valid and maps back to the same number |
| Calendar.MonthOfAt | scripts/run_phase3_production.py:51 | counting days within a year lands on the one date that many days in |
| Calendar.DaysBeforeMonthGrows | scripts/run_phase3_production.py:51 | every month adds at least 28 days |
| Calendar.DaysBeforeMonthFits | scripts/run_phase3_production.py:51 | a month ends within its year |
| Calendar.YearOfAt | scripts/run_phase3_production.py:51 | counting days across years lands on the one date that many days in |
| Calendar.DaysBeforeYearGrows | scripts/run_phase3_production.py:51 | later years start later |
| Calendar.OrdinalRoundTrip | scripts/run_phase3_production.py:51 | valid dates and day numbers correspond one to one |
| Calendar.DateText | scripts/run_phase3_production.py:51 | `strftime('%Y-%m-%d')` is at least ten characters with dashes before the month and the day |
| Personas.TeamOrEmpty | scripts/generate_meeting_transcripts.py:210 | `persona.get('team', '')`: the team when there is one, the empty string otherwise |
| Personas.GetPersona | scripts/generate_meeting_transcripts.py:228-234 | found exactly when some persona has the name, and then it is the first such persona; otherwise `ValueError` |
| Personas.GetPersonaByRole | scripts/generate_meeting_transcripts.py:236-242 | found exactly when some persona has the role, and then it is the first such persona; otherwise `None` |
| TemplateFormat.Prepend | scripts/generate_meeting_transcripts_v2.py:169 | putting literal text in front of a formatted result keeps a success a success and an exception the same exception |
| TemplateFormat.FieldEnd | scripts/generate_meeting_transcripts_v2.py:169 | the closing brace of a replacement field is the first `}`, with no brace before it |
| TemplateFormat.KeyOf | scripts/generate_meeting_transcripts_v2.py:169 | a field's argument name is the text before its first `:` or `!` |
| TemplateFormat.Format | scripts/generate_meeting_transcripts_v2.py:169-172 | `str.format(**values)` raises `KeyError` only for a keyword name that is not among the values |
| TemplateFormat.FormatPlain | scripts/generate_meeting_transcripts_v2.py:169 | text without braces formats to itself, whatever the values |
| TemplateFormat.FormatEscape | scripts/generate_meeting_transcripts_v2.py:169 | formatting a text whose braces are doubled gives the text back |
| TemplateFormat.FormatField | scripts/generate_meeting_transcripts_v2.py:169-172 | a `{key}` field is replaced by the key's value and formatting goes on after it; a missing key raises `KeyError` for that key |
| TemplateFormat.FormatPrefix | scripts/generate_meeting_transcripts_v2.py:169 | literal text without braces in front of a template is copied through |
| TemplateFormat.PrependTwice | scripts/generate_meeting_transcripts_v2.py:169 | putting two texts in front one after the other is putting their concatenation in front |
| Timestamps.ToClock | scripts/generate_meeting_transcripts.py:353-358 | hours, minutes and seconds with minutes and seconds below 60 that add up to the second count |
| Timestamps.ClockUnique | scripts/generate_meeting_transcripts.py:355-357 | there is only one such reading for a second count |
| Timestamps.FormatTimestamp | scripts/generate_meeting_transcripts.py:353-358 | the stamp is bracketed and at least ten characters |
| Timestamps.ReadField | scripts/generate_meeting_transcripts_v2.py:252 | `int()` of a field succeeds exactly on a non-empty run of digits |
| Timestamps.StampFields | scripts/generate_meeting_transcripts_v2.py:251-252 | `strip('[]').split(':')` always has a field |
| Timestamps.ParseClock | scripts/generate_meeting_transcripts_v2.py:251-252 | unpacking into `hours, minutes, _` succeeds only on exactly three fields |
| Timestamps.StampMinutes | scripts/generate_enhanced_dialogue.py:146-147 | the stamp reads as minutes exactly when it has two fields that are both digits; the first field is converted before the second is indexed, so a first field that is not digits raises `ValueError` even when the second field is missing, and a missing second field after a numeric first one raises `IndexError` |
| Timestamps.StampFieldsOfFormat | scripts/generate_meeting_transcripts.py:358 | a formatted stamp splits into its three zero-padded fields |
| Timestamps.ParseFormatRoundTrip | scripts/generate_meeting_transcripts_v2.py:216-252 | reading a formatted stamp back gives the clock it was formatted from |
| Timestamps.StampMinutesOfFormat | scripts/generate_enhanced_dialogue.py:118-147 | the minutes read off a formatted stamp are its whole minutes, `seconds // 60` |
| Timestamps.FormatInjective | scripts/generate_meeting_transcripts.py:353-358 | distinct second counts give distinct stamps |
| Timestamps.FormatDuration | scripts/generate_meeting_transcripts_v2.py:254 | the `DURATION` value has a colon before its last two characters |
| Timestamps.FormatDurationReadsBack | scripts/generate_meeting_transcripts_v2.py:254 | reading `HH:MM` back gives the minutes it was written from |
| Timestamps.StartTimeStep | scripts/generate_meeting_transcripts_v2.py:158-186 | the clock starts at zero and each turn starts 30 to 180 seconds after the previous one |
| Timestamps.StartTimeIncreasing | scripts/generate_meeting_transcripts_v2.py:158-186 | start times are non-negative, strictly increasing, and `k - j` turns apart by 30 to 180 seconds each |
| Timestamps.StartTimeNonNegative | scripts/generate_meeting_transcripts_v2.py:158-186 | no turn starts before zero |
| Timestamps.FirstTurnStamp | scripts/generate_meeting_transcripts_v2.py:158-180 | the first turn is stamped `[00:00:00]` |
| Timestamps.TurnStampsIncrease | scripts/generate_meeting_transcripts_v2.py:180-186 | the stamps of later turns read back as clocks 30 to 180 seconds per turn later |
| TranscriptText.ReplaceChar | scripts/generate_meeting_transcripts.py:445 | `replace('_', ' ')` changes exactly the underscores, in place |
| TranscriptText.Title | scripts/generate_meeting_transcripts.py:445 | `title()` keeps the length |
| TranscriptText.TitleChars | scripts/generate_meeting_transcripts.py:445 | each letter is upper case at the start of a word and lower case inside one; other characters are kept |
| TranscriptText.CaseAtTwice | scripts/generate_meeting_transcripts.py:445 | casing a letter keeps it a letter, and casing it again the same way changes nothing |
| TranscriptText.TitleIdempotent | scripts/generate_meeting_transcripts.py:445 | title-casing a title-cased text changes nothing |
| StringOrder.StrLtIrreflexive | scripts/generate_meeting_transcripts.py:389 | no string sorts before itself |
| StringOrder.StrLtTransitive | scripts/generate_meeting_transcripts.py:389 | string order is transitive |
| StringOrder.StrLtTotal | scripts/generate_meeting_transcripts.py:389 | of two different strings one sorts before the other |
| StringOrder.SortedDistinct | scripts/generate_meeting_transcripts.py:389 | a strictly ascending list holds no string twice |
| StringOrder.Insert | scripts/generate_meeting_transcripts.py:389 | inserting into a strictly ascending list keeps it strictly ascending and adds exactly the string |
| StringOrder.SortedSet | scripts/generate_meeting_transcripts.py:389 | `sorted(list(set))` is strictly ascending and holds exactly the strings of the input |
| StringOrder.SortedUnique | scripts/generate_meeting_transcripts.py:389 | any strictly ascending list of the same strings is that list |
| CostCategories.CategoryKeyInjective | scripts/generate_structured_data.py:375-383 | the seven category keys of a project's `categories` dictionary are pairwise different |
| CostCategories.Trunc | scripts/generate_structured_data.py:376-382 | `int()` truncates toward zero: the result lies within one unit of the amount, on the side of zero |
| CostCategories.TruncQuotientBounds | scripts/generate_budget_artifacts.py:140-146 | `int(a / b)` of a sum of `b` values each within bounds lies within the same bounds |
| CostCategories.Share | scripts/generate_structured_data.py:359-365 | every category percentage lies strictly between 0 and 1 |
| CostCategories.SharesSumToOne | scripts/generate_structured_data.py:359-365 | the seven percentages add up to exactly the whole cost |
| CostCategories.SplitCost | scripts/generate_structured_data.py:375-383 | every category amount is `int(total_cost * pct)` of its own percentage |
| CostCategories.SplitCostAt | scripts/generate_structured_data.py:375-383 | each category amount of a non-negative total lies between 0 and the total, less than one unit below its exact share |
| CostCategories.SplitCostTotal | scripts/generate_structured_data.py:359-383 | the seven truncated amounts add up to the total or at most six units below it |
| Budget.Matching | scripts/generate_budget_artifacts.py:135 | keeps exactly the historical projects of the requested store type, each one drawn from the input |
| Budget.MatchingIsSelection | scripts/generate_budget_artifacts.py:135 | the filter equals the order-preserving selection of the projects whose store type matches |
| Budget.MatchingInOrder | scripts/generate_budget_artifacts.py:135 | the filtered projects are the input's projects of that type at strictly increasing positions, and every project of the type is among them |
| Budget.MatchingCount | scripts/generate_budget_artifacts.py:135 | the filter holds exactly as many projects as the input has projects of the type |
| Budget.HistoricalAverage | scripts/generate_budget_artifacts.py:133-153 | is `None` exactly when no project has the store type; otherwise `count` is the number of projects of the type, the total and each category are the truncated means of the matching projects' values, and the cost per square foot their exact mean |
| Budget.TruncMeanBounds | scripts/generate_budget_artifacts.py:140-150 | an `int(sum / len)` average stays within any bounds that all its values keep |
| Budget.AverageTotalWithinRange | scripts/generate_budget_artifacts.py:140-150 | the averaged total cost lies between the lowest and highest total of the matching projects |
| Budget.AverageCategoryWithinRange | scripts/generate_budget_artifacts.py:143-146 | each averaged category cost lies between the bounds that every matching project keeps |
| Budget.ExecutiveCostSummary | scripts/generate_budget_artifacts.py:194-241 | no table without history; a zero total or zero square footage raises `ZeroDivisionError`; otherwise seven rows in display order, each with the category amount, its share of the total and its cost per square foot, plus the total and the "Based on N historical projects" note |
| Budget.SummarySharesAddUp | scripts/generate_budget_artifacts.py:217-230 | the `% of Total` column times the total adds up to the sum of the category amounts |
| Budget.VarianceColour | scripts/generate_budget_artifacts.py:374-378 | red exactly above the base, green exactly below it, no colour exactly at it |
| Budget.ScenarioComparisons | scripts/generate_budget_artifacts.py:308-382 | the "No historical data available for scenarios" message exactly when there is no history; otherwise one row per fixed scenario costed from the historical total |
| Budget.ScenarioRows | scripts/generate_budget_artifacts.py:362-382 | the loop writes one row per scenario, in order, each costed as `int(base * multiplier)` with variance `multiplier - 1` |
| Budget.ScenarioOrdering | scripts/generate_budget_artifacts.py:321-378 | the base case costs the base with no colour; the three premium scenarios cost at least the base in increasing order and are red; the value-engineering cap costs at most the base and is green |
| Budget.TruncMonotone | scripts/generate_budget_artifacts.py:363 | `int()` of non-negative amounts keeps their order |
| Budget.Ratio | scripts/generate_budget_artifacts.py:803 | true division raises `ZeroDivisionError` exactly on a zero divisor and otherwise gives the quotient |
| Budget.FastTrackAtLeastBase | scripts/generate_budget_artifacts.py:780 | with a non-negative premium the fast-track cost is at least the standard cost and at most the exact premium cost |
| Budget.FastTrackCosts | scripts/generate_budget_artifacts.py:778-780 | every category's fast-track cost is its own `int(base * (1 + premium))` |
| Budget.FastTrackTable | scripts/generate_budget_artifacts.py:777-806 | one row per category in order, the standard total, the sum of truncated fast-track costs and their relative premium |
| Budget.FastTrackTotalAtLeastBase | scripts/generate_budget_artifacts.py:795-796 | with non-negative costs and premiums the fast-track total is at least the standard total |
| Budget.FastTrackExampleTotals | scripts/generate_budget_artifacts.py:747-796 | the sheet's totals are 647,500 and 731,091; truncating the exact sum instead would give 731,092 |
| Budget.FastTrackExampleCosts | scripts/generate_budget_artifacts.py:747-780 | the seven fast-track costs of the example |
| Budget.SavingsWithinStandard | scripts/generate_budget_artifacts.py:919-920 | with a savings share between 0 and 1 the savings and the value-engineered cost both lie between 0 and the standard cost |
| Budget.ValueEngineeringTable | scripts/generate_budget_artifacts.py:914-946 | one row per opportunity, the running totals equal the column sums, and the reduction is savings over standard |
| Budget.TotalSavingsWithinStandard | scripts/generate_budget_artifacts.py:914-934 | total savings lie between 0 and the total standard cost |
| Budget.ValueEngineeringExampleTotals | scripts/generate_budget_artifacts.py:905-934 | the sheet's totals are 135,860 standard and 30,998 of savings |
| StructuredData.StoreIdInjective | scripts/generate_structured_data.py:340 | different project numbers give different `Store-N` ids |
| StructuredData.CompletionDateFields | scripts/generate_structured_data.py:372 | the completion date is ten characters, starts with `2024-`, and its month and day fields read back as the drawn month and day |
| StructuredData.ProjectBounds | scripts/generate_structured_data.py:340-390 | whatever was drawn, a record keeps its id and size, names one of the seven markets, has timeline and variance within their ranges, two lessons, a total within 15% of the type's base cost, and categories summing to the total less under seven units |
| StructuredData.TotalCostBounds | scripts/generate_structured_data.py:343-356 | the total cost lies within 15% of the type's cost per square foot times its size, and is not negative |
| StructuredData.CumValues | scripts/generate_structured_data.py:328-334 | the running counts of the five store types are 0, 80, 100, 130, 155 and 160 |
| StructuredData.CumMonotone | scripts/generate_structured_data.py:328-334 | the running count never decreases |
| StructuredData.TypeIndex | scripts/generate_structured_data.py:338-339 | the `j`-th record belongs to the type whose block of consecutive positions contains `j` |
| StructuredData.TypeIndexUnique | scripts/generate_structured_data.py:338-339 | that block is the only one containing `j` |
| StructuredData.TypeGrouping | scripts/generate_structured_data.py:328-339 | records 0-79 are suburban standard, 80-99 urban flagship, 100-129 express compact, 130-154 remodel refresh, 155-159 prototype innovation |
| StructuredData.HistoricalProjects | scripts/generate_structured_data.py:325-393 | 160 records, the `j`-th numbered `50 + j` and built from its type row and its own draws |
| StructuredData.GenerateHistoricalProjects | scripts/generate_structured_data.py:336-393 | the nested loop over the type table produces exactly those records, in that order |
| StructuredData.ProjectIds | scripts/generate_structured_data.py:336-393 | the records are numbered Store-50 to Store-209 |
| StructuredData.HeaderRow | scripts/generate_structured_data.py:401 | the header row is the field names, in order |
| StructuredData.HistoricalCategoryFields | scripts/generate_structured_data.py:397-399 | the category columns of the project CSV are named by the category keys, in key order |
| StructuredData.HistoricalRowCategories | scripts/generate_structured_data.py:404-421 | each category column of a record's row holds that record's amount for the category named by the column |
| StructuredData.WriteHistoricalCsv | scripts/generate_structured_data.py:396-422 | the header, then one row per record in record order |
| StructuredData.RegionalCategoryFields | scripts/generate_structured_data.py:595-596 | the modifier columns of the regional CSV are named by the category keys, in key order |
| StructuredData.RegionalRow | scripts/generate_structured_data.py:601-607 | market, state and tier first, then each modifier under its category's column, then the notes |
| StructuredData.WriteRegionalCsv | scripts/generate_structured_data.py:594-608 | the header, then one row per market in order |
| MeetingTranscripts.FromConfig | scripts/generate_meeting_transcripts.py:204-212 | configured participants: an unknown name raises `ValueError`; otherwise one participant per entry |
| MeetingTranscripts.FromConfigMeaning | scripts/generate_meeting_transcripts.py:204-234 | the configured list succeeds exactly when every name is known, and then entry `i` becomes that name with its configured role (or the persona's), the persona's team or `''`, and the persona |
| MeetingTranscripts.ConfiguredAs | scripts/generate_meeting_transcripts.py:206-211 | the participant keeps the configured name, takes the configured role or else the persona's, and the persona's team or `''` |
| MeetingTranscripts.FromRoles | scripts/generate_meeting_transcripts.py:213-224 | auto-selection raises `KeyError` exactly when a matched persona has no team; otherwise each participant is the first persona of one of the required roles, with that persona's name, role and team |
| MeetingTranscripts.FromRolesCovers | scripts/generate_meeting_transcripts.py:213-242 | every required role that some persona has is represented among the selected participants |
| MeetingTranscripts.RelevantRoles | scripts/generate_meeting_transcripts.py:288-301 | a role is relevant exactly when a topic keyword contained in the lower-cased topic lists it |
| MeetingTranscripts.WithRoles | scripts/generate_meeting_transcripts.py:308 | keeps only participants whose role is relevant and drops none of them |
| MeetingTranscripts.WithRolesIsSelection | scripts/generate_meeting_transcripts.py:308 | the filter equals the order-preserving selection of the participants whose role is relevant |
| MeetingTranscripts.WithRolesInOrder | scripts/generate_meeting_transcripts.py:308 | the speakers are the participants with a relevant role at strictly increasing positions, and every such participant is among them |
| MeetingTranscripts.WithRolesCount | scripts/generate_meeting_transcripts.py:308 | there are exactly as many speakers as participants with a relevant role |
| MeetingTranscripts.SelectSpeakersForTopic | scripts/generate_meeting_transcripts.py:286-310 | the keyword scan and filter compute the topic's speakers |
| MeetingTranscripts.SpeakersChoice | scripts/generate_meeting_transcripts.py:303-310 | the speakers are drawn from the participants and empty only when there are none; all participants when no role is relevant or nobody has one; otherwise only participants with a relevant role |
| MeetingTranscripts.ModifierFor | scripts/generate_meeting_transcripts.py:338-341 | a category's modifier is found exactly when the market lists the category |
| MeetingTranscripts.DialogueText | scripts/generate_meeting_transcripts.py:312-351 | the text is `None` exactly for a regional topic without an electrical modifier; a first cost turn without history gives the $35,000 line; a constraint topic gives the landlord line |
| MeetingTranscripts.PrefixSumFits | scripts/generate_meeting_transcripts.py:261-263 | the turns of the first `k` topics plus the next topic's stay within all drawn turns |
| MeetingTranscripts.PrefixSumBound | scripts/generate_meeting_transcripts.py:261-263 | the turns of the first topics never exceed all drawn turns |
| MeetingTranscripts.TopicTurns | scripts/generate_meeting_transcripts.py:263-282 | a topic yields exactly its drawn number of turns, turn `i` by speaker `i mod len(speakers)` |
| MeetingTranscripts.DialogueUpTo | scripts/generate_meeting_transcripts.py:244-284 | the dialogue so far has one turn per drawn turn, or the `ZeroDivisionError` of a topic without speakers |
| MeetingTranscripts.GenerateDialogue | scripts/generate_meeting_transcripts.py:244-284 | the nested loop over sections, topics and turns computes that dialogue |
| MeetingTranscripts.DialogueStep | scripts/generate_meeting_transcripts.py:256-282 | one more topic raises when it has no speakers, and otherwise appends its turns |
| MeetingTranscripts.TopicDialogue | scripts/generate_meeting_transcripts.py:263-282 | the inner loop appends the topic's turns and advances the clock by their gaps |
| MeetingTranscripts.DialogueStamps | scripts/generate_meeting_transcripts.py:248-282 | turn `j` of the dialogue is stamped with the clock at its start |
| MeetingTranscripts.TopicTurnsStamps | scripts/generate_meeting_transcripts.py:276-282 | the turns of one topic are stamped with the clock at their start |
| MeetingTranscripts.StampsExtend | scripts/generate_meeting_transcripts.py:276-282 | appending correctly stamped turns keeps every stamp correct |
| MeetingTranscripts.DialogueShape | scripts/generate_meeting_transcripts.py:251-284 | the dialogue fails exactly when there are topics and no participants; otherwise it has two to four turns per topic |
| MeetingTranscripts.DialogueSpeakers | scripts/generate_meeting_transcripts.py:263-310 | every turn is spoken by one of the participants |
| MeetingTranscripts.TopicTurnsSpeakers | scripts/generate_meeting_transcripts.py:264-279 | the turns of a topic are spoken by its speakers |
| MeetingTranscripts.SpokenByExtend | scripts/generate_meeting_transcripts.py:279 | appending turns spoken by participants keeps every turn spoken by one |
| MeetingTranscripts.FullText | scripts/generate_meeting_transcripts.py:378 | joining the texts raises `TypeError` exactly when some turn's text is `None` |
| MeetingTranscripts.StoreMentions | scripts/generate_meeting_transcripts.py:380-382 | every match of `Store-\d+` is `Store-` followed by digits |
| MeetingTranscripts.StoreMentionFound | scripts/generate_meeting_transcripts.py:380-382 | a mention followed by a non-digit is matched whole, and matching goes on after it |
| MeetingTranscripts.StoreMentionsComplete | scripts/generate_meeting_transcripts.py:380-382 | wherever `Store-` and a run of digits occur in the text, the store id running to the end of those digits is among the matches |
| MeetingTranscripts.VendorsIn | scripts/generate_meeting_transcripts.py:385-387 | a vendor is tagged exactly when its canonical name occurs in the text |
| MeetingTranscripts.ExtractTags | scripts/generate_meeting_transcripts.py:360-389 | `TypeError` exactly when a text is `None`; otherwise a strictly ascending list of exactly the configured tags, the store mentions and the vendors named in the text |
| MeetingTranscripts.ConfiguredTags | scripts/generate_meeting_transcripts.py:364-375 | the configured tags: the store id when it starts with `Store-`, and each truthy context entry |
| MeetingTranscripts.ElemsAppend | scripts/generate_meeting_transcripts.py:378-389 | the tags of two lists together are the tags of each |
| MeetingTranscripts.ExtractActionItems | scripts/generate_meeting_transcripts.py:391-413 | `TypeError` on a `None` text; `IndexError` when there is a match and no participant; otherwise the first five matches, each owned by the first participant and with no due date |
| MeetingTranscripts.MapReferences | scripts/generate_meeting_transcripts.py:415-436 | the historical store line when there is history, the template line when there is a template, then one line per regional modifier, in that order |
| MeetingTranscripts.DurationText | scripts/generate_meeting_transcripts.py:450 | a non-negative duration is written as `HH:MM` of its minutes |
| MeetingTranscripts.DurationReadsBack | scripts/generate_meeting_transcripts.py:450 | reading the duration back gives the minutes it was written from |
| MeetingTranscripts.ActionBlock | scripts/generate_meeting_transcripts.py:466-470 | no block without items; otherwise the heading and one line per item |
| MeetingTranscripts.ReferenceBlock | scripts/generate_meeting_transcripts.py:473-476 | no block without references; otherwise the heading and one line per reference |
| MeetingTranscripts.HeaderLines | scripts/generate_meeting_transcripts.py:444-452 | the title-cased meeting type, the date, one line per participant, the duration and the store or topic, in that order |
| MeetingTranscripts.ParticipantLines | scripts/generate_meeting_transcripts.py:448-449 | one `  - name (role) - team` line per participant, in order |
| MeetingTranscripts.DialogueLines | scripts/generate_meeting_transcripts.py:456-457 | one `stamp speaker: text` line per turn, in order |
| MeetingTranscripts.TranscriptLayout | scripts/generate_meeting_transcripts.py:438-478 | the transcript's lines are the header, the dialogue, the tags line, then the action and reference blocks, at the positions their lengths give |
| MeetingTranscriptsV2.TypeOf | scripts/generate_meeting_transcripts_v2.py:77-138 | a meeting type outside the five known ones is kept by its own name |
| MeetingTranscriptsV2.TypeNameRoundTrip | scripts/generate_meeting_transcripts_v2.py:77-138 | reading a meeting type and writing it back gives the same name |
| MeetingTranscriptsV2.StoreNumber | scripts/generate_meeting_transcripts_v2.py:81 | a store id that is not a string raises `AttributeError`; a parsed store number is never negative |
| MeetingTranscriptsV2.SiteVisitContext | scripts/generate_meeting_transcripts_v2.py:79-91 | the site-visit context carries the store id and the store twelve numbers earlier as the historical store |
| MeetingTranscriptsV2.LessonsContext | scripts/generate_meeting_transcripts_v2.py:110-122 | the lessons-learned context carries the store id |
| MeetingTranscriptsV2.PrepareContextRaises | scripts/generate_meeting_transcripts_v2.py:73-153 | only a site-visit debrief can raise, and a `None` store id raises `AttributeError` |
| MeetingTranscriptsV2.HistoricalStoreOf | scripts/generate_meeting_transcripts_v2.py:78-81 | for `Store-n` the context holds `Store-n` and `Store-(n-12)` |
| MeetingTranscriptsV2.StoreNumberOf | scripts/generate_meeting_transcripts_v2.py:81 | the number read from `Store-n` is `n` |
| MeetingTranscriptsV2.DefaultSiteVisitStores | scripts/generate_meeting_transcripts_v2.py:78-81 | without a configured store the site visit is about Store-201 with Store-189 as history |
| MeetingTranscriptsV2.LessonsStore | scripts/generate_meeting_transcripts_v2.py:109-111 | the lessons-learned store is the configured one, Store-189 by default |
| MeetingTranscriptsV2.StoreWithoutDash | scripts/generate_meeting_transcripts_v2.py:81 | a store id without a dash raises `IndexError` |
| MeetingTranscriptsV2.Directory | scripts/generate_meeting_transcripts_v2.py:209-212 | a name is in the directory exactly when the persona lookup finds it, and maps to the first persona of that name |
| MeetingTranscriptsV2.RolePersonas | scripts/generate_meeting_transcripts_v2.py:190-214 | a role is mapped exactly when a scenario uses it, the role map knows it and the mapped name is a persona; it maps to that persona |
| MeetingTranscriptsV2.FindPersona | scripts/generate_meeting_transcripts_v2.py:209-212 | the scan finds a persona exactly when the lookup does, and returns the first one of that name |
| MeetingTranscriptsV2.MapRolesToPersonas | scripts/generate_meeting_transcripts_v2.py:190-214 | the loop over scenarios builds exactly the role-to-persona map |
| MeetingTranscriptsV2.RolePersonasAdd | scripts/generate_meeting_transcripts_v2.py:204-212 | one more scenario role adds its persona when it has one and leaves the map as it was otherwise |
| MeetingTranscriptsV2.RolesGrow | scripts/generate_meeting_transcripts_v2.py:204-205 | the roles of one more scenario are the previous roles and its own |
| MeetingTranscriptsV2.ScenarioText | scripts/generate_meeting_transcripts_v2.py:168-172 | a scenario's text succeeds exactly when formatting fills it or fails only on a missing key; other format errors propagate |
| MeetingTranscriptsV2.MissingKeyKeepsTemplate | scripts/generate_meeting_transcripts_v2.py:170-172 | a template naming a missing key is used as it is |
| MeetingTranscriptsV2.PresentKeyFilled | scripts/generate_meeting_transcripts_v2.py:169 | a present key is replaced by its value |
| MeetingTranscriptsV2.EntryResults | scripts/generate_meeting_transcripts_v2.py:163-186 | one result per scenario, in order |
| MeetingTranscriptsV2.GenerateDialogueFromScenarios | scripts/generate_meeting_transcripts_v2.py:155-188 | the role mapping and the scenario loop compute the scenario dialogue |
| MeetingTranscriptsV2.RunTurns | scripts/generate_meeting_transcripts_v2.py:163-188 | the loop stops at the first scenario whose text raises, and otherwise collects every entry |
| MeetingTranscriptsV2.EntryStep | scripts/generate_meeting_transcripts_v2.py:163-186 | one more entry is appended, or its error ends the dialogue |
| MeetingTranscriptsV2.ScenarioDialogueShape | scripts/generate_meeting_transcripts_v2.py:155-188 | the dialogue succeeds exactly when every scenario's text does, fails only with `IndexError` or `ValueError`, and has one entry per scenario with its text and its clock stamp |
| MeetingTranscriptsV2.ScenarioSpeakers | scripts/generate_meeting_transcripts_v2.py:175-212 | each entry's speaker is the mapped persona's name and role, or `Unknown` with the scenario's role |
| MeetingTranscriptsV2.SpeakersUnder | scripts/generate_meeting_transcripts_v2.py:175-182 | the same for any role map and persona directory |
| MeetingTranscriptsV2.ScenarioStamps | scripts/generate_meeting_transcripts_v2.py:155-188 | the first entry is at `[00:00:00]`, and between entries `j < k` the clock advances by 30 to 180 seconds per entry |
| MeetingTranscriptsV2.UniqueParticipants | scripts/generate_meeting_transcripts_v2.py:240-244 | the loop keeps each speaker at their first appearance |
| MeetingTranscriptsV2.FirstAppearancesStep | scripts/generate_meeting_transcripts_v2.py:242-244 | one more entry adds its speaker only when the speaker is new |
| MeetingTranscriptsV2.FirstAppearancesCover | scripts/generate_meeting_transcripts_v2.py:240-244 | the participants are exactly the speakers |
| MeetingTranscriptsV2.FirstAppearancesDistinct | scripts/generate_meeting_transcripts_v2.py:240-244 | no participant is listed twice |
| MeetingTranscriptsV2.FirstAppearancesFirstRole | scripts/generate_meeting_transcripts_v2.py:243-244 | each participant carries the role of the speaker's first entry |
| MeetingTranscriptsV2.FirstAppearancesOrder | scripts/generate_meeting_transcripts_v2.py:246 | participants are listed in the order they first speak |
| MeetingTranscriptsV2.TeamForRole | scripts/generate_meeting_transcripts_v2.py:287-299 | an unmapped role belongs to `ANF` |
| MeetingTranscriptsV2.TeamMapMatchesRoleMap | scripts/generate_meeting_transcripts_v2.py:192-201 | the team map and the role map name the same roles |
| MeetingTranscriptsV2.DialogueDuration | scripts/generate_meeting_transcripts_v2.py:250-253 | an empty dialogue raises `IndexError`; otherwise the duration is read exactly when the last stamp parses |
| MeetingTranscriptsV2.ScenarioDuration | scripts/generate_meeting_transcripts_v2.py:250-254 | the duration is the last entry's start time in whole minutes |
| MeetingTranscriptsV2.TagSet | scripts/generate_meeting_transcripts_v2.py:301-324 | the configured store and every type tag are among the tags |
| MeetingTranscriptsV2.SiteVisitTags | scripts/generate_meeting_transcripts_v2.py:301-324 | a site visit about `Store-n` has exactly four tags: the two stores and the two type tags |
| MeetingTranscriptsV2.TagsOfStores | scripts/generate_meeting_transcripts_v2.py:305-314 | the same four tags for any context holding those stores |
| MeetingTranscriptsV2.ActionItems | scripts/generate_meeting_transcripts_v2.py:326-356 | two items per known meeting type, one for the weekly sync, none otherwise, each due the next Friday |
| MeetingTranscriptsV2.Tasks | scripts/generate_meeting_transcripts_v2.py:331-354 | the number of tasks per meeting type |
| MeetingTranscriptsV2.CommaGrouped | scripts/generate_meeting_transcripts_v2.py:363 | the `:,` format succeeds exactly on integers |
| MeetingTranscriptsV2.References | scripts/generate_meeting_transcripts_v2.py:358-374 | only a site visit can raise, and there are either no references or two |
| MeetingTranscriptsV2.ParticipantLines | scripts/generate_meeting_transcripts_v2.py:246-248 | one `  - name (role) - team` line per participant, in order |
| MeetingTranscriptsV2.HeaderLines | scripts/generate_meeting_transcripts_v2.py:236-257 | the meeting, date and participants heading, the participants, the duration, the store or topic, the separator and a blank line |
| MeetingTranscriptsV2.EntryLines | scripts/generate_meeting_transcripts_v2.py:260-261 | one `stamp speaker: text` line per entry, in order |
| MeetingTranscriptsV2.FormatTranscript | scripts/generate_meeting_transcripts_v2.py:223-285 | an empty dialogue raises `IndexError`; a transcript exists only when the duration and the references do |
| MeetingTranscriptsV2.AssembleLayout | scripts/generate_meeting_transcripts_v2.py:256-285 | the header, the entries, a blank line, the separator, the tags line, then the action and reference blocks, at the positions their lengths give |
| MeetingTranscriptsV2.FilenameWithoutStore | scripts/generate_meeting_transcripts_v2.py:386-389 | without a store the file is named after the topic, `general` by default, while the header says `General` |
| MeetingTranscriptsV2.FilenameWithStore | scripts/generate_meeting_transcripts_v2.py:386-389 | with a store the file is named `type_store_date.txt` |
| EnhancedDialogue.VariancePct | scripts/generate_enhanced_dialogue.py:37-38 | a zero estimate raises `ZeroDivisionError`; otherwise the percentage is non-negative and is the variance's size as a percentage of the estimate's |
| EnhancedDialogue.PercentOfEstimate | scripts/generate_enhanced_dialogue.py:38 | `abs(v / e * 100)` times the estimate's size is 100 times the variance's size |
| EnhancedDialogue.ToneOf | scripts/generate_enhanced_dialogue.py:41-48 | "under", "saved" and "cost savings" exactly when the actual cost is below the estimate; "over" otherwise |
| EnhancedDialogue.Texts | scripts/generate_enhanced_dialogue.py:56-112 | one text per turn of the fixed speaking order |
| EnhancedDialogue.Script | scripts/generate_enhanced_dialogue.py:56-112 | eleven turns, turn `i` spoken by the cast member the order names, with its text and no stamp yet |
| EnhancedDialogue.Stamped | scripts/generate_enhanced_dialogue.py:115-123 | turn `i` gets the stamp of the clock at its start and nothing else changes |
| EnhancedDialogue.AddTimestamps | scripts/generate_enhanced_dialogue.py:115-123 | the stamping loop, in place on the dialogue list, leaves exactly the stamped turns |
| EnhancedDialogue.GenerateLessonsLearnedDialogue | scripts/generate_enhanced_dialogue.py:25-125 | the texts for the variance, stamped in order, or the exception of a zero estimate |
| EnhancedDialogue.StampScript | scripts/generate_enhanced_dialogue.py:56-123 | the list built from the texts and then stamped in place is the stamped script |
| EnhancedDialogue.DialogueShape | scripts/generate_enhanced_dialogue.py:25-125 | the dialogue fails exactly on a zero estimate; otherwise turn speakers follow the fixed order, the first stamp is `[00:00:00]` and later stamps read back 30 to 180 seconds per turn later |
| EnhancedDialogue.StampedScriptShape | scripts/generate_enhanced_dialogue.py:56-123 | any stamped script has that speaker order and stamp spacing |
| EnhancedDialogue.TeamForRole | scripts/generate_enhanced_dialogue.py:169-177 | a role in the team table gets its team, any other role `ANF` |
| EnhancedDialogue.TeamsAgreeWithV2 | scripts/generate_enhanced_dialogue.py:171-176 | for every role in its table the demo's team is the one the v2 generator gives the role |
| EnhancedDialogue.Voices | scripts/generate_enhanced_dialogue.py:138-140 | the participant scan reads each turn's speaker and role, in order |
| EnhancedDialogue.ParticipantLines | scripts/generate_enhanced_dialogue.py:142-144 | one line `  - name (role) - team` per participant, in order |
| EnhancedDialogue.TurnLines | scripts/generate_enhanced_dialogue.py:154-155 | one line `stamp speaker: text` per turn, in order |
| EnhancedDialogue.ItemsAgreeWithV2 | scripts/generate_enhanced_dialogue.py:160-162 | the two action items are the v2 generator's lessons-learned items, due the Friday after the meeting |
| EnhancedDialogue.FormatDialogueAsTranscript | scripts/generate_enhanced_dialogue.py:127-167 | an empty dialogue raises `IndexError`; a turn without a stamp raises `KeyError`; a transcript exists only when every turn is stamped |
| EnhancedDialogue.ScriptParticipants | scripts/generate_enhanced_dialogue.py:56-112 | the participants of the script are the four people, in order of first appearance |
| EnhancedDialogue.FirstFive | scripts/generate_enhanced_dialogue.py:56-80 | the first five turns introduce all four people |
| EnhancedDialogue.LaterTurnsRepeat | scripts/generate_enhanced_dialogue.py:82-140 | no later turn adds anyone |
| EnhancedDialogue.CastNamesDistinct | scripts/generate_enhanced_dialogue.py:56-80 | the four speakers have different names |
| EnhancedDialogue.Introduce | scripts/generate_enhanced_dialogue.py:138-140 | a turn by the next new speaker adds them to the participants |
| EnhancedDialogue.Repeat | scripts/generate_enhanced_dialogue.py:138-140 | a turn by a listed speaker leaves the participants as they are |
| EnhancedDialogue.FirstStep | scripts/generate_enhanced_dialogue.py:138-140 | one more turn adds its speaker exactly when the speaker is new |
| EnhancedDialogue.GeneratedTranscript | scripts/generate_enhanced_dialogue.py:25-167 | a generated dialogue lists the four people and formats to the transcript whose duration is the last turn's start in whole minutes |
| EnhancedDialogue.StampedTranscript | scripts/generate_enhanced_dialogue.py:115-167 | the same for any stamped script |
| EnhancedDialogue.FormatStamped | scripts/generate_enhanced_dialogue.py:127-167 | a non-empty, fully stamped dialogue formats to its header, turns and footer lines joined by newlines |
| TeamsConversations.ThemeTemplateFor | scripts/generate_teams_conversations.py:41-62 | every theme, known or not, draws between two and seven messages, the lower bound never above the upper |
| TeamsConversations.Initials | scripts/generate_teams_conversations.py:160 | the prefix fails with `IndexError` exactly when a dash-separated word is empty; otherwise it is the first letter of each word |
| TeamsConversations.ThreadIdParts | scripts/generate_teams_conversations.py:157-163 | the id exists exactly when no word of the channel name is empty; it is the initials, `_`, the date without dashes, `_`, and three digits that read back as the counter |
| TeamsConversations.IdLayout | scripts/generate_teams_conversations.py:163 | where the prefix, the date and the digits sit in `prefix_date_digits` |
| TeamsConversations.PoolLookup | scripts/generate_teams_conversations.py:172-198 | a pool name is found exactly when some persona has it, and becomes that persona's name, role and team; otherwise `ValueError` |
| TeamsConversations.PoolLookups | scripts/generate_teams_conversations.py:172-178 | one lookup per pool name, in order |
| TeamsConversations.FromPoolMeaning | scripts/generate_teams_conversations.py:170-178 | the pool path succeeds exactly when every name is known, raises `ValueError` otherwise, and keeps the names in order |
| TeamsConversations.FromRoles | scripts/generate_teams_conversations.py:180-188 | auto-selection gives at most one participant per required role |
| TeamsConversations.FromRolesIsSelection | scripts/generate_teams_conversations.py:180-188 | auto-selection equals the order-preserving selection of the first persona of each role that some persona has |
| TeamsConversations.FromRolesInOrder | scripts/generate_teams_conversations.py:180-188 | participant k is the first persona of the role at the k-th of strictly increasing role positions, and every role some persona has is among those positions |
| TeamsConversations.FromRolesCount | scripts/generate_teams_conversations.py:180-188 | there are exactly as many participants as required roles that some persona has |
| TeamsConversations.FromRolesDrawn | scripts/generate_teams_conversations.py:180-206 | each selected participant is the first persona of one of the required roles |
| TeamsConversations.FromRolesCovers | scripts/generate_teams_conversations.py:180-188 | every required role some persona has is represented |
| TeamsConversations.ParticipantsBounds | scripts/generate_teams_conversations.py:165-190 | with a pool, at most its first four names, failing exactly when one of them is unknown; without a pool, at most one participant per required role |
| TeamsConversations.SelectParticipants | scripts/generate_teams_conversations.py:165-190 | the method selects exactly those participants |
| TeamsConversations.ParticipantsFromPool | scripts/generate_teams_conversations.py:170-178 | the loop over the first pool names computes the pool path |
| TeamsConversations.ParticipantsFromRoles | scripts/generate_teams_conversations.py:180-188 | the loop over the required roles computes the role path |
| TeamsConversations.ReactionsOf | scripts/generate_teams_conversations.py:290-307 | the first and the last message get three to five reactions, others at most three, each an emoji from the list with a count from one to four |
| TeamsConversations.GenerateReactions | scripts/generate_teams_conversations.py:290-307 | the loop builds exactly those reactions |
| TeamsConversations.LastBoostEmitted | scripts/generate_teams_conversations.py:290-296 | the boosted last message is emitted exactly when the drawn count does not exceed the number of templates |
| TeamsConversations.KeywordTags | scripts/generate_teams_conversations.py:309-325 | each of the four keyword tags is present exactly when its keywords occur, at most once |
| TeamsConversations.ExtractTagsFromMessage | scripts/generate_teams_conversations.py:309-330 | the message's tags are the keyword tags followed by the store id when one is configured |
| TeamsConversations.MessageTemplates | scripts/generate_teams_conversations.py:252-288 | three to five templates per theme, the fallback included |
| TeamsConversations.TemplateCount | scripts/generate_teams_conversations.py:252-288 | every theme has between three and five templates |
| TeamsConversations.DateTimeTextReadsBack | scripts/generate_teams_conversations.py:214-248 | a stamp reads back as the date of its day, a space, and hours and minutes that give back the minutes since the base date |
| TeamsConversations.ClockReadsBack | scripts/generate_teams_conversations.py:237 | the clock part ` HH:MM:00` reads back as the minutes within the day |
| TeamsConversations.MinutesSplit | scripts/generate_teams_conversations.py:237 | days, hours and minutes add back up to the minutes |
| TeamsConversations.PostMinute | scripts/generate_teams_conversations.py:214-248 | no message is posted before 9 AM of the base date |
| TeamsConversations.PostMinutesAdvance | scripts/generate_teams_conversations.py:215-248 | the first message is at 9 AM and each later one 15 to 180 minutes after the previous |
| TeamsConversations.FirstPostStamp | scripts/generate_teams_conversations.py:214-237 | the first stamp is the base date at `09:00:00` |
| TeamsConversations.MessageAt | scripts/generate_teams_conversations.py:220-245 | message `i` is by participant `i mod len(participants)`, posted at its minute and tagged from its text; no participants raise `ZeroDivisionError`, and the other errors are those of formatting |
| TeamsConversations.MessageResults | scripts/generate_teams_conversations.py:220 | one result per message position, `min(count, templates)` of them |
| TeamsConversations.MessagesShape | scripts/generate_teams_conversations.py:208-250 | no participants raise `ZeroDivisionError`; otherwise `min(count, templates)` messages, each by its rotating author |
| TeamsConversations.ComposeMessage | scripts/generate_teams_conversations.py:222-245 | one loop step composes message `i` at the current time |
| TeamsConversations.GenerateMessages | scripts/generate_teams_conversations.py:208-250 | the loop over templates computes the messages |
| TeamsConversations.MessageStep | scripts/generate_teams_conversations.py:220-248 | one more message is appended, or its error ends the loop |
| TeamsConversations.ActionItemsOf | scripts/generate_teams_conversations.py:343-358 | at most one action item per message |
| TeamsConversations.ActionItemsFromMessages | scripts/generate_teams_conversations.py:347-358 | each action item is the first 100 characters of a message with an action phrase, owned by its author, status `open` |
| TeamsConversations.ExtractActionItems | scripts/generate_teams_conversations.py:343-359 | the loop keeps the first three such items |
| TeamsConversations.ActionItemsBounds | scripts/generate_teams_conversations.py:343-359 | at most three items, each description at most 100 characters, open, and from some message |
| TeamsConversations.StoreRefAt | scripts/generate_teams_conversations.py:375-376 | a match of `Store[- ]#?(\d+)` captures a non-empty run of digits |
| TeamsConversations.StoreRefs | scripts/generate_teams_conversations.py:375-377 | every store reference is `Store-` followed by digits |
| TeamsConversations.StoreRefAtMatch | scripts/generate_teams_conversations.py:375-376 | `Store-`, `Store `, `Store-#` or `Store #` before digits is matched with all its digits |
| TeamsConversations.StoreRefNormalised | scripts/generate_teams_conversations.py:375-377 | such a mention is recorded as `Store-` and its digits, and matching continues after it |
| TeamsConversations.GenerateReferences | scripts/generate_teams_conversations.py:361-397 | the stores found in the joined text, the given vendors, a site-visit meeting file only for a follow-up with a store, and one historical-projects reference when there is a store |
| TeamsConversations.GenerateThread | scripts/generate_teams_conversations.py:117-155 | the method computes the thread |
| TeamsConversations.ThreadShape | scripts/generate_teams_conversations.py:117-155 | a thread has `min(count, templates)` messages, at most four pool participants, at most three action items, and message `i` is by participant `i mod len(participants)` |
| TeamsConversations.ThreadEntries | scripts/generate_teams_conversations.py:417-432 | one index entry per store reference, in order, pointing at `channel.json#thread_id` |
| TeamsConversations.IndexEntriesAppend | scripts/generate_teams_conversations.py:417-432 | the entries of appended threads follow those of the earlier threads |
| TeamsConversations.ThreadResults | scripts/generate_teams_conversations.py:92-97 | one thread result per configured theme |
| TeamsConversations.ThreadResultsAt | scripts/generate_teams_conversations.py:92-97 | result `k` is the thread of theme `k` with its own draws |
| TeamsConversations.GenerateThreadAt | scripts/generate_teams_conversations.py:93-97 | one loop step generates the thread of theme `k` |
| TeamsConversations.Channel.constructor | scripts/generate_teams_conversations.py:79-89 | a channel starts with its name and the threads already saved for it |
| TeamsConversations.Channel.GenerateConversations | scripts/generate_teams_conversations.py:64-107 | the first failing thread raises its error and the channel file keeps its threads, since the save follows the loop; otherwise one new thread per theme is appended to the existing ones, in order, and the index lists the entries of all threads |
| TeamsConversations.IndexAfterGeneration | scripts/generate_teams_conversations.py:411-432 | the index of the grown channel starts with the entries of the threads that were there before |
| Phase3Production.StoreNameInjective | scripts/run_phase3_production.py:27 | two store names are equal exactly when their numbers are |
| Phase3Production.Stores | scripts/run_phase3_production.py:27 | the generator knows 300 stores |
| Phase3Production.StoreAt | scripts/run_phase3_production.py:27 | store `i` is `Store-(101+i)` |
| Phase3Production.StoreEnds | scripts/run_phase3_production.py:26-27 | the stores run from Store-101 to Store-400 |
| Phase3Production.StoreRange | scripts/run_phase3_production.py:26-27 | a store name is listed exactly when its number is between 101 and 400, and no store is listed twice |
| Phase3Production.Successes | scripts/run_phase3_production.py:47-58 | successes never exceed the attempts |
| Phase3Production.AllGenerated | scripts/run_phase3_production.py:47-56 | a run in which every call succeeds |
| Phase3Production.AllSucceed | scripts/run_phase3_production.py:47-56 | in such a run every attempt counts as generated |
| Phase3Production.AttemptFilename | scripts/run_phase3_production.py:44-168 | each attempt's transcript is filed under its store, topic or `template-` version, dated its day offset after the base date |
| Phase3Production.RecordAllCounts | scripts/run_phase3_production.py:47-58 | recording a run counts one meeting per success and appends one error per failure, keeping the earlier errors and the thread count |
| Phase3Production.RecordAllCoverage | scripts/run_phase3_production.py:56-115 | a store is covered exactly when it was before or some successful site visit or lessons-learned meeting was about it |
| Phase3Production.RecordAllAppend | scripts/run_phase3_production.py:36-172 | recording two runs one after the other is recording them together |
| Phase3Production.RecordAllLast | scripts/run_phase3_production.py:47-58 | recording a run is recording all but its last attempt, then the last |
| Phase3Production.SiteVisitAttempts | scripts/run_phase3_production.py:42-58 | there are 50 site visits |
| Phase3Production.SiteVisitSchedule | scripts/run_phase3_production.py:44-51 | site visit `i` is about `Store-(101+6i)`, the last one Store-395 on day 373, and only the last two fall after the first year |
| Phase3Production.VendorAttempts | scripts/run_phase3_production.py:85-98 | there are 50 vendor negotiations |
| Phase3Production.VendorSchedule | scripts/run_phase3_production.py:62-87 | 51 topics of which the last is never used; quarters run from 1 to 4 with the fourth from topic 39 on, weekly within a quarter, and no negotiation later than day 340 |
| Phase3Production.LessonsAttempts | scripts/run_phase3_production.py:100-117 | there are 80 lessons-learned meetings |
| Phase3Production.LessonsSchedule | scripts/run_phase3_production.py:102-105 | lessons-learned store `i` is one of the 300 stores exactly when `i >= 51`, and only the last three fall after the first year |
| Phase3Production.Versions | scripts/run_phase3_production.py:121-129 | 40 template versions |
| Phase3Production.VersionOrder | scripts/run_phase3_production.py:121-129 | versions run from v2.0 to v5.9 in order, each once |
| Phase3Production.TemplateVersions | scripts/run_phase3_production.py:121-129 | the nested loop with its early exits builds exactly those versions |
| Phase3Production.DesignAttempts | scripts/run_phase3_production.py:131-144 | there are 40 design reviews |
| Phase3Production.WeeklyAttempts | scripts/run_phase3_production.py:159-172 | there are 30 weekly syncs |
| Phase3Production.LaterSchedule | scripts/run_phase3_production.py:131-161 | only the last design review falls after the first year; weekly syncs end by day 355, one per market in order |
| Phase3Production.Schedule | scripts/run_phase3_production.py:36-172 | 250 meetings are attempted |
| Phase3Production.RecordStep | scripts/run_phase3_production.py:47-58 | one more attempt is recorded after the previous ones |
| Phase3Production.RunInSteps | scripts/run_phase3_production.py:36-172 | the five meeting kinds are recorded one after the other |
| Phase3Production.MeetingTotals | scripts/run_phase3_production.py:36-174 | after the meetings, successes and new errors add up to 250, and the thread count is unchanged |
| Phase3Production.ScheduleCovers | scripts/run_phase3_production.py:56-115 | attempt `k` covers a store exactly when it is a site visit or a lessons-learned meeting |
| Phase3Production.ScheduleShape | scripts/run_phase3_production.py:44-104 | where the site visits and the lessons-learned meetings sit in the schedule and which stores they are about |
| Phase3Production.CoverageOf | scripts/run_phase3_production.py:56-115 | on a schedule of that shape, a store is covered exactly when one of its meetings succeeded |
| Phase3Production.MeetingCoverage | scripts/run_phase3_production.py:36-172 | after the meetings, a store is covered exactly when one of its meetings succeeded |
| Phase3Production.CoveredStoreCount | scripts/run_phase3_production.py:44-104 | the stores of site visits and lessons-learned meetings, listed without repeats, are all distinct |
| Phase3Production.FullRunCoverage | scripts/run_phase3_production.py:36-172 | when every meeting succeeds 125 stores are covered, since five site-visit stores are also lessons-learned stores |
| Phase3Production.CoveredCount | scripts/run_phase3_production.py:309 | a set holding exactly the covered stores of a fully successful run has 125 members |
| Phase3Production.SiteVisitListed | scripts/run_phase3_production.py:44-45 | every site-visit store is among the listed covered stores |
| Phase3Production.ListedIsCovered | scripts/run_phase3_production.py:56-115 | every listed store is covered in a fully successful run |
| Phase3Production.ThreadDrawRange | scripts/run_phase3_production.py:270-283 | a thread's store is one of the first 150 stores and its date lies in the year after the base date |
| Phase3Production.PlannedThreads | scripts/run_phase3_production.py:182-258 | eight channels with 250 threads in all |
| Phase3Production.ThreadErrors | scripts/run_phase3_production.py:297-298 | one error line per failed Teams call |
| Phase3Production.TeamsAccounted | scripts/run_phase3_production.py:262-298 | threads added and Teams errors add up to the threads planned |
| Phase3Production.ReportedAllGenerated | scripts/run_phase3_production.py:293-295 | when every call succeeds, the counter adds the triangle of the calls on top of the threads already in the file |
| Phase3Production.TriangleStep | scripts/run_phase3_production.py:293-295 | one more successful call adds the file's size so far to the counter |
| Phase3Production.AllGeneratedRun | scripts/run_phase3_production.py:262-298 | a Teams run in which every call succeeds |
| Phase3Production.FreshRunCounts | scripts/run_phase3_production.py:262-298 | starting from empty channel files with every call succeeding, the counter reports the sum of the channels' triangles while the threads added are the threads planned |
| Phase3Production.TeamsCounterAsWritten | scripts/run_phase3_production.py:293-295 | a fresh fully successful run reports 4325 threads although 250 were added |
| Phase3Production.ChannelTriangles | scripts/run_phase3_production.py:182-258 | the triangles of the eight channels sum to 4325 |
| Phase3Production.Bullets | scripts/run_phase3_production.py:313-314 | one indented line per error, in order |
| Phase3Production.ErrorReport | scripts/run_phase3_production.py:311-318 | no errors give the single all-clear line; otherwise the count line, the first ten errors and, past ten, a line with the number left |
| Phase3Production.ErrorReportAccounts | scripts/run_phase3_production.py:311-316 | past ten errors, the errors shown and the number in the last line add up to all errors |
| Phase3Production.SummaryLines | scripts/run_phase3_production.py:302-320 | the summary closes with the error report and the rule |
| Phase3Production.Phase3Generator.constructor | scripts/run_phase3_production.py:23-34 | a generator starts with the 300 stores, a base date one year ago and empty statistics |
| Phase3Production.Phase3Generator.AttemptMeeting | scripts/run_phase3_production.py:47-58 | one attempt is recorded in the statistics |
| Phase3Production.Phase3Generator.GenerateSiteVisits | scripts/run_phase3_production.py:42-58 | the site-visit loop records its 50 attempts |
| Phase3Production.Phase3Generator.GenerateVendorNegotiations | scripts/run_phase3_production.py:60-98 | the vendor loop records its 50 attempts |
| Phase3Production.Phase3Generator.GenerateLessonsLearned | scripts/run_phase3_production.py:100-117 | the lessons-learned loop records its 80 attempts |
| Phase3Production.Phase3Generator.GenerateDesignReviews | scripts/run_phase3_production.py:119-144 | the design-review loop records its 40 attempts |
| Phase3Production.Phase3Generator.GenerateWeeklySyncs | scripts/run_phase3_production.py:146-172 | the weekly-sync loop records its 30 attempts |
| Phase3Production.Phase3Generator.GenerateMeetings | scripts/run_phase3_production.py:36-174 | the five loops record the 250 scheduled attempts |
| Phase3Production.Phase3Generator.GenerateChannel | scripts/run_phase3_production.py:262-298 | one channel's loop adds its successes, appends an error per failure, and reports the file sizes as written |
| Phase3Production.Phase3Generator.GenerateChannels | scripts/run_phase3_production.py:262-298 | the channel loop sums what each channel adds, reports and fails |
| Phase3Production.Phase3Generator.GenerateTeamsConversations | scripts/run_phase3_production.py:176-300 | as written: the thread count grows by the channel-file sizes reported after each call |
| Phase3Production.Phase3Generator.GenerateTeamsConversationsCounted | scripts/run_phase3_production.py:176-300 | corrected: the thread count grows by the threads added, which with the errors account for all 250 calls |
| Phase3Production.Phase3Generator.Run | scripts/run_phase3_production.py:322-342 | meetings, then Teams threads with the corrected counter, then the summary; from fresh statistics, meetings, threads and errors add up to 500 |

## Left out

- File and library I/O is not modelled:
  - JSON, YAML and CSV reading and writing;
  - pandas;
  - `os.makedirs`;
  - the workbook's `save`;
  - argparse `main` functions.

  Files become values: a channel's saved threads are the `Channel` constructor's argument, and an index update is a sequence of entries.
- Spreadsheet presentation (styles, merges, widths, number formats) is left out. Only cell values are modelled.
- `random` is not modelled. Each draw is a parameter whose `requires` gives the source's range.
- `datetime.now()` and `strptime` are not modelled. Dates are day ordinals and "today" is a parameter, so a malformed date string is not represented.
- Floating point is modelled exactly. Multipliers and percentages are exact reals and `int()` is truncation toward zero, so results that float rounding would shift are not claimed. `round(x, 2)` and `:.0f` formatting are left out.
- Float text is not rendered: a regional modifier such as `1.08` is given as its already-rendered string.
- Regular expressions are partly parameters. The action-item patterns and the vendor name pattern are supplied as lists of matches. The `Store-\d+` and `Store[- ]#?(\d+)` scans are modelled directly, on ASCII digits.
- `str.lower()` and `str.title()` are modelled on ASCII letters only.
- Python `int()` is modelled only on plain digit strings. Leniency such as a sign, surrounding spaces or underscores is not modelled.
- MeetingTranscriptsV2.TagSet: the tags are a set. `list(set(tags))` has an order that depends on string hashing, so the order of the TAGS line is not modelled.
- MeetingTranscriptsV2.References: the contract states when it raises and how many lines there are, not each line's text. That text includes a rendered float.
- MeetingTranscriptsV2.FormatTranscript: the contract states only the error cases. The layout of a successful transcript is stated by AssembleLayout.
- `EnhancedMeetingGenerator.generate_transcript` and `_update_conversation_index` are not modelled. They load a template file and write files around the modelled steps.
- A historical-data dictionary that lacks a key the demo reads is not modelled; the enhanced-dialogue demo takes complete historical data.
- The enhanced-dialogue `main` is not modelled. It only prints the demo transcript.
- Phase 3: the progress lines printed before the summary are left out.
- Phase 3: each generator call is an outcome parameter, done or the text of its exception, so the transcript and thread contents are not recomputed there.
- Phase 3: a failing Teams call is taken to fail before its thread is appended to the channel file. The channel file then grows only by successful calls.
- Phase 3: the participant strings in the meeting configs are not used by the v2 generator, so they are not modelled.
- Phase3Production.Phase3Generator.Run: the statistics use the corrected Teams counter (see Findings), not the counter as written.
- Phase3Production.Phase3Generator.GenerateTeamsConversations: each channel's file size before the run is a parameter (`onDisk`), not read from disk.
- The other budget workbook sheets are not modelled: detailed line items, data sources, agent instructions, the configuration and constraint templates, the master index and the sample workflow. They hold literal text, formula strings and static tables, with no computation beyond what the modelled sheets do.
- TemplateFormat.Format: a format spec or conversion after `:` or `!` (such as `{x:,}` or `{x!r}`) is read past and not applied, and a field nested in a format spec (`{a:{b}}`), which Python accepts, is treated as malformed. The templates the generators use hold only plain `{name}` fields.
- TeamsConversations.IndexEntries: the `key_topics` column is left out. It is a set of message tags joined in an order that depends on string hashing.
- `generate_structured_data.py` is modelled only for its historical-project records and the two CSV files. Its other outputs are static literal tables: vendors, constraints, store types and templates.
- `run_phase2_enhanced.py`, `regenerate_phase1_enhanced.py` and `run_data_generation.py` are not part of this model. They only call the file-writing generators and count the outcomes.

## Findings

| source | as written | input that shows it | evidently intended | confidence | as-written member | corrected member |
|---|---|---|---|---|---|---|
| scripts/run_phase3_production.py:293-295 | after each Teams call, adds `len(result['threads'])`, the number of every thread in the channel file including those saved by earlier calls | a run into empty channel files in which all 250 calls succeed reports 4325 threads | the number of threads generated, 250 for that run | not executed | Phase3Production.TeamsCounterAsWritten | Phase3Production.Phase3Generator.GenerateTeamsConversationsCounted |
