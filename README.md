# InnoStart business-support platform, modelled in Dafny

InnoStart helps entrepreneurs in Musanze, Rwanda, start a business. It has three parts. PHP endpoints answer chat questions, suggest ideas, produce and export business plans, keep dashboard data and analytics, log users in and set up the database. Python scripts provide keyword and machine-learning answer models, an answer generator and an idea and projection helper. Two browser scripts run the dashboard and the landing page.

This project models the decision logic of those parts. Each source file gets one module:

- `Chat`, `ChatInterface`, `Dashboard`, `PrintControls`, `MainPage`: the chat endpoint's keyword cascade, the command-line chat fallback, the dashboard script (a class whose chat history grows), the print-controls insertion shared by both scripts, and the landing page's projection calculator and chat box.
- `SmartModel`, `ResponseGenerator`, `EnhancedAI`, `TrainResponseModel`, `MusanzeMLModel`, `AIIntegration`: the keyword model and its budget and type listings, the keyword classifier and reply composer, the context-enhanced answers, the training-data builder, the bookkeeping around the random-forest model, and the idea and projection helper.
- `Ideas`, `ExportPlan`, `BusinessPlan`, `DashboardStore`, `Analytics`: idea selection, de-duplication and ranking; export validation, templates, generators and file names; the printable plan page; the dashboard document (a class holding the bounded activity log and the statistics); and the analytics summaries.
- `DemoAuth`, `SessionCheck`, `AuthDb`, `Users`, `Config`: the demo login over a session class, the stand-alone session check, database login, registration and sessions, user management, and the shared validation, sanitising and CSRF helpers.
- `SqlScript`, `Setup`, `InitDatabase`: the SQL-script splitting both installers share, the setup endpoint, and the command-line installer.

Shared modules:

- `Wrappers`: Option and Result.
- `Text`: ASCII strings, the `\w+` tokenizer, trimming, split and join.
- `Dispatch`: ordered first-match keyword rules.
- `Php`: decoded JSON values, `empty()` and `htmlspecialchars`.
- `Compounding`: monthly growth.

PHP code follows PHP 8.1 semantics: loose `==` compares a number with a non-numeric string as strings, passing an array where a string is needed throws a `TypeError`, and `htmlspecialchars` escapes single quotes by default. `install.php` also accepts PHP 7.4; the differences there are listed under "## Left out". Requests are modelled as decoded values and responses as a status with a body. Database tables, the session and the dashboard document are sequences or maps, held in class fields where the source updates them in place. The clock, random draws, password hashing and external services are parameters.

`executeSQL` answers `false` instead of throwing, so a reading of `api/setup.php` alone suggests that `createTables` always reports an empty error list. It does not. `Database::executeSQL` (config/database.php:91-99) catches only `PDOException`, but `getConnection` throws a plain `Exception` when the connection fails. That exception escapes into the `catch` of `createTables` and lands in its error list. The model follows the code: `SqlScript.ExecOutcome` has a `ConnectionLost` outcome for the escaping exception, and `Setup.CreateTables` records its message.

## Model

| member | source | states |
|---|---|---|
| TrainResponseModel.ExtractKeywords | ml_models/train_response_model.py:157-164 | the keywords are exactly the lower-cased words of the text that are not among its 19 stop words and are longer than two characters |
| TrainResponseModel.Singles | ml_models/train_response_model.py:190-225 | a one-placeholder branch yields one example per value, in order, the pattern formatted with that value |
| TrainResponseModel.Pairs | ml_models/train_response_model.py:226-235 | the two-placeholder branch yields one example per action and purpose,|actions|*|purposes|in all, each with its pattern's category |
| TrainResponseModel.TwoPlaceholdersReachLastBranch | ml_models/train_response_model.py:190-226 | a pattern with {action} and {purpose} reaches the action/purpose branch; a pattern with {action} alone never does |
| TrainResponseModel.CreateQuestionVariations | ml_models/train_response_model.py:166-237 | the generated list is the concatenation, pattern by pattern, of each pattern's expansions |
| TrainResponseModel.FillEach | ml_models/train_response_model.py:190-198 | the loop appends exactly the branch's examples after what was there |
| TrainResponseModel.FillPairs | ml_models/train_response_model.py:226-235 | the nested loop appends exactly the action x purpose examples, actions outermost |
| TrainResponseModel.PatternBranches | ml_models/train_response_model.py:171-179 | the seven patterns take the branches action, topic, action, topic, financial, legal, action/purpose |
| TrainResponseModel.ExpansionSizes | ml_models/train_response_model.py:182-235 | they yield 6, 5, 6, 5, 4, 3 and 24 questions |
| TrainResponseModel.VariationCounts | ml_models/train_response_model.py:166-237 | 53 variations in all |
| TrainResponseModel.ExpansionsTagged | ml_models/train_response_model.py:193-196 | every variation carries the category of one of the patterns |
| TrainResponseModel.CreateTrainingData | ml_models/train_response_model.py:44-155 | 77 rows: the 24 hand-written ones in order, then the variations, every category one of the six |
| TrainResponseModel.PredictCategory | ml_models/train_response_model.py:345-348 | fails with "Model not trained or loaded" exactly when no model is present |
| MusanzeMLModel.PreprocessText | ml_models/musanze_ml_model.py:16-20 | the cleaned text is no longer than the input and holds only lower-case letters and whitespace |
| MusanzeMLModel.PreprocessFixpoint | ml_models/musanze_ml_model.py:16-20 | cleaning leaves a text unchanged exactly when it holds only lower-case letters and whitespace |
| MusanzeMLModel.PreprocessIdempotent | ml_models/musanze_ml_model.py:16-20 | cleaning twice equals cleaning once |
| MusanzeMLModel.Unique | ml_models/musanze_ml_model.py:29 | the distinct responses: no repeats, exactly the values of the column |
| MusanzeMLModel.UniqueInFirstOccurrenceOrder | ml_models/musanze_ml_model.py:29-30 | ids follow first-occurrence order: a smaller id's response first occurs earlier |
| MusanzeMLModel.FirstOccurrencePrefix | ml_models/musanze_ml_model.py:29 | the first occurrence of a value of a prefix is the same in the whole column |
| MusanzeMLModel.ResponseMap | ml_models/musanze_ml_model.py:30 | every distinct response is numbered by its position |
| MusanzeMLModel.IdToResponse | ml_models/musanze_ml_model.py:58 | ids 0..k-1 map back to the responses at those positions |
| MusanzeMLModel.NumberingRoundTrip | ml_models/musanze_ml_model.py:29-58 | every response gets an id below k, and id_to_response and response_map invert each other in both directions |
| MusanzeMLModel.ProcessedInput | ml_models/musanze_ml_model.py:34-39 | the classified text of a row holds only lower-case letters and whitespace |
| MusanzeMLModel.Model.Train | ml_models/musanze_ml_model.py:22-69 | 0.0 with nothing changed when loading or fitting raises; otherwise trained with the numbering of the dataset's responses, returning the accuracy, or 0.0 when saving raised after the flag was set |
| MusanzeMLModel.Model.Predict | ml_models/musanze_ml_model.py:71-90 | the not-trained message before training; the response of the predicted id; otherwise a "Prediction error: " message |
| MusanzeMLModel.TrainedPredictsResponses | ml_models/musanze_ml_model.py:57-85 | after training, every dataset response is recovered from its id |
| AIIntegration.LocationIdeas | python/ai_integration.py:214-216 | both template ideas of the location type are added |
| AIIntegration.InterestIdeaPrecedence | python/ai_integration.py:219-224 | an interest adds the technology, food or fashion idea exactly when it contains that key and no earlier one; none when it contains none |
| AIIntegration.InterestPicks | python/ai_integration.py:219-224 | at most one idea per interest, each one of the three interest ideas |
| AIIntegration.BudgetLevel | python/ai_integration.py:227-234 | the level is one of Low, Medium, High (unknown budget strings give Medium) |
| AIIntegration.WithBudget | python/ai_integration.py:235 | keeps exactly the ideas of the level, in order |
| AIIntegration.GenerateFallbackIdeas | python/ai_integration.py:125-241 | between 1 and 5 ideas: the first five of the level's ideas among location + interest ideas, or of all of them when none has the level |
| AIIntegration.FallbackRespectsBudget | python/ai_integration.py:235-241 | when any selected idea has the level, every returned idea has it |
| AIIntegration.FormatIdea | python/ai_integration.py:248-257 | each missing field gets its listed default |
| AIIntegration.FormatKeepsPresentFields | python/ai_integration.py:248-257 | a complete idea is formatted to itself |
| AIIntegration.FormatIdeas | python/ai_integration.py:243-259 | one formatted idea per input, same length and order |
| AIIntegration.ExtractIdeasFromText | python/ai_integration.py:261-286 | the loop computes the line-by-line scan of the text: title lines flush the previous non-empty idea, field lines fill the current one, the last non-empty idea is flushed |
| AIIntegration.ScanCounts | python/ai_integration.py:261-286 | every parsed idea has a field and there is at most one more idea than title lines |
| AIIntegration.ScanInvariant | python/ai_integration.py:268-284 | the invariant of the parsing loop |
| AIIntegration.NoMarkersNoIdeas | python/ai_integration.py:261-286 | a text without title or field lines yields no idea |
| AIIntegration.GenerateFinancialProjections | python/ai_integration.py:369-427 | months entries; totals, net profit = revenue - expenses - investment; break-even is the first month with non-negative cumulative profit; roi only when the investment is positive; a non-negative net profit implies a break-even month |
| AIIntegration.ProjectMonths | python/ai_integration.py:396-422 | the month loop: row i is month i+1 with the grown revenue and the cumulative profit from minus the investment |
| Compounding.RevenueClosedForm | python/ai_integration.py:421 | the revenue of month k+1 is the first month's times (1+growth)^k |
| Compounding.ExpensesClosedForm | python/ai_integration.py:414 | k months of expenses are k times the monthly expenses |
| Compounding.FlatRevenue | python/ai_integration.py:396-422 | without growth every month earns the first month's revenue |
| Compounding.RevenueGrows | python/ai_integration.py:421 | with non-negative revenue and growth, revenue never decreases |
| AIIntegration.AdvicePriority | python/ai_integration.py:499-516 | funding/investment, then marketing, competition, team/hiring; the general advice exactly when none occurs |
| Ideas.LocationIdeas | api/ideas.php:82-145 | the three substring tests on the lower-cased location are independent: 2 urban, 2 rural and 1 coastal ideas accumulate, all location-relevant |
| Ideas.Recognise | api/ideas.php:150-253 | each interest has exactly two spellings in the switch and nothing else matches |
| Ideas.InterestIdeas | api/ideas.php:147-255 | every recognised keyword adds its two ideas, so twice the number of recognised keywords in all, all interest-relevant |
| Ideas.InterestKeywords | api/ideas.php:38 | one keyword per comma-separated piece of the lower-cased interests, each trimmed |
| Ideas.BudgetIdeas | api/ideas.php:257-355 | there are budget ideas exactly for the four exact budget strings, all budget-relevant |
| Ideas.Dedupe | api/ideas.php:53-62 | no two kept ideas share title and description, every key of the input survives, nothing is added |
| Ideas.DedupeKeepsFirsts | api/ideas.php:56-61 | the first idea with each key is kept |
| Ideas.DedupeOnlyFirsts | api/ideas.php:56-61 | every kept idea is the first with its key |
| Ideas.RemoveDuplicates | api/ideas.php:53-62 | the seen-set loop computes Dedupe |
| Ideas.Score | api/ideas.php:357-379 | location and interest ideas score 4, budget ideas 3 |
| Ideas.InsertPermutes | api/ideas.php:72-74 | inserting adds exactly the one element |
| Ideas.SortPermutes | api/ideas.php:72-74 | sorting is a permutation |
| Ideas.SortedDescending | api/ideas.php:72-74 | the sorted list is in descending score order |
| Ideas.InsertByScore | api/ideas.php:72-74 | one insertion pass computes Insert |
| Ideas.Usort | api/ideas.php:72-74 | the sort loop computes SortByScore |
| Ideas.TwoScoreSort | api/ideas.php:64-74 | with scores 4 and 3 only, the ranking is every score-4 idea then every score-3 idea, each group in its original order (the sort is stable) |
| Ideas.Rank | api/ideas.php:64-79 | at most five ideas, all candidates, empty exactly when there are no candidates |
| Ideas.GenerateBusinessIdeas | api/ideas.php:34-80 | the ideas are the ranking of the location, interest and budget candidates |
| Ideas.BudgetIdeasRankLast | api/ideas.php:357-379 | no budget idea is ranked ahead of a location or interest idea |
| Ideas.Handle | api/ideas.php:7-425 | OPTIONS 200, other non-POST 405, 400 exactly for a missing or empty body, otherwise one to five ideas, the three fallback ideas exactly when no candidate was chosen |
| MainPage.OrDefault | assets/js/main.js:339-342 | `parseFloat(x)||0`: a NaN or zero parse gives the default, any other number is kept |
| MainPage.OrDefaultInt | assets/js/main.js:343-344 | `parseInt(x)||d`: a NaN or zero parse gives the default, any other integer (negative too) is kept |
| MainPage.ParamsOf | assets/js/main.js:339-354 | unparsable amounts become 0; the month count is 12 exactly when it is unparsable, 0 or 12, and otherwise the parsed count |
| MainPage.CalculateFinancialProjections | assets/js/main.js:361-398 | exactly max(0, projectionMonths) entries numbered 1.., entry k with the revenue grown k-1 times by growthRate percent, fixed expenses and their difference; totals are the sums and netProfit = totalRevenue - totalExpenses - initialInvestment; breakEvenMonths plays no part |
| MainPage.CalculateProjections | assets/js/main.js:336-358 | the defaulted form values projected; breakEvenMonths does not affect the result |
| MainPage.NetProfitClosedForm | assets/js/main.js:369-388 | the net profit is the revenue sum minus n times the expenses minus the investment; month n's revenue is the first month's times (1 + rate/100)^(n-1) |
| MainPage.EmptyFormProjection | assets/js/main.js:339-344 | an empty form projects twelve months with zero revenue and zero expenses |
| MainPage.ChatBox.SendChatMessage | assets/js/main.js:203-247 | a blank (trimmed) message changes nothing; otherwise the input is cleared, the message and the reply (or the error text) are shown, and the history grows by user and assistant entries only on success; the history keeps alternating |
| MainPage.SampleIdeasDistinct | assets/js/main.js:675-712 | the five sample ideas are distinct |
| MainPage.ReorderDistinct | assets/js/main.js:715 | a shuffle of distinct ideas keeps them distinct and adds none |
| MainPage.GenerateSampleIdeas | assets/js/main.js:714-717 | the sample array is shuffled in place and its first three returned |
| MainPage.ThreeDistinctSamples | assets/js/main.js:714-717 | three distinct sample ideas are offered, whatever the earlier shuffles |
| ExportPlan.TemplateFor | api/export-business-plan.php:355 | a known business type gets its own template, any other scalar the mountain hiking tours template, an array key has no template (TypeError) |
| ExportPlan.Merge | api/export-business-plan.php:358-360 | empty custom data keeps the template; an object's keys win and every other template key is kept, keys are the union; a non-empty list leaves the named fields alone; another non-empty scalar is a TypeError |
| ExportPlan.GetBusinessPlanData | api/export-business-plan.php:355-362 | the plan exists exactly when the template lookup and the merge both succeed |
| ExportPlan.UnknownTypeGetsDefault | api/export-business-plan.php:355 | an unknown business type with no custom data yields the mountain hiking tours plan |
| ExportPlan.CustomDataWins | api/export-business-plan.php:355-362 | with non-empty custom fields each given field overrides the template and each other template field survives |
| ExportPlan.EscapeHasNoTag | api/export-business-plan.php:474 | an escaped section contains no '<', so it cannot open a tag |
| ExportPlan.ListItemsRoundTrip | api/export-business-plan.php:473-475 | the list of `<li>` items reads back as exactly the sections, in order |
| ExportPlan.ListItemsTags | api/export-business-plan.php:473-475 | the list has exactly two tags per section whatever the section texts |
| ExportPlan.AppendItems | api/export-business-plan.php:473-475 | the section loop appends one escaped item per section, and fails exactly when a section is an array |
| ExportPlan.GenerateHtml | api/export-business-plan.php:417-515 | the page is the intro with the six fields escaped, the section list and the tail; it fails exactly when a field or a section is an array |
| ExportPlan.GeneratePresentationHtml | api/export-business-plan.php:517-610 | the slide deck is built the same way from its own markup, with the same failure condition |
| ExportPlan.AppendCsvLines | api/export-business-plan.php:624-626 | the CSV loop appends the numbered section lines |
| ExportPlan.GenerateCsv | api/export-business-plan.php:612-629 | the CSV is the labelled field lines followed by one numbered line per section |
| ExportPlan.CsvLinesNumbered | api/export-business-plan.php:624-626 | the section lines are the lines "i,section" for i = 1..n, in order |
| ExportPlan.CsvFieldCells | api/export-business-plan.php:614-620 | a value is written unquoted, so a value with k commas fills k + 1 cells after its label's |
| ExportPlan.SanitizeFilename | api/export-business-plan.php:631-637 | the file name has only letters, digits, '_' and '-', no "__" and no '_' at either end |
| ExportPlan.SanitizeClean | api/export-business-plan.php:631-637 | a name that is already clean is returned unchanged |
| ExportPlan.SanitizeIdempotent | api/export-business-plan.php:631-637 | sanitizing twice gives the same name as sanitizing once |
| ExportPlan.SanitizeReplaced | api/export-business-plan.php:633-635 | when replacing invalid characters already gives a clean name, squeezing and trimming change nothing |
| ExportPlan.GuesthouseFilename | api/export-business-plan.php:631-637 | the Guesthouse plan's title becomes "Guesthouse_Business_Plan" |
| ExportPlan.Generate | api/export-business-plan.php:365-415 | a file is produced exactly when the format's generator can build its document; it reports success, echoes its format, names the file after the sanitized title with the format's ending, and carries the page, the slides or the CSV |
| ExportPlan.Export | api/export-business-plan.php:7-57 | 405 for every method but POST, 400 exactly when a parameter is missing, 400 exactly when the lower-cased format is not allowed; for an allowed format, a TypeError exactly when the data is missing or its generator cannot build the document, and otherwise the generated file: the format's document under the sanitized title with its ending; the 500 branch is never taken |
| ExportPlan.UpperCaseFormatAccepted | api/export-business-plan.php:22-27 | the format is lower-cased before it is checked, so "PDF" is accepted as "pdf" |
| ExportPlan.InvestmentSpansCells | api/export-business-plan.php:617 | the mountain hiking tours investment figure, written unquoted, fills more than one CSV cell |
| BusinessPlan.InputsOf | api/business-plan.php:24-29 | each input is the request's field when set; otherwise 'My Business' for the name, 'General' for the type and '' for the other four |
| BusinessPlan.UcFirst | api/business-plan.php:97 | ucfirst keeps the length, upper-cases the first character and leaves the rest unchanged |
| BusinessPlan.PlanSections | api/business-plan.php:95-231 | the page has exactly ten sections, titled 'Executive Summary' to 'Conclusion' in order |
| BusinessPlan.NumberedAround | api/business-plan.php:95-231 | numbered sections split around any one of them: those before, its own block numbered from + i, then those after, numbered on |
| BusinessPlan.TenSectionsInOrder | api/business-plan.php:95-231 | section i + 1 of the page is the block headed "i + 1. title" for the i-th fixed title, between the sections before and after it |
| BusinessPlan.NameVerbatim | api/business-plan.php:38 | the business name appears in the page exactly as given, with no HTML escaping |
| BusinessPlan.TypeCasing | api/business-plan.php:97-104 | the type appears ucfirst after the 'Business Type:' label and lower-cased in "name is a type business" |
| BusinessPlan.TextsVerbatim | api/business-plan.php:98-172 | the mission, funding, target market and competitive advantage each appear in the page verbatim |
| BusinessPlan.InSection | api/business-plan.php:93-232 | any text inside a section's body is inside the page |
| BusinessPlan.Headers | api/business-plan.php:243-246 | only the page is sent with the text/html and no-cache headers, and no answer is declared JSON |
| BusinessPlan.Handle | api/business-plan.php:6-31 | OPTIONS gets 200, any other non-POST 405, an undecodable or falsy body 400, an array type a TypeError, and otherwise the page built from the defaulted inputs |
| BusinessPlan.DefaultsPage | api/business-plan.php:24-29 | a request without any of the six fields gets the page of 'My Business' of type 'General' with the other texts empty |
| DashboardStore.Lookup | api/dashboard-data.php:175-199 | a type that is a string naming a table entry gets that entry; any other type gets the default |
| DashboardStore.IconFor | api/dashboard-data.php:175-186 | the icon is 'fas fa-circle' exactly when the type is not one of the six known names |
| DashboardStore.ColorFor | api/dashboard-data.php:188-199 | the colour is 'secondary' exactly when the type is unknown or is 'user' |
| DashboardStore.Added | api/dashboard-data.php:166-169 | the new entry comes first, followed by the older entries in order, cut to 20 entries |
| DashboardStore.AddedKeepsShortLog | api/dashboard-data.php:166-169 | a log with fewer than 20 entries loses nothing when one is added |
| DashboardStore.FullLogRepeatsIds | api/dashboard-data.php:155-169 | once the log holds 20 entries the oldest is dropped and every new entry gets id 21, so ids repeat |
| DashboardStore.NewestFirstPermutes | api/dashboard-data.php:144-147 | sorting the log keeps every entry as often as it was there |
| DashboardStore.NewestFirstSorted | api/dashboard-data.php:144-147 | the sorted log runs from the newest timestamp to the oldest |
| DashboardStore.StrictlyNewestFirst | api/dashboard-data.php:144-147 | in any newest-first permutation of the log, stable or not, an entry strictly newer than all others comes first |
| DashboardStore.SliceFromStart | api/dashboard-data.php:149 | a non-negative limit keeps the first limit entries; a negative one drops that many from the end |
| DashboardStore.IntvalRoundTrip | api/dashboard-data.php:224 | intval reads back the decimal text of every integer |
| DashboardStore.NoDigitsNoActivities | api/dashboard-data.php:224-228 | a limit with no digits reads as 0 and returns no activities |
| DashboardStore.DashboardData.constructor | api/dashboard-data.php:22-128 | a fresh store holds the fixed statistics, five activities with ids 1 to 5 ordered newest first and older than now, and three plans |
| DashboardStore.DashboardData.Stats | api/dashboard-data.php:130-138 | active_projects is the number of plans, total users stay within 837..857 and the success rate within 90..94; other statistics are as stored |
| DashboardStore.DashboardData.RecentActivities | api/dashboard-data.php:141-150 | the result is ordered newest first, no longer than the log, and exactly min(limit, log length) long for a non-negative limit |
| DashboardStore.DashboardData.AddActivity | api/dashboard-data.php:152-173 | the entry gets id log length + 1, the time now and its icon and colour; the log becomes the entry followed by the older entries, cut to 20; nothing else changes |
| DashboardStore.DashboardData.UpdateStats | api/dashboard-data.php:201-206 | the statistics become the stored ones overridden by the given ones, and that is what is returned |
| DashboardStore.MergeStats | api/dashboard-data.php:203 | after the merge a given key has the given value, another stored key keeps its value, and no other key appears |
| DashboardStore.AddedIsMostRecent | api/dashboard-data.php:141-173 | when every stored entry is strictly older than the new one, a limit of 1 right after adding returns just the new entry |
| DashboardStore.Handle | api/dashboard-data.php:209-283 | OPTIONS is answered with no body and no change; GET answers stats, activities (limit from intval, default 5) or 'Invalid action' without writing; another method is refused; add_activity without a truthy type and title is refused with 'Missing required fields' and changes nothing; a valid add_activity stores and answers the new entry with the next id and the clock's timestamp; update_stats merges the given object into the statistics and answers the merged statistics; any other action is 'Invalid action'; the business plans are never touched |
| Analytics.Route | api/analytics.php:8-39 | OPTIONS ends the request; otherwise a report is produced exactly when the action (query first, then form, else '') names one of the seven reports, and that report's name is the action; any other action gets 'Invalid action' |
| Analytics.EveryReportRoutable | api/analytics.php:12-36 | each of the seven reports is reached by its own action name, whether sent in the query or the form |
| Analytics.Sum | api/analytics.php:167 | the sum of non-negative percentages is non-negative |
| Analytics.RoundedMeanTenths | api/analytics.php:167 | the result is the mean in tenths rounded to the nearest tenth, halves up |
| Analytics.Max | api/analytics.php:174 | the result is in the table and no entry exceeds it |
| Analytics.Min | api/analytics.php:175 | the result is in the table and no entry is below it |
| Analytics.FirstWith | api/analytics.php:174-175 | the position holds the value and no earlier position does |
| Analytics.Summary | api/analytics.php:150-178 | the overall rate is the rounded mean, top_performing is the type at the first maximum and improvement_areas the type at the first minimum |
| Analytics.FixedOverall | api/analytics.php:152-175 | for the fixed table the overall rate is 90.7 (1088 / 12) |
| Analytics.FixedLeaders | api/analytics.php:152-175 | for the fixed table the top performer is Local Transport and the improvement area Internet Cafe |
| Analytics.PercentsSum | api/analytics.php:152-167 | the twelve fixed percentages sum to 1088 |
| Analytics.SeasonalFactor | api/analytics.php:223-241 | every factor lies between 0.8 and 1.4, and any name that is not a three-letter month gets 1.0 |
| Analytics.SeasonalExtremes | api/analytics.php:225-240 | 'January' and 'jan' get 1.0; only July has the peak 1.4 and only November the low 0.8 |
| Analytics.RoundHalfUp | api/analytics.php:59 | the result is the integer nearest the value, halves up |
| Analytics.RevenueFloor | api/analytics.php:50-59 | no revenue point for January to June is below 8.6 million |
| Analytics.RevenueTrendSeries | api/analytics.php:44-78 | the labels are Jan to Jun, there are six points, each the rounded product of base, seasonal factor, growth and variation, and each at least 8.6 million |
| Analytics.RegistrationSeries | api/analytics.php:80-112 | the labels are Jan to Jun, there are six non-negative counts, each the rounded product of base, seasonal factor, growth and variation |
| Analytics.ArrayKey | api/analytics.php:287 | an address becomes an array key exactly when it is not an array |
| Analytics.RealTimeAnalytics | api/analytics.php:262-301 | with no log the figures are simulated; the count fails exactly when some line has an array timestamp or a counted line an array address; otherwise active_sessions is the number of decodable lines whose timestamp starts with today, online_users the number of distinct addresses among them, and page views active_sessions times the multiplier |
| Analytics.OnlineAtMostActive | api/analytics.php:283-295 | online_users never exceeds active_sessions and is zero exactly when active_sessions is |
| Analytics.AddressesAtMostEntries | api/analytics.php:287-294 | there are never more distinct addresses than counted entries |
| Analytics.OtherLinesIgnored | api/analytics.php:285 | a line from another day, or one that does not decode, changes neither count |
| DemoAuth.Login | api/auth.php:44-79 | a login succeeds exactly when the body's email is a demo address and its password is exactly that account's password string; an undecodable or falsy body gets 400 'Invalid input'; every other refusal is 400 or the single 401 'Invalid email or password' |
| DemoAuth.WrongPasswordLikeUnknownUser | api/auth.php:64-78 | a known address with a wrong password and an unknown address get the identical 401 answer |
| DemoAuth.PasswordComparedExactly | api/auth.php:16-74 | a password differing in case, with trailing space, or given as a number is refused; the exact string is accepted |
| DemoAuth.FirstTwo | api/auth.php:132 | the avatar is a prefix of at most two characters of the name's text |
| DemoAuth.Check | api/auth.php:125-146 | the check reports logged in exactly when the flag is the boolean true, and then echoes the stored id, name, email and role |
| DemoAuth.LooseFlagNotLoggedIn | api/auth.php:126 | a flag of 1, "1" or "true" does not count as logged in |
| DemoAuth.LoginThenCheck | api/auth.php:80-139 | after a login the check returns the account's id, name, email and role, with the avatar cut from the name: John Doe gets "Jo", not the stored "JD" |
| DemoAuth.Handle | api/auth.php:7-197 | OPTIONS changes nothing; every POST is answered as a login, and only a successful one writes user_id, user_email, user_name, user_role and logged_in=true into the session; GET logout empties the session and reports success; GET check reads without writing; anything else is 405 |
| DemoAuth.RegistrationIsLogin | api/auth.php:44-193 | a registration POST is handled as a login: a new address is refused with 401, and a missing password gets the login's 400 message |
| SessionCheck.Respond | api/check-session.php:7-37 | the user is reported exactly when logged_in is the boolean true, otherwise the answer is the 401 'Not authenticated'; the reported id, name, email and role are the session's, and the avatar is the first two characters of the name |
| SessionCheck.AgreesWithLoginCheck | api/check-session.php:15-36 | this check and the login endpoint's check agree on who is logged in, but a missing login is answered with 401 here |
| SessionCheck.ReportsLoggedInUser | api/check-session.php:15-28 | after a demo login the check answers 200 with that account and its name's first two characters as avatar |
| SessionCheck.EmptySessionRefused | api/check-session.php:29-36 | an empty session, as after logout, gets the 401 answer |
| AuthDb.ProfileOf | api/auth_db.php:73-81 | the returned user has name = first name + ' ' + last name and avatar = the upper-cased first letters of the two names, at most two characters, and no password hash |
| AuthDb.FindActive | api/auth_db.php:35-41 | the row found is an active row with the address; none is found exactly when no active row has it |
| AuthDb.LoginCheck | api/auth_db.php:43-64 | 'Invalid email or password' exactly when no active row has the address or the password does not verify; 'Please verify…' exactly when the password verifies for an unverified account; success only for a verified account |
| AuthDb.Expiry | api/auth_db.php:260-263 | a session expires a week after now with remember-me and a day after otherwise, so always after now |
| AuthDb.MarkLogin | api/auth_db.php:243-246 | only rows with the id get last_login = now; the others stay as they were |
| AuthDb.VerifySession | api/auth_db.php:178-207 | a token is accepted exactly when some session row has it, expires after now, and belongs to an active account |
| AuthDb.WithoutToken | api/auth_db.php:221-224 | after logout exactly the rows with other tokens remain |
| AuthDb.Unexpired | api/auth_db.php:287-291 | the clean-up keeps exactly the rows that expire at now or later |
| AuthDb.FirstMissing | api/auth_db.php:105-113 | the reported field is the first required field that is PHP-empty; none is reported exactly when all are non-empty |
| AuthDb.NewRow | api/auth_db.php:125-147 | a new account is unverified, has never logged in, stores the hash of the given password, and defaults country to Rwanda, city to Musanze and user type to entrepreneur |
| AuthDb.GrowsByLogin | api/auth_db.php:66-67 | marking a login never changes a row's id, status or verified flag |
| AuthDb.GrowsByRegister | api/auth_db.php:131-147 | appending an unverified row verifies no account |
| AuthDb.AuthManager.Login | api/auth_db.php:32-97 | refusals change nothing; a success updates last login, adds one session row with Expiry(now, rememberMe), returns the profile and the token, or no token when inserting the session fails |
| AuthDb.AuthManager.CreateSession | api/auth_db.php:255-282 | a session row with the token and its expiry is added and the token returned, or nothing is added and null returned when the insert fails |
| AuthDb.AuthManager.MissingField | api/auth_db.php:105-113 | the loop finds the first required field that is empty |
| AuthDb.AuthManager.Register | api/auth_db.php:102-173 | a missing required field or an address present in any row leaves the tables unchanged; otherwise one row with the next id is appended and that id returned |
| AuthDb.AuthManager.Logout | api/auth_db.php:221-238 | every session row with the token is removed and nothing else changes |
| AuthDb.AuthManager.CleanExpiredSessions | api/auth_db.php:287-296 | rows expired before now are removed and their number returned |
| AuthDb.LoginSessionValidUntilExpiry | api/auth_db.php:178-276 | the session a login creates is accepted at any time before its expiry while the account is active |
| AuthDb.ExpiryBoundary | api/auth_db.php:178-291 | a row that expires exactly now is neither accepted nor removed by the clean-up |
| AuthDb.LogoutRevokes | api/auth_db.php:184-223 | after logout no session with that token is accepted at any time |
| AuthDb.RegisteredCannotLogIn | api/auth_db.php:59-147 | a freshly registered account with its correct password gets 'Please verify your email address before logging in' |
| AuthDb.RefusalsIndistinguishable | api/auth_db.php:43-64 | a refused login gets one of two messages, and the verification message only when the password was right |
| AuthDb.Handle | api/auth_db.php:299-347 | a non-POST is 405, a falsy body 400 'Invalid input', an unknown action exactly 400 'Invalid action' with no change; the action defaults to login; login and register have exactly the effect of the manager's login and registration, logout deletes the token's sessions, verify answers the session's profile without writing; all of these answer 200 whatever the outcome; no request ever marks an account verified or changes an existing row's id or status |
| AuthDb.ActionOf | api/auth_db.php:311-345 | no action means login; 'register', 'logout' and 'verify' select their case; an action no case names (such as 'delete') selects none |
| Users.FindUser | api/users.php:120-122 | the row found has the id, whatever its status; none is found exactly when no row has it |
| Users.FindActiveUser | api/users.php:30-38 | the row found has the id and status 'active'; none is found exactly when no active row has the id |
| Users.PresentFields | api/users.php:69-78 | the SET list holds exactly the allowed fields set in the request, never more than the six |
| Users.ChangesOf | api/users.php:73-78 | the values bound are exactly those of the listed fields set in the request, each as text |
| Users.Touch | api/users.php:87-91 | the UPDATE gives every row with the id the new column values and the update time, and leaves every other row as it was |
| Users.WithoutId | api/users.php:287-288 | the DELETE keeps exactly the rows without the id |
| Users.PrefEntries | api/users.php:243 | the pairs visited are an object's fields or a list's positions; null and scalars give none |
| Users.Upserts | api/users.php:243-250 | one row per visited key, for this user, with that key's value |
| Users.PreferencesOf | api/users.php:213-220 | the map holds exactly the names of the user's rows, each with the stored value |
| Users.UserManager.GetUserProfile | api/users.php:28-61 | a profile is returned only for an active row with the id, and it is that row's columns, without the hash; 'User not found' exactly when there is no such row |
| Users.UserManager.GetUserPreferences | api/users.php:211-234 | success gives the user's stored preferences as a name → value map |
| Users.UserManager.UpdateList | api/users.php:69-78 | the loop builds the SET list and values of exactly the present allowed fields |
| Users.UserManager.UpdateUserProfile | api/users.php:66-112 | no allowed field set: 'No valid fields to update' and no change; otherwise the rows with the id get the present allowed fields, and success is reported even when no row has the id |
| Users.UserManager.ChangePassword | api/users.php:117-165 | an unknown id or a current password that does not verify leaves the table as it was, with 'User not found' or 'Current password is incorrect'; success stores a hash of the new password in the rows with the id |
| Users.UserManager.DeleteUser | api/users.php:272-309 | an unknown id and a wrong password both get 'Invalid password' and change nothing; rows are removed exactly when the password verifies and the database does not throw |
| Users.UserManager.UpdateUserPreferences | api/users.php:239-267 | either every pair is written, when no statement throws, or the table is as before |
| Users.UserManager.UpsertAll | api/users.php:241-260 | the loop inside the transaction commits all upserts or rolls back to the saved table |
| Users.SetHash | api/users.php:143-144 | the password UPDATE gives every row with the id the new hash and leaves the others as they were |
| Users.TouchOnlyChanges | api/users.php:69-88 | an update keeps every row's id, hash and status, changes only the present allowed columns of rows with the id, and leaves other rows alone |
| Users.OtherKeysIgnored | api/users.php:69-78 | request keys outside the six allowed fields make no difference to an update |
| Users.UpdateOfUnknownIdChangesNothing | api/users.php:88-97 | an update for an id no row has changes nothing (and is reported as a success) |
| Users.NewPasswordVerifies | api/users.php:140-144 | after a change, the new password verifies against the stored hash of every row with the id |
| Users.DeletedUserGone | api/users.php:287-288 | after a deletion no row has the id and every other row is kept |
| Users.UpsertsThenRead | api/users.php:213-250 | reading after the upserts gives the old preferences with the new pairs laid over them |
| Users.UpsertsLeaveOthers | api/users.php:245-249 | upserts for one user leave every other user's preferences unchanged |
| Users.Handle | api/users.php:11-373 | OPTIONS is answered first; without a user_id every request is 401; the action defaults to 'profile'; an unknown action is 400; methods other than GET and POST are 405; GET requests change nothing; update-profile, change-password, update-preferences and delete-account have exactly the effect and answer of the manager's method for that action; a password change without new_password stores a hash of the empty string |
| Config.FeatureEnabledIff | config/config.php:199-202 | a feature is enabled exactly when 'FEATURE_' + its upper-cased name is one of the five constants set to true; FEATURE_USER_ACCOUNTS is defined but false, and an undefined constant gives false |
| Config.LookupFallbackIff | config/config.php:204-227 | `$table[$key] ?? $default` gives the key's text for a known key and, when the fallback is not one of the table's texts, the fallback exactly for unknown keys |
| Config.CatalogueFallbacksMarkUnknownKeys | config/config.php:204-212 | getBusinessCategory answers 'General' and getBudgetRange 'Not specified' exactly for keys not in their tables |
| Config.MessageFallbacksMarkUnknownKeys | config/config.php:219-227 | getErrorMessage answers 'An error occurred' and getSuccessMessage 'Operation completed successfully' exactly for unknown keys |
| Config.UnknownDifficultyIsMedium | config/config.php:214-217 | getDifficultyLevel answers 'Medium' exactly for 'medium' and for unknown keys |
| Config.DigitRun | config/config.php:267 | the digit run found is maximal: all digits, and followed by a non-digit or the end |
| Config.SpaceRun | config/config.php:267 | the whitespace run found is maximal |
| Config.DigitsAreNumeric | config/config.php:266-269 | is_numeric accepts every non-empty digit string, also with a space on either side |
| Config.NoDigitNotNumeric | config/config.php:266-269 | a string without a digit is never numeric |
| Config.Strlen | config/config.php:279-283 | strlen has no answer (a TypeError) exactly for arrays |
| Config.ValidateInput | config/config.php:248-289 | the result holds at most one message per field, only for fields named in the rules, exactly the fields whose check gives a message and with that message; strlen of an array in a length check stops the script |
| Config.RequiredEmptyStopsChecks | config/config.php:254-257 | a required field whose value is PHP-empty gets exactly 'Field f is required' and no other check runs for it |
| Config.AbsentOptionalEmailRejected | config/config.php:252-264 | an absent field with type email and no required flag gets 'Invalid email format' |
| Config.LengthOverridesType | config/config.php:259-285 | a too-long value gets the max_length message and a too-short one the min_length message, whatever the type check said |
| Config.EmptyRulePasses | config/config.php:251-286 | a rule with no required, type or length entry never reports its field |
| Config.Sanitize | config/config.php:291-297 | arrays keep their shape and keys, and each element or value is itself sanitised; any other value becomes the trimmed, escaped text |
| Config.SanitizeAll | config/config.php:293 | array_map over a list keeps its length and sanitises each element in place |
| Config.SanitizeUndone | config/config.php:296 | decoding a sanitised scalar's entities gives back the trimmed text, which holds none of < > " ' |
| Config.SanitizeTwicePlain | config/config.php:291-297 | for text with nothing to escape, sanitising twice is sanitising once |
| Config.SanitizeNotIdempotent | config/config.php:296 | sanitising is not idempotent: '&' becomes '&amp;' and then '&amp;amp;' |
| Config.Hex | config/config.php:305 | bin2hex gives two characters per byte, so a token from 32 random bytes has 64 characters |
| Config.HexDigitInjective | config/config.php:305 | distinct nibbles have distinct hexadecimal digits |
| Config.HexInjective | config/config.php:305 | distinct random bytes give distinct tokens |
| Config.GenerateCSRFToken | config/config.php:299-309 | a stored token is returned and the session is unchanged; otherwise a new 64-character token is stored and returned; afterwards the session always holds the returned token |
| Config.ValidateCSRFToken | config/config.php:311-317 | true exactly when a token is stored and the argument is that same string; no stored token gives false; a non-string on either side is a TypeError |
| Config.GeneratedTokenValidates | config/config.php:304-316 | after a token is generated for a session without one, exactly that token validates, and before, nothing did |
| Chat.IdeasPlace | api/chat.php:104-116 | the ideas branch answers for Musanze exactly when the message mentions musanze, for Kigali exactly when it mentions kigali but not musanze, and the general list otherwise |
| Chat.ReplyTo | api/chat.php:36-131 | a topic's answer exactly when a test other than the ideas test fires first, the ideas answer exactly when the ideas test fires first, a default text exactly when none fires |
| Chat.AnswerPrecedence | api/chat.php:34-96 | the message gets topic t's answer exactly when t's test matches the lower-cased message and no earlier test does |
| Chat.IdeasPrecedence | api/chat.php:103-116 | the ideas answer comes exactly when one of 'business ideas', 'give me ideas', 'ideas' occurs and none of the sixteen earlier tests fires, and its place follows the musanze/kigali tests |
| Chat.DefaultOnlyWhenNothingMatches | api/chat.php:118-131 | one of the five default texts, the one picked at random, is returned exactly when no test fires |
| Chat.HistoryIgnored | api/chat.php:30-33 | the history sent with the message never changes the answer |
| Chat.TechIdeasShadowed | api/chat.php:78-101 | every message containing 'technology business idea' or 'tech business idea' also contains 'tech', which an earlier test looks for |
| Chat.TechIdeasUnreachable | api/chat.php:98-101 | the technology-ideas answer is never returned |
| Chat.HiPreempts | api/chat.php:90-96 | a message containing 'hi' (as in 'which' or 'this') always gets a topic's answer, never the help text or the technology-ideas text |
| Chat.WhichIsGreeting | api/chat.php:90-92 | the message 'which' is answered with the greeting, since it contains 'hi' |
| Chat.RedundantAlternatives | api/chat.php:37-104 | 'write a business plan', 'automation software' and 'business ideas'/'give me ideas' add nothing: each test fires exactly when its shorter alternative occurs |
| Chat.Handle | api/chat.php:7-148 | OPTIONS gets the preflight, any other method but POST 405, a body that does not decode, is falsy or has no message 400 'Message is required', an array message a TypeError, and otherwise the reply to the trimmed message with the time stamp |
| ChatInterface.FallbackPrecedence | ml_models/ai_chat_interface.py:60-199 | branch t answers exactly when its intent is given or one of its words occurs in the lower-cased message and no earlier branch fires; the specific-business and default texts quote the message as given |
| ChatInterface.EchoOnlyWhenNothingFires | ml_models/ai_chat_interface.py:187-199 | the text that echoes the question is returned exactly when no branch fires |
| ChatInterface.HiIsGreeted | ml_models/ai_chat_interface.py:66-74 | any message containing 'hi' (as in 'this' or 'which'), whatever the intent, gets the greeting |
| ChatInterface.BusinessBeatsLaterIntents | ml_models/ai_chat_interface.py:76-86 | a message with 'business' and no greeting word gets the opportunities text whatever later intent is given |
| ChatInterface.BusinessBudget | ml_models/ai_chat_interface.py:76-105 | 'business budget' is answered with the opportunities text, not the budget text |
| ChatInterface.MainOutput | ml_models/ai_chat_interface.py:22-58 | the output succeeds, with the fallback reply and the intent or 'general_inquiry', exactly when the history is absent or empty, or decoding it succeeds or fails with a JSON decoding error; otherwise it is the apology carrying the raised error |
| ChatInterface.HistoryUnused | ml_models/ai_chat_interface.py:32-40 | two successful runs with different histories give the same output |
| Dashboard.ExportRequestPrecedence | assets/js/dashboard.js:222-245 | a chat message is an export request exactly when one of the eight phrases occurs in it lower-cased, and its format is the first of PDF, Word, Excel, PowerPoint whose phrases occur |
| Dashboard.LocalReplyPrecedence | assets/js/dashboard.js:416-471 | the local reply is the text of the first keyword, in table order, that occurs in the lower-cased message, and one of the five default texts, the one picked at random, exactly when none occurs |
| Dashboard.FirstKeyWins | assets/js/dashboard.js:450-456 | a lower-case message whose first matching keyword is k gets k's text |
| Dashboard.TechnologyBusinessIdeaReachable | assets/js/dashboard.js:438-456 | unlike the chat endpoint, 'technology business idea' reaches its own text because that keyword comes before 'technology' |
| Dashboard.TechnologyReachable | assets/js/dashboard.js:440-456 | the message 'technology' gets the technology text |
| Dashboard.ActivityDescription | assets/js/dashboard.js:201-216 | the activity reads 'Discussed: ' and the message, cut to 50 characters followed by '...' when longer |
| Dashboard.Answer | assets/js/dashboard.js:185-217 | the endpoint's reply is shown exactly when one arrives and is non-empty; otherwise the local reply |
| Dashboard.Dashboard.constructor | assets/js/dashboard.js:4-9 | a new dashboard shows the dashboard section with an empty chat history and input and no export dialog |
| Dashboard.Dashboard.SendMessage | assets/js/dashboard.js:154-219 | a blank trimmed message changes nothing; an export request clears the input and opens the export dialog for its format; any other message is appended with its reply, the input is cleared and a 'Discussed:' activity is recorded |
| Dashboard.HistoryGrowsByTwo | assets/js/dashboard.js:166-213 | a conversation turn adds exactly the user entry then the assistant entry and keeps the earlier history |
| Dashboard.DetectionPrecedence | assets/js/dashboard.js:316-372 | the export business type is the first of the twelve types whose 'type Business in Musanze' occurs in the reply, and Mountain Hiking Tours when none does |
| Dashboard.TimeAgo | assets/js/dashboard.js:931-940 | 'Just now' under a minute, then whole minutes, hours, days or 30-day months, each count at least 1 and the floor of the difference in that unit |
| Dashboard.FormatNumberRoundTrip | assets/js/dashboard.js:927-929 | removing the commas from a formatted number gives back its decimal digits |
| Dashboard.FormatNumberGroups | assets/js/dashboard.js:927-929 | a formatted number splits at its commas into a first group of one to three digits followed by groups of exactly three |
| Dashboard.InsertCommasIsGrouping | assets/js/dashboard.js:928 | the left-to-right regular-expression replacement agrees with grouping the digits in threes from the right |
| EnhancedAI.ContextParts | ml_models/enhanced_ai_integration.py:224-249 | one piece per applicable rule (funding with a budget, a known industry, a location), none empty: the budget advice for the budget's band first, then 'For … businesses, typical funding ranges are …', and the local-conditions sentence naming the location last |
| EnhancedAI.ContextInfoIff | ml_models/enhanced_ai_integration.py:224-249 | the context text is non-empty exactly when a context is given with a budget for a funding question, or a known industry, or a location |
| EnhancedAI.ContextPartsOrder | ml_models/enhanced_ai_integration.py:231-244 | for a funding question with a budget and a known industry, the budget advice comes first and the industry sentence 'For … businesses' second |
| EnhancedAI.IndustryAdviceIff | ml_models/enhanced_ai_integration.py:251-261 | industry advice is given exactly when the context's business type is technology, retail or service |
| EnhancedAI.StepsOf | ml_models/enhanced_ai_integration.py:263-306 | each of the six categories has four steps |
| EnhancedAI.ActionableStepsNonEmpty | ml_models/enhanced_ai_integration.py:263-308 | every category, known or not, gets non-empty next steps |
| EnhancedAI.EnhanceWithContext | ml_models/enhanced_ai_integration.py:161-195 | the answer is the model's answer followed by the context section when there is context, the industry section when there is advice, and always the next-steps section, in that order; the category and confidence are kept and the answer is marked context-enhanced |
| EnhancedAI.EnhancedEndsWithSteps | ml_models/enhanced_ai_integration.py:161-195 | the enhanced answer starts with the generator's answer and ends with the 'Next Steps' section of its category |
| EnhancedAI.EnhanceWithOpenAI | ml_models/enhanced_ai_integration.py:107-159 | a 200 answer replaces the text and raises the confidence by 0.1, capped at 0.95; a failed request or any other status falls back to the context enhancement |
| EnhancedAI.BoostBounds | ml_models/enhanced_ai_integration.py:147 | the boosted confidence never exceeds 0.95, and is exactly 0.1 higher when the original is at most 0.85 |
| EnhancedAI.ContextPathWhenOpenAIUnavailable | ml_models/enhanced_ai_integration.py:93-105 | the answer comes from the remote service exactly when a key is set and the request returns 200; otherwise it is the context enhancement of the generator's answer |
| EnhancedAI.BudgetAdvice | ml_models/enhanced_ai_integration.py:328-337 | at most one budget recommendation, taken from the three |
| EnhancedAI.ExperienceAdvice | ml_models/enhanced_ai_integration.py:338-343 | at most one experience recommendation, taken from the two |
| EnhancedAI.GetBusinessInsights | ml_models/enhanced_ai_integration.py:310-344 | 'Business type not found' exactly for types other than technology, retail and service; otherwise that industry's data, with no recommendations when no context is given |
| EnhancedAI.RecommendationsOrdered | ml_models/enhanced_ai_integration.py:326-344 | at most two recommendations, the budget one before the experience one |
| Ideas.IdeasOf | api/ideas.php:150-253 | each recognised interest adds two interest-relevant ideas |
| Ideas.RankIdeas | api/ideas.php:64-79 | the scoring, sorting and top-five loop computes Rank |
| Ideas.CandidatesRelevant | api/ideas.php:34-51 | every candidate comes from the location, interest or budget tables and so has a relevance |
| Ideas.RankedByScore | api/ideas.php:64-74 | after the sort no budget idea precedes a location or interest idea |
| Ideas.RankSelects | api/ideas.php:64-79 | at most five ideas are returned, all candidates, and none exactly when there is no candidate |
| TrainResponseModel.CollectWritten | ml_models/train_response_model.py:143-149 | the loop turns the 24 hand-written questions into one training row each, in order |
| MainPage.Reorder | assets/js/main.js:715 | the shuffled list keeps the length and takes its i-th element from position order[i] |
| MusanzeMLModel.Model.constructor | ml_models/musanze_ml_model.py:11-14 | a new model is not trained and has no response numbering |
| ExportPlan.GenerateExcel | api/export-business-plan.php:391-402 | success exactly when the title is not an array: the CSV of the plan under the sanitized title with '.csv' |
| ExportPlan.GenerateDocument | api/export-business-plan.php:365-389 | the PDF and Word exports are the same HTML page under the sanitized title with '.html', produced exactly when no field or section is an array |
| ExportPlan.GenerateSlides | api/export-business-plan.php:404-415 | the slide deck under the sanitized title with '_presentation.html', produced exactly when no field or section is an array |
| ExportPlan.GuesthouseReplaced | api/export-business-plan.php:633 | replacing the invalid characters of the Guesthouse title already gives 'Guesthouse_Business_Plan' |
| Php.EscapeHasNoSpecial | api/export-business-plan.php:474 | htmlspecialchars leaves none of < > " ' in its result |
| Php.EscapeRoundTrip | config/config.php:296 | decoding the entities of an escaped text gives back the text |
| Php.EscapePlain | config/config.php:296 | a text without < > " ' and & is not changed by escaping |
| Text.TrimSpec | config/config.php:296 | trim removes exactly the leading and trailing white space: the result is a slice of the text with only white space around it, and starts and ends with a non-space |
| Text.TrimIdempotent | config/config.php:296 | trimming twice is trimming once |
| Text.SplitJoin | api/setup.php:265 | joining the pieces of explode with the separator gives back the text |
| Text.SplitCount | api/setup.php:265 | explode gives one more piece than there are separators |
| InitDatabase.InitRun | database/init_database.php:51-72 | every statement tried is counted once, as a success or as an error |
| InitDatabase.InitRunSnoc | database/init_database.php:54-72 | the counters after one more statement are one loop turn applied to the counters before it |
| InitDatabase.Runnable | database/init_database.php:55-58 | the statements run are those that are neither empty nor start with `--` |
| InitDatabase.RunsEveryStatement | database/init_database.php:54-72 | the initializer hands every non-empty, non-comment statement to the database, INSERTs included |
| InitDatabase.NoErrorsIff | database/init_database.php:60-78 | the error count is zero exactly when every statement that is run succeeds: a rejected statement and a lost connection both count as errors |
| InitDatabase.SetupHoldsBackInserts | database/init_database.php:54-72 | the setup endpoint sends the same statements as the initializer, minus the INSERTs |
| InitDatabase.Existing | database/init_database.php:114-143 | at most as many tables are reported existing as are expected |
| InitDatabase.ExistingIff | database/init_database.php:131-138 | a table is reported exactly when it is expected and exists |
| InitDatabase.VerifyTables | database/init_database.php:114-143 | the loop reports exactly the expected tables that exist, in order |
| InitDatabase.Initialize | database/init_database.php:21-86 | no connection, a missing file and an unreadable file each stop with false; otherwise the counters of the statement loop, the tables looked for only when no statement failed, and true exactly then |
| PrintControls.Underscored | assets/js/dashboard.js:650 | the download name has no white space left, and holds a '$' exactly when the business name does |
| PrintControls.UnderscoredPlain | assets/js/dashboard.js:650 | a name without white space is used as it is |
| PrintControls.ControlsDollar | assets/js/dashboard.js:594-672 | the controls markup holds a '$' exactly when the business name does |
| PrintControls.SubstitutePlain | assets/js/dashboard.js:674 | a replacement string without '$' is inserted literally by String.prototype.replace |
| PrintControls.SubstituteMatched | assets/js/dashboard.js:674 | `$&` in a replacement string stands for the matched text |
| PrintControls.NoBodyUnchanged | assets/js/dashboard.js:674 | a page without '<body>' is returned unchanged, as written and as intended |
| PrintControls.InsertedOnceAfterFirstBody | assets/js/dashboard.js:593-675 | the intended result is the page with the controls inserted once, right after the first '<body>', and nothing else changed |
| PrintControls.AsWrittenAgreesWithoutDollar | assets/js/dashboard.js:674 | for a business name without '$' the code as written inserts the controls exactly as intended |
| PrintControls.PlainReplacement | assets/js/dashboard.js:674 | replacing the first tag by the tag followed by a '$'-free text inserts that text after the first tag |
| PrintControls.ReplaceWithAmpersand | assets/js/dashboard.js:650-674 | a `$&` inside the replacement is expanded to the matched '<body>' |
| PrintControls.DollarAmpersandMangles | assets/js/dashboard.js:650-674 | for the business name `$&` the code as written puts '<body>' into the download file name, so its page is 4 characters longer than the intended one |
| ResponseGenerator.ExtractKeywords | ml_models/response_generator.py:172-177 | a word is a keyword exactly when it is a word of the lower-cased text, not a stop word, and longer than two characters |
| ResponseGenerator.PronounsDropped | ml_models/response_generator.py:172-177 | 'my', 'me', 'we', 'you' and 'your' are never keywords |
| ResponseGenerator.Score | ml_models/response_generator.py:219-221 | a category's score counts its phrases found in the text: at most the number of phrases, and 0 exactly when none is found |
| ResponseGenerator.FirstMax | ml_models/response_generator.py:224 | max(scores, key=scores.get) picks the first category with the highest score |
| ResponseGenerator.ClassifyPicksFirstTop | ml_models/response_generator.py:204-226 | the category is the first with the highest score, and the confidence min(0.8, 0.2 x that score) |
| ResponseGenerator.FallbackConfidenceBounds | ml_models/response_generator.py:225 | the fallback confidence lies between 0.0 and 0.8 |
| ResponseGenerator.NoPhraseZeroConfidence | ml_models/response_generator.py:218-226 | the confidence is 0.0 exactly when no phrase of any category occurs, and then the first category is returned |
| ResponseGenerator.NoPhraseIsPlanningZero | ml_models/response_generator.py:210-226 | a question with none of the 46 phrases is classified ('business_planning', 0.0), and only such a question |
| ResponseGenerator.ClassifyNeverHalf | ml_models/response_generator.py:223-228 | the confidence is never 0.5 |
| ResponseGenerator.DefaultBranchUnreachable | ml_models/response_generator.py:227-228 | the ('business_planning', 0.5) default is never returned, because the score table is never empty |
| ResponseGenerator.Choose | ml_models/response_generator.py:248-250 | random.choice returns an element of a non-empty list |
| ResponseGenerator.AddContextInfo | ml_models/response_generator.py:272-292 | for funding with a budget: small-business advice below 10,000, angel investors below 100,000, venture capital otherwise |
| ResponseGenerator.ContextInfoIff | ml_models/response_generator.py:272-292 | context advice is added exactly for funding with a budget, or marketing with the type technology, software, retail or ecommerce |
| ResponseGenerator.ContextSectionIff | ml_models/response_generator.py:252-259 | the advice adds its length plus a blank line to the answer, and changes it exactly when it is non-empty |
| ResponseGenerator.GenerateResponse | ml_models/response_generator.py:230-270 | a blank question gets the help text with category 'general' and confidence 0.0; any other gets the predicted category, its keywords, and its templates' greeting, answer and tip with the context advice, or a generic text when the category has no templates |
| ResponseGenerator.FallbackCategoryKnown | ml_models/response_generator.py:204-226 | the rule-based category is one of the six names, never 'general' |
| ResponseGenerator.GeneralOnlyWhenBlank | ml_models/response_generator.py:232-242 | without a model the category is 'general' exactly when the question is blank |
| ResponseGenerator.NoModelFileGeneric | ml_models/response_generator.py:230-270 | when the model file is missing no templates are loaded, so every non-blank question gets a generic text |
| ResponseGenerator.LoadedTableTemplated | ml_models/response_generator.py:243-259 | when all six categories have templates, a non-blank question is always answered from templates |
| ResponseGenerator.GetCategoryInfo | ml_models/response_generator.py:305-315 | 'Category not found' exactly for a category unknown to the model, otherwise the information about that category |
| ResponseGenerator.NamedAreCategories | ml_models/response_generator.py:317-327 | the categories with a description are exactly the six of the rule-based classifier |
| ResponseGenerator.OtherCategoryInfo | ml_models/response_generator.py:317-399 | a known category outside the six gets 'General business advice and guidance' with no questions and no resources |
| Setup.CreateRun | api/setup.php:78-98 | only statements that are neither empty, comments nor INSERTs reach the database; every error is the connection failure message; tables created plus errors never exceed the statements tried |
| Setup.CreateRunSnoc | api/setup.php:78-98 | the loop's counters after one more statement are one loop turn applied to the counters before it |
| Setup.CreateTableAttempted | api/setup.php:80-91 | every CREATE TABLE statement, in any letter case, is handed to the database |
| Setup.CreatedAtMost | api/setup.php:90-93 | no more tables are reported created than there are CREATE TABLE statements |
| Setup.CreatedAll | api/setup.php:90-93 | when every statement runs, every CREATE TABLE statement is counted |
| Setup.ErrorsOnlyFromConnection | api/setup.php:89-97 | a statement the database rejects is not reported: the errors list stays empty unless the connection itself fails |
| Setup.RejectionsUnreported | api/setup.php:89-106 | when the database rejects every statement, the answer still reports success, no table created and no error |
| Setup.CreateTables | api/setup.php:56-115 | a missing or unreadable file gives its failure message; otherwise the loop's table count and errors over the split script, with exactly the statements it tried sent to the database |
| Setup.ScriptCreatesItsTables | api/setup.php:56-106 | a script of plain statements that all run reports every CREATE TABLE as created and no error |
| Setup.FoundBounds | api/setup.php:220-225 | the number of tables found is at most the number expected, and equal exactly when every one exists |
| Setup.VerifySetup | api/setup.php:210-255 | the loop computes the report: tables found out of ten and the three default-data counts, or the verification error |
| Setup.ReportOutOfTen | api/setup.php:213-246 | a report exists exactly when the database is reachable and the counts could be read, and then it gives found out of 10, with 10 exactly when every expected table exists |
| Setup.TemplateRows | api/setup.php:138-168 | one template row per seed, in order |
| Setup.ResourceRows | api/setup.php:170-188 | one resource row per seed, in order |
| Setup.DefaultRows | api/setup.php:119-196 | thirteen rows in all are inserted |
| Setup.FirstFailure | api/setup.php:133-188 | the first failing insert is found, and none exactly when every insert succeeds |
| Setup.InsertDefaultData | api/setup.php:119-206 | the admin, the six templates and the six resources are inserted in order until one fails, which ends the run with its error; no row is inserted without a connection |
| Setup.InsertCountsFixed | api/setup.php:190-197 | the counts are reported exactly when every insert succeeds, and then they are 1, 6 and 6 |
| Setup.DefaultRowsShape | api/setup.php:126-188 | the admin row first, then six Musanze templates, then six resources tagged with their lower-cased category, 'startup' and 'business' |
| Setup.CheckConnection | api/setup.php:30-53 | the connection is reported exactly when the database is reachable, with its information |
| Setup.Handle | api/setup.php:11-304 | OPTIONS gets the preflight answer; otherwise the action, by default check_connection, selects one of the four reports, and any other action gets 'Invalid action' and success false |
| SmartModel.BucketPrecedence | ml_models/musanze_smart_model.py:46-56 | the budget range is the first of 1-5M, 5-15M, 15-50M, 50M+ whose tokens occur in the lower-cased text, and none exactly when no token occurs |
| SmartModel.ShortTokensSuffice | ml_models/musanze_smart_model.py:47-53 | for the first three ranges the test with the 'm' is redundant: the range fires exactly when its short token occurs |
| SmartModel.BucketsPartitionCosts | ml_models/musanze_smart_model.py:62-69 | every startup cost lies in exactly one of the four cost bands |
| SmartModel.Where | ml_models/musanze_smart_model.py:59-69 | a filter keeps exactly the rows that satisfy it, and nothing else |
| SmartModel.WhereAppend | ml_models/musanze_smart_model.py:59-69 | filtering a concatenation is filtering each part and concatenating: with WhereSingle, the rows kept are the passing rows in dataset order |
| SmartModel.WhereSingle | ml_models/musanze_smart_model.py:59-69 | a single row is kept exactly when it passes the filter |
| SmartModel.Top10 | ml_models/musanze_smart_model.py:75 | head(10) keeps the first ten rows, or all of them when there are fewer |
| SmartModel.ByBudget | ml_models/musanze_smart_model.py:41-103 | a listing only for a recognised range and exactly when some row has that label and a cost in the band; the listing is the first ten such rows in dataset order |
| SmartModel.ByBudgetNone | ml_models/musanze_smart_model.py:59-72 | for a recognised range, no listing exactly when no row has that label and a cost in the band |
| SmartModel.MappedTypes | ml_models/musanze_smart_model.py:110-145 | business_mapping.get gives the types listed under the exact key, and nothing for any other key |
| SmartModel.TypesOfKeysIn | ml_models/musanze_smart_model.py:238-242 | the matching types are those of every mapping key contained in the word |
| SmartModel.ByType | ml_models/musanze_smart_model.py:105-185 | the question about the budget exactly when no row has a type mapped to the word; otherwise the first ten rows of those types in dataset order |
| SmartModel.ByTypeAndBudget | ml_models/musanze_smart_model.py:187-292 | nothing for an unrecognised range or a word containing no mapping key; otherwise the first ten rows in dataset order of a matched type, labelled with the range and in its band, or the apology naming word and range exactly when there are none |
| SmartModel.FirstIndexSpec | ml_models/musanze_smart_model.py:314-317 | the word found is the first of the list that occurs, and none is found exactly when none occurs |
| SmartModel.HasBudgetIffBucket | ml_models/musanze_smart_model.py:303-306 | predict's budget tokens occur in a lower-case text exactly when get_businesses_by_budget recognises a range in it |
| SmartModel.BudgetOnlyListing | ml_models/musanze_smart_model.py:306-326 | a budget with none of the 28 type words and a non-empty listing is answered with that listing |
| SmartModel.TourismNeverChosen | ml_models/musanze_smart_model.py:330-341 | 'tour' comes before 'tourism' in the list, so 'tourism' is never the type word found |
| SmartModel.RouteFallsThrough | ml_models/musanze_smart_model.py:300-360 | the keyword scoring is reached exactly when no type word occurs and no budget listing was given |
| SmartModel.AddWords | ml_models/musanze_smart_model.py:24-28 | the keywords after a row are the earlier ones plus its words longer than two characters, each with a non-empty list |
| SmartModel.CollectKeys | ml_models/musanze_smart_model.py:17-28 | a word is a keyword exactly when some row's lower-cased business type has it and it is longer than two characters |
| SmartModel.MostCommon | ml_models/musanze_smart_model.py:31-32 | the chosen answer occurs in the list, no answer occurs more often, and it is the first to reach that count |
| SmartModel.IsBestUnique | ml_models/musanze_smart_model.py:367-373 | at most one word is the first with the highest score |
| SmartModel.AddRowWords | ml_models/musanze_smart_model.py:24-28 | the word loop builds the keyword lists AddWords describes |
| SmartModel.MostCommonOfEach | ml_models/musanze_smart_model.py:31-32 | the second loop keeps every keyword and gives each its most common answer |
| SmartModel.Model.constructor | ml_models/musanze_smart_model.py:6-9 | a new model has no keywords and is not trained |
| SmartModel.Model.Train | ml_models/musanze_smart_model.py:11-39 | a dataset that cannot be read gives 0.0 and no change; otherwise the model is trained with each keyword's most common answer and 0.999 is returned |
| SmartModel.Model.BestWord | ml_models/musanze_smart_model.py:361-373 | the loop finds the first known word with the highest score, and none exactly when no word is known |
| SmartModel.Model.Predict | ml_models/musanze_smart_model.py:294-382 | 'Model not trained yet.' before training; then the routed listing; otherwise the best-scoring keyword's answer, or the general text when no word is known or that answer is empty |
| SqlScript.FromLineBreak | api/setup.php:261 | the rest of the text from its first line break on, shorter than the text unless that starts with a line break, with no line break before it |
| SqlScript.StripLineComments | api/setup.php:261 | no `--` survives the first pass, and a leading '-' left over was a lone '-' of the input |
| SqlScript.NoLineCommentKept | api/setup.php:261 | a text without `--` passes through unchanged |
| SqlScript.LineCommentRemoved | api/setup.php:261 | a `--` comment is removed up to, not including, the end of its line, and the text before it is kept |
| SqlScript.LineCommentToEnd | api/setup.php:261 | a `--` comment on the last line removes the rest of the text |
| SqlScript.NoBlockCommentKept | api/setup.php:262 | a text without `/*` passes the second pass unchanged |
| SqlScript.BlockCommentRemoved | api/setup.php:262 | a `/* … */` comment, across lines too, is removed up to its first `*/`, and the text before it is kept |
| SqlScript.BlockCommentAtStart | api/setup.php:262 | a comment at the start is removed up to its first `*/` |
| SqlScript.UnclosedCommentKept | api/setup.php:262 | an unclosed `/*` is kept, together with everything after it |
| SqlScript.Clean | api/setup.php:267-274 | the surviving pieces are trimmed, none is PHP-empty, and there are no more of them than pieces |
| SqlScript.SplitSQL | api/setup.php:259-276 | every statement is trimmed, non-empty and free of ';', and there are at most one more of them than ';' in the comment-free text |
| SqlScript.StripLineShrinks | api/setup.php:261 | the line-comment pass only removes characters |
| SqlScript.StripBlockShrinks | api/setup.php:262 | the block-comment pass only removes characters |
| SqlScript.StatementCount | api/setup.php:259-276 | a script yields at most one more statement than it has ';' |
| SqlScript.ScriptHasNoComment | api/setup.php:261-262 | statements without comment markers joined with ';' hold no comment marker |
| SqlScript.SplitScript | api/setup.php:265 | explode(';') of statements joined with ';' gives back those statements |
| SqlScript.CleanPlain | api/setup.php:267-274 | plain statements are kept as they are by the clean-up |
| SqlScript.SplitScriptRoundTrip | api/setup.php:259-276 | splitting the script of plain, trimmed, non-empty statements joined with ';' gives back exactly those statements |
| SqlScript.SemicolonAlwaysSplits | api/setup.php:265 | every ';' splits, whatever precedes it |
| SqlScript.QuotedSemicolonSplits | api/setup.php:265 | a ';' inside a quoted SQL string literal splits the statement in two |
| SqlScript.QuotedDashesTruncate | api/setup.php:261 | a `--` inside a quoted SQL string literal removes the rest of its line as if it were a comment |

## Left out

- HTTP plumbing is not modelled: headers, CORS, reading `php://input`, JSON encoding, the stray `1` printed before the chat endpoint's JSON, and the Python scripts' printed diagnostics. Requests are already-decoded values and responses are constructors of a result datatype.
- Files and databases are not modelled as such. The dashboard JSON file, the activity log, `logMessage`, model pickles and CSV files, PDO/MySQL and the SQL engine are values passed in or class fields. Most database failures are parameters (a flag, a set of failing keys or an `ExecOutcome`). In `AuthDb` only the session insert's failure is a parameter; its catch-all answers are listed below.
- Strings are sequences of characters. Case mapping, `\w` and white space cover ASCII plus the few Latin-1 spaces that Python and JavaScript trim. There is no Unicode case folding and no byte encoding.
- Fixed prose (canned chat replies, template paragraphs, HTML styling, document boilerplate) is abbreviated to tags or constants. Every place a user input or a table field enters the output is kept.
- Emoji in the enhanced-answer section headings are left out of the heading constants.
- The clock (`time()`, `date()`, `NOW()`, `datetime.now()`), random draws (`rand`, `mt_rand`, `array_rand`, `Math.random`, `random.choice`), `password_hash`/`password_verify`, `random_bytes`, `md5` and `filter_var` are parameters or function-valued fields. No particular random value is asserted.
- Floating point is modelled as `real` with exact arithmetic. `toFixed`, `Intl.NumberFormat`, `round(…, 1)` and the representation of doubles are not modelled. JSON floats are not a case of the request value.
- Php.SwitchMatches: PHP 7.4's loose `==` is not modelled. There `switch (0)` matches the case 'add_activity', and an integer budget of 1000 selects the '1000-5000' case of the ideas budget switch (api/ideas.php:260-290). PHP 8 compares both as strings and matches neither.
- Config.Strlen, Config.ValidateCSRFToken, ExportPlan.TemplateFor, DemoAuth.Login: an array where a string is needed is a `TypeError` (`None`, `NotAString`, `IllegalKey`), as in PHP 8. PHP 7.4 gives a warning and carries on with null or false instead; that path is not modelled.
- Php.Escape: escapes `'` as `&#039;`, which `htmlspecialchars` without flags does only from PHP 8.1. Under 7.4 the single quote in exported documents (api/export-business-plan.php:423-474) is left as is.
- Config.NumericString: accepts trailing whitespace, which PHP 8 does and PHP 7.4 does not.
- AuthDb.AuthManager.Login, AuthDb.AuthManager.Register, AuthDb.VerifySession, AuthDb.AuthManager.Logout: a database exception other than the session insert's is not modelled. Those exceptions give 'Login failed. Please try again.' (api/auth_db.php:90-95), 'Registration failed…' (api/auth_db.php:162-171), 'Session verification failed' (api/auth_db.php:209-214) or 'Logout failed' (api/auth_db.php:231-236).
- AuthDb.NewRow: the new user's status 'active' and unverified e-mail are assumed column defaults, because the users table's schema is not part of this model (`AuthDb.NewAccountStatus`).
- AuthDb.FindActive, AuthDb.EmailTaken: compare e-mail addresses exactly. The connection's `utf8mb4_unicode_ci` collation (config/database.php:39) makes MySQL's `WHERE email = ?` case-insensitive, so addresses differing only in case are one account in the source and two in the model.
- DashboardStore.StatsUpdate: for a JSON list given as `stats`, the model merges nothing. `array_merge` would append the list's entries under new integer keys, which the statistics map does not model.
- `usort` on equal scores or timestamps is not stable under PHP 7.4. The model proves ordering facts that hold for any order of ties.
- PHP `intval` on arbitrary text is modelled for leading digits only. Numeric-string coercion in comparisons and `is_numeric` on floats are not modelled.
- The OpenAI and other language-model HTTP calls are not modelled: their outcome is a parameter. This covers `_create_enhancement_prompt`, `train_with_kaggle_data` in ml_models/enhanced_ai_integration.py and the unseen Kaggle dataset manager.
- scikit-learn fitting, TF-IDF, LabelEncoder and pandas are not modelled. Only the bookkeeping around them is kept, and their results are passed in.
- The analytics figures drawn at random (user metrics, trends, performance) are not modelled beyond their shape.
- In the database auth: the rememberMe cookie, the clearing of the session cookie and `trackUserActivity` write only to the client or a log, and are left out.
- In user management: numeric coercion of ids, the meaning of preference keys, the cascade deletes the schema performs and the statistics query are left out. The statistics are a parameter.
- In the configuration helpers: `getConfig`, `logMessage` and `session_start` are not modelled.
- In the installers: the echoed progress text, `checkDefaultData` and `getDatabaseInfo` (which only print) and the JSON encoding of template data and tags are not modelled. `tableExists` is a parameter, so its LIKE wildcards are not modelled. The `DatabaseInitializer` constructor's path handling is not modelled.
- SmartModel.Model.Train: modelled only from a fresh model, with an empty keyword table. On a model that is already trained, the source appends to answer strings, raises, and returns 0.0 with the table half-rebuilt. That case is not modelled.
- In the export endpoint, custom `sections` given as a JSON object rather than a list are modelled as no sections (`ExportPlan.SectionValues`). The source would iterate over the object's values.
- The smart model and the response generator read their dataset and templates from files. Here they are parameters, so a missing file is a `None` or an empty table.
- DOM rendering, modals, charts, notifications and the regex markdown of `formatMessage` are not modelled.

## Findings

| source | as written | input that shows it | evidently intended | confidence | as-written member | corrected member |
|---|---|---|---|---|---|---|
| assets/js/dashboard.js:674 | `html.replace('<body>', '<body>' + controls)` uses a string replacement. JavaScript expands `$&`, `$'` and `` $` `` in it, and the business name is embedded in the controls | business name `$&` | the controls, with the business name as typed, inserted once after the first `<body>` | not executed | PrintControls.DollarAmpersandMangles | PrintControls.InsertedOnceAfterFirstBody |
