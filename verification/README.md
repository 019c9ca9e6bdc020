# CoEdit synthesis pipeline, modelled in Dafny

CoEdit produces personalised model outputs for a handful of synthetic users.
It has five parts:

- Static tables give each user a set of stylistic intents, and give each (task, dataset) pair a guideline.
- Prompt builders join the notes, the guideline and the user's preferences into the text sent to a model.
- The intent handler looks up the user's intents and sends one prompt to a model caller. The caller answers a string, or `None` when there is no client or the request fails.
- The dataset loader assigns examples to users round-robin.
- The driver visits every example user by user, records what was asked and answered, and saves the records in one JSON file per dataset.

Around these sit the cleanup of a local model's output, the flattening of a chat log into one completion prompt, and an experiment workspace whose conversation buffer is flushed into a log file.

The model has one module per source file:

| module | source |
|---|---|
| `GlobalIntents` (global_intents.dfy) | global_user_intents.py |
| `UserPreferences` (user_preferences.dfy) | src/task/user_preferences.py |
| `EmailWriting` (email_writing.dfy) | src/task/email_writing.py |
| `IntentHandler` (intent_handler.dfy) | src/task/intent_handler.py |
| `DatasetHelpers` (dataset_helpers.dfy) | src/task/dataset_helpers.py |
| `Driver` (driver.dfy) | main.py |
| `CallLlmHelpers` (call_llm_helpers.dfy) | src/utils/call_llm_helpers.py |
| `BaseLlm` (base_llm.dfy) | src/language_models/base_llm.py |
| `Workspaces` (workspace.dfy) | src/workspace/workspace.py |

Three modules are shared by the others:

- `Outcomes` holds `Option`, `Result` and the Python exceptions the code raises.
- `Text` holds Python's string operations: join, split, strip, slicing, `rfind`, ASCII `lower`, `str(int)` and string order.
- `Grouping` holds "the items with key k, in order" and "the keys in order of first appearance", which the dataset loader and `save_results` both use.

Code that changes state step by step is modelled as methods with loops, proved against specification functions. This covers the prompt loops, the table construction, the dataset construction and filters, the driver's loops, the chat flattening and the secrets loop.

Objects whose fields change are classes:

- `IntentHandler.Handler` holds the nested intent table and the record of model calls.
- `DatasetHelpers.InputDataset` holds the examples.
- `CallLlmHelpers.ModelCache` holds the module-level cache of loaded models.
- `BaseLlm.Llm` holds the dummy flag.
- `Workspaces.Workspace` holds the conversation buffer, with the log file, the sink and the artifacts as ghost sequences.

A Python `set` of intents is a duplicate-free sequence in a given enumeration order. Every join over it is stated for that order.

`main.py` line 76 calls `handler._construct_prompt`, and `IntentHandler` defines no such method (see "## Findings"). Because of this, the driver is modelled twice, selected by a `PromptSource`:

- `MissingMethod` is the code as written. Every example raises AttributeError and is skipped.
- `HandlerPrompt` is the evident intent. The recorded prompt is the prompt `process_input` builds and sends.

Three behaviours of the code are modelled as they are:

- An empty preference set still emits a "User preferences: " line in the email prompts.
- The base wrapper drops the first `len(prompt)` characters of every decoded output. It does not check that they echo the prompt.
- Each example is one `process_input` call. There is no separate draft-then-personalise stage.

## Model

| member | source | states |
|---|---|---|
| GlobalIntents.ValuesDistinct | global_user_intents.py:5-28 | the enum values are pairwise distinct: equal descriptions mean the same intent, so no member is an alias of another |
| GlobalIntents.FourPerPerspective | global_user_intents.py:5-28 | the sixteen members are listed once each, four under each comment heading, in heading order |
| GlobalIntents.UserIntentsKeys | global_user_intents.py:37-68 | USER_INTENTS has exactly the keys user1..user5 (in that insertion order, no repeats), each entry's user_id is its key, and no id contains an underscore |
| GlobalIntents.UserIntentsOnePerPerspective | global_user_intents.py:37-68 | every user holds four intents, one from each heading, listed in heading order |
| GlobalIntents.GuidelineIsLookup | global_user_intents.py:71-85 | the guideline lookup returns GLOBAL_GUIDELINES[task][dataset] when both keys exist and "" otherwise (the `.get(..., {}).get(..., "")` chain) |
| GlobalIntents.GuidelineKeys | global_user_intents.py:71-85 | the table has the two tasks, five summarization datasets and four email datasets, and no others |
| GlobalIntents.DefaultEmailDatasetsHaveGuidelines | src/task/email_writing.py:13 | each of the four default email datasets has a non-empty email guideline |
| GlobalIntents.Values | src/task/email_writing.py:49 | the values of a preference, one per intent and in the preference's order |
| UserPreferences.ValuesDistinct | src/task/user_preferences.py:5-25 | the thirteen enum values of this module are pairwise distinct |
| UserPreferences.TaskIntentsKeys | src/task/user_preferences.py:28-54 | TASK_INTENTS has an entry for exactly the three registered (task, dataset) pairs, each holding that pair's named combinations |
| UserPreferences.SummarizationCnnWellFormed | src/task/user_preferences.py:30-36 | the five cnn_dailymail combinations C1..C5 each hold three distinct intents |
| UserPreferences.SummarizationSlf5kWellFormed | src/task/user_preferences.py:37-43 | the five slf5k summarization combinations each hold three distinct intents |
| UserPreferences.EmailSlf5kWellFormed | src/task/user_preferences.py:46-52 | the five slf5k email combinations each hold three distinct intents |
| UserPreferences.CombinationsWellFormed | src/task/user_preferences.py:28-54 | every combination in TASK_INTENTS, under every registered pair, is well formed |
| UserPreferences.PicksShape | src/task/user_preferences.py:62-123 | the preferences built from combination Cn list exactly the registered pairs, and each entry is TASK_INTENTS[task][dataset][Cn] |
| UserPreferences.UserPreferencesKeys | src/task/user_preferences.py:62-123 | USER_PREFERENCES has exactly the keys user1..user5 |
| UserPreferences.UserEntry | src/task/user_preferences.py:62-123 | user n+1 is registered and takes combination C(n+1) for every pair |
| UserPreferences.UserIdsMatchKeys | src/task/user_preferences.py:62-123 | every entry's user_id equals its key |
| UserPreferences.UserUsesOwnCombination | src/task/user_preferences.py:62-123 | user n+1 has the two tasks, exactly the registered pairs under them, and combination C(n+1) of TASK_INTENTS for each |
| UserPreferences.GuidelinesCoverRegistered | src/task/user_preferences.py:126-134 | this module's GLOBAL_GUIDELINES has an entry for exactly the registered pairs |
| DatasetHelpers.Preview | src/task/dataset_helpers.py:122 | an article of at most 100 characters is shown whole; a longer one as its first 100 characters and "..." |
| DatasetHelpers.ExampleToString | src/task/dataset_helpers.py:121-123 | the string form is "<InputExample> article ID ", the id, ": " and the article itself when it has at most 100 characters, else its first 100 characters followed by "..." |
| DatasetHelpers.Used | src/task/dataset_helpers.py:133-134 | `islice(data, num_ex)` when num_ex > 0: the first num_ex records (all when fewer); every record when num_ex <= 0 |
| DatasetHelpers.Clamp | src/task/dataset_helpers.py:137-139 | num_users is capped at the five known users and kept when it is not larger |
| DatasetHelpers.InputDataset.constructor | src/task/dataset_helpers.py:131-152 | one example per used record, in order; example i has id "<record id>_<user>", the record's article, the dataset's type and the intents of user `user_ids[i % num_users]` |
| DatasetHelpers.InputDataset.Get | src/task/dataset_helpers.py:154-155 | indexing succeeds exactly for -len <= item < len and wraps negative indices as Python lists do; any other index is an IndexError |
| DatasetHelpers.InputDataset.GetUniqueUsers | src/task/dataset_helpers.py:160-170 | the result is strictly sorted and holds exactly the user ids the example ids end with |
| DatasetHelpers.InputDataset.ExamplesByUser | src/task/dataset_helpers.py:172-182 | the examples whose id ends in the user id, in dataset order, and no others |
| DatasetHelpers.CyclicSnoc | src/task/dataset_helpers.py:143-152 | one more loop iteration appends the example for record i with user `user_ids[i % n]` and keeps the round-robin shape |
| DatasetHelpers.RoundRobinUsers | src/task/dataset_helpers.py:143-168 | the user read back from example i's id is `user_ids[i % n]` (the ids contain no underscore) |
| DatasetHelpers.ExamplesOfUser | src/task/dataset_helpers.py:172-182 | example i belongs to user k exactly when i mod n is k |
| DatasetHelpers.RoundRobinUserSet | src/task/dataset_helpers.py:137-170 | the users of a round-robin dataset are the first min(len, n) user ids |
| DatasetHelpers.UserIdsSorted | src/task/dataset_helpers.py:160-170 | user1..user5 are already in sorted order |
| DatasetHelpers.UserIdLess | src/task/dataset_helpers.py:160-170 | an earlier user id sorts before a later one |
| DatasetHelpers.UniqueUsersOfRoundRobin | src/task/dataset_helpers.py:160-170 | the unique users of a round-robin dataset are exactly the first min(len, n) ids, in key order |
| DatasetHelpers.RunLength | src/task/dataset_helpers.py:40 | the length of the leading run of non-space characters of a string |
| DatasetHelpers.Words | src/task/dataset_helpers.py:40 | `str.split()` yields only non-empty words without whitespace |
| DatasetHelpers.WordsOfJoin | src/task/dataset_helpers.py:40 | splitting words joined by single spaces gives the words back |
| DatasetHelpers.WordsOfWord | src/task/dataset_helpers.py:40 | a single word splits to itself |
| DatasetHelpers.WordsCons | src/task/dataset_helpers.py:40 | a word, a space and a rest split to the word followed by the rest's words |
| DatasetHelpers.FilterWikipedia | src/task/dataset_helpers.py:38-42 | the loop keeps, in order, exactly the articles of more than 500 and fewer than 700 words |
| DatasetHelpers.NumberKept | src/task/dataset_helpers.py:57-82 | the k-th kept record is numbered k (`len(filtered_data)` at the time it is appended) |
| DatasetHelpers.NumberKeptSnoc | src/task/dataset_helpers.py:57-82 | one more input record appends one numbered record when it is kept, nothing otherwise |
| DatasetHelpers.FilterCcby | src/task/dataset_helpers.py:57-63 | the loop keeps the articles with highlights, numbered in order, with the title/abstract/highlights text |
| DatasetHelpers.AmpereRecords | src/task/dataset_helpers.py:68 | one record per input, with the input's doc_id as id and its text pieces joined by spaces |
| DatasetHelpers.Tweet | src/task/dataset_helpers.py:75-81 | a text is skipped exactly when it contains '[' or has no '"' (the ValueError of `index`) |
| DatasetHelpers.TweetOfQuoted | src/task/dataset_helpers.py:79 | for a text with exactly two quotes the tweet is the quoted body without its last two characters |
| DatasetHelpers.TweetBetween | src/task/dataset_helpers.py:79 | the tweet is the slice from after the first quote to two before the last quote |
| DatasetHelpers.FilterPaperTweet | src/task/dataset_helpers.py:73-82 | the loop keeps the tweets of the usable texts, numbered in order |
| DatasetHelpers.LoadData | src/task/dataset_helpers.py:8-88 | an unknown dataset name is a NotImplementedError; a known one gives the round-robin dataset of the prepared records with that dataset's id and article keys |
| EmailWriting.Datasets | src/task/email_writing.py:12-13 | the datasets are never empty: a configured non-empty list is used as it is, and an absent or empty one falls back to slf5k, ccby, ampere, paper_tweet |
| EmailWriting.TruncDiv | src/task/email_writing.py:27 | `int(a / b)` truncates toward zero, for negative numerators as well |
| EmailWriting.PerTypeCount | src/task/email_writing.py:21-27 | the per-type budget is -1 exactly when num_train_ex is -1, is at least 1 otherwise, is exactly 1 when num_train_ex is smaller than the number of dataset types, and otherwise splits num_train_ex evenly over the dataset types |
| EmailWriting.Take | src/task/email_writing.py:37 | `islice(r, c if c > 0 else None)`: the first c examples when 0 < c < len(r), all of them otherwise |
| EmailWriting.ChainLength | src/task/email_writing.py:37 | the chained examples number the sum of what is taken from each dataset |
| EmailWriting.TotalTakenBudget | src/task/email_writing.py:27-37 | with a positive budget at most budget times the number of datasets are kept |
| EmailWriting.ChainAll | src/task/email_writing.py:23-37 | with budget -1 every loaded example is kept, in order |
| EmailWriting.ChainWithin | src/task/email_writing.py:37 | the kept examples are a sub-multiset of the loaded ones: nothing is invented or duplicated |
| EmailWriting.GetDataset | src/task/email_writing.py:17-39 | the loop appends, per dataset in order, the first budget-many examples; the result is the chain of takes and has its length |
| EmailWriting.EmailTask.constructor | src/task/email_writing.py:11-14 | the task's data is the chained takes of the loaded datasets under the per-type budget |
| EmailWriting.EmailTask.Next | src/task/email_writing.py:41-46 | one (article, user preference, document type) triple per example, in order |
| EmailWriting.EmailGuidelineEmpty | src/task/email_writing.py:50 | the email guideline lookup is the email row of GLOBAL_GUIDELINES and is empty exactly for an absent or unregistered dataset type |
| EmailWriting.TaskPromptWithoutPreference | src/task/email_writing.py:66-70 | with no preference the task prompt is the notes and the plain instruction, whatever the dataset type |
| EmailWriting.TaskPromptWithPreference | src/task/email_writing.py:72-79 | with a preference the prompt is notes, guideline line, preference line and instruction joined by newlines |
| EmailWriting.TaskPromptEmptyPreference | src/task/email_writing.py:72-79 | an empty preference set still yields a "User preferences: " line with nothing after it |
| EmailWriting.BasePromptShape | src/task/email_writing.py:127-142 | the base prompt and the preference prompt share the notes and guideline lines; the base prompt has no preference line |
| EmailWriting.EditPromptShape | src/task/email_writing.py:144-164 | the edit prompt is notes, base email, guideline line, preference line and the revise instruction joined by newlines |
| EmailWriting.ResolutionPromptShape | src/task/email_writing.py:48-57 | the resolution prompt is the notes, the email/guideline/preference body and the yes/no style question quoting the preference |
| EmailWriting.EditRequestShape | src/task/email_writing.py:59-64 | the edit prompt of the pair is the same body followed by the revise instruction |
| EmailWriting.BlocksAppend | src/task/email_writing.py:84-86 | the correction blocks of a concatenation are the blocks of each part, concatenated |
| EmailWriting.BlocksSnoc | src/task/email_writing.py:84-86 | one more correction adds its "Original email" and "Revised email" lines at the end |
| EmailWriting.AppendBlocks | src/task/email_writing.py:83-86 | the loop over corrections appends every correction's two blocks, in order, to the prefix |
| EmailWriting.IclPrompt | src/task/email_writing.py:81-91 | the in-context prompt is the correction blocks followed by notes, guideline line and instruction joined by newlines |
| EmailWriting.PreferenceInferencePrompt | src/task/email_writing.py:105-115 | the inference prompt is the correction blocks followed by the guideline line, the question and the answer hint |
| EmailWriting.PrefLinesAppend | src/task/email_writing.py:96-98 | the preference lines of a concatenation are those of each part, concatenated |
| EmailWriting.PrefLinesSnoc | src/task/email_writing.py:96-98 | one more preference adds its "- ..." line at the end |
| EmailWriting.AppendPrefLines | src/task/email_writing.py:95-98 | the loop over preferences appends one "- ..." line per preference, in order |
| EmailWriting.IclPrefPrompt | src/task/email_writing.py:93-103 | the header, one line per preference, then notes, guideline line and instruction joined by newlines |
| EmailWriting.MajorityPreferencePrompt | src/task/email_writing.py:117-125 | the header, one line per preference, the guideline line ending in a newline, then the majority instruction |
| IntentHandler.FormatPlainPrefix | src/task/intent_handler.py:68 | `format` copies text without braces unchanged ahead of whatever the rest formats to, error included |
| IntentHandler.PrependTwice | src/task/intent_handler.py:67-68 | prefixing a result twice is prefixing it once with both prefixes |
| IntentHandler.FieldLayout | src/task/intent_handler.py:51 | the field `{input_text}` opens with one brace and closes right after the name |
| IntentHandler.FormatField | src/task/intent_handler.py:68 | formatting the bare field `{input_text}` yields the input text |
| IntentHandler.FormatTemplate | src/task/intent_handler.py:51-68 | formatting brace-free text followed by the field yields that text followed by the input |
| IntentHandler.Values | src/task/intent_handler.py:43-45 | one value per intent, in the set's order |
| IntentHandler.GetIntentDescription | src/task/intent_handler.py:40-46 | the loop collects every intent's value, in order, and joins them with ", " |
| IntentHandler.ValuesAppend | src/task/intent_handler.py:43-45 | the values of a concatenation are the values of each part, concatenated |
| IntentHandler.ValuesSnoc | src/task/intent_handler.py:43-45 | one more intent appends its value |
| IntentHandler.ValuePlain | src/task/user_preferences.py:5-25 | no intent value contains a brace |
| IntentHandler.DescriptionPlain | src/task/intent_handler.py:40-46 | a description contains no brace, so formatting the template cannot trip over it |
| IntentHandler.TemplateTextPlain | src/task/intent_handler.py:51 | the fixed text of the template and the field name contain no brace |
| IntentHandler.CreatePromptTemplate | src/task/intent_handler.py:48-51 | the template is the fixed head, the description, "\n\nInput text:\n" and the `{input_text}` field (the doubled braces of the f-string) |
| IntentHandler.FormatConfig | src/task/intent_handler.py:36-68 | formatting any stored template with the input never raises and yields the fixed text around the description, then the input |
| IntentHandler.PrefsOf | src/task/intent_handler.py:27-28 | the preferences the loop reads: one entry per user, holding that user's task preferences |
| IntentHandler.EnsureTask | src/task/intent_handler.py:29-30 | after `if task not in self.intents` the task is present |
| IntentHandler.EnsureDataset | src/task/intent_handler.py:33-34 | after `if dataset not in self.intents[task]` the dataset is present |
| IntentHandler.PrefsOfUnique | src/task/intent_handler.py:27 | preferences with the users' keys and the users' entries are the preferences of the users |
| IntentHandler.EnsureTaskFacts | src/task/intent_handler.py:29-30 | adding an empty task entry adds only that task and changes no dataset or configuration |
| IntentHandler.EnsureDatasetFacts | src/task/intent_handler.py:33-34 | adding an empty dataset entry adds only that dataset and changes no configuration |
| IntentHandler.SetEntryFacts | src/task/intent_handler.py:38 | storing a configuration adds or replaces only that user's entry under that task and dataset |
| IntentHandler.AddUserFacts | src/task/intent_handler.py:27 | starting a new user lists nothing new |
| IntentHandler.AddTaskFacts | src/task/intent_handler.py:28 | starting a new task of a user lists that task and no new dataset |
| IntentHandler.AddDatasetFacts | src/task/intent_handler.py:32 | one more dataset of a user lists exactly that (user, task, dataset) entry with its intents |
| IntentHandler.BuiltEmpty | src/task/intent_handler.py:22 | the empty table is the table of no preferences |
| IntentHandler.StepUser | src/task/intent_handler.py:27 | the table stays the table of the preferences read when a new user begins |
| IntentHandler.StepTask | src/task/intent_handler.py:28-30 | adding the task entry keeps the table in step with the preferences read, one task more |
| IntentHandler.StepDataset | src/task/intent_handler.py:32-38 | adding the dataset entry and storing the configuration keeps the table in step, one dataset more |
| IntentHandler.TaskStep | src/task/intent_handler.py:28-30 | the first half of the task loop's body keeps the invariant |
| IntentHandler.DatasetStep | src/task/intent_handler.py:32-38 | one iteration of the dataset loop keeps the invariant over the datasets not yet visited |
| IntentHandler.PicksRegistered | src/task/user_preferences.py:62-123 | every user's preferences list exactly the registered pairs |
| IntentHandler.UserPreferencesRegistered | src/task/user_preferences.py:62-123 | USER_PREFERENCES is non-empty and every user in it lists exactly the registered pairs |
| IntentHandler.PrefsShape | src/task/intent_handler.py:27-32 | for users that each list the registered pairs, the preferences read list exactly every user under every registered pair |
| IntentHandler.BuiltShape | src/task/intent_handler.py:25-38 | the built table has exactly the two tasks, under each exactly its registered datasets, under each every user, with the configuration of that user's intents |
| IntentHandler.TableShape | src/task/intent_handler.py:25-38 | the same for the table `_initialize_intents` builds from USER_PREFERENCES |
| IntentHandler.GlobalGuidelinesCover | src/task/user_preferences.py:126-134 | GLOBAL_GUIDELINES has a guideline for exactly the registered pairs |
| IntentHandler.RequestOutcome | src/task/intent_handler.py:53-71 | on the built table a request fails exactly when the task, the dataset or the user is unknown, with that ValueError message, checked in that order; otherwise the prompt is the guideline, a blank line and the formatted template, and no KeyError or format error can occur |
| IntentHandler.Handler.constructor | src/task/intent_handler.py:15-23 | the caller is kept, nothing has been called, and the table is the one built from the user preferences |
| IntentHandler.Handler.InitializeIntents | src/task/intent_handler.py:25-38 | the empty table becomes the table of the handler's user preferences |
| IntentHandler.Handler.AddAllUsers | src/task/intent_handler.py:27-38 | the loop over users, in any key order, builds exactly the table of their preferences |
| IntentHandler.Handler.AddUserIntents | src/task/intent_handler.py:28-38 | the loop over one user's tasks adds exactly that user's entries |
| IntentHandler.Handler.AddTaskIntents | src/task/intent_handler.py:32-38 | the loop over one task's datasets adds exactly that user's entries under the task |
| IntentHandler.Handler.ProcessInput | src/task/intent_handler.py:53-71 | an unknown task, dataset or user raises its ValueError, a missing guideline its KeyError and a bad template its format error, all without calling the model; otherwise the model receives the prompt and the input exactly once and its answer, `None` included, is returned |
| Driver.UserPreferenceString | main.py:82 | the preference string is the intents' values joined by ", ", and "" for an example without intents |
| Driver.RecordsSnoc | main.py:69-96 | one more visited example appends its own record (if any) and its own model call (if any) after those of the earlier ones |
| Driver.Pairs | main.py:65-69 | the visits of one user pair that user with each of their examples, in order |
| Driver.VisitsAppend | main.py:65-69 | visiting the examples of users `a` and then users `b` is visiting those of `a + b` |
| Driver.VisitsSnoc | main.py:65-69 | one more user appends that user's examples, as `get_examples_by_user` selects them, to the visits |
| Driver.VisitsRegroup | main.py:65-69 | the examples are visited exactly in the order of grouping them by user, user by user |
| Driver.VisitsUsers | main.py:65-69 | every visit is made on behalf of the user the visited example belongs to |
| Driver.SelectedUser | main.py:67 | every example selected for a user belongs to that user |
| Driver.VisitedExamples | main.py:69 | the visited examples, one per visit, in visit order |
| Driver.VisitsEveryExample | main.py:65-69 | with the dataset's sorted unique users, every example is visited exactly once, by its own user |
| Driver.RegroupedVisits | main.py:65-69 | with the sorted unique users, the visit order is the user-by-user regrouping of the dataset, a permutation of its examples of the same length |
| Driver.SortedDistinct | main.py:65 | a strictly sorted user list has no repeated user |
| Driver.UsersCovered | main.py:65 | every example's user is among the unique users |
| Driver.AsWrittenRecordsNothing | main.py:74-98 | as written, `handler._construct_prompt` raises AttributeError for every example, which the except clause swallows: no record is stored and the model is never called |
| Driver.RecordedPromptIsSent | main.py:76-96 | as intended, records and answered model calls correspond one to one: each record's prompt is the prompt sent to the model and its result is the model's answer to that prompt and article; a call answered `None` leaves no record |
| Driver.Answered | main.py:77-79 | the answered calls are at most the calls made, each is one of them, and the caller answers each with a string |
| Driver.AnsweredAll | main.py:77-79 | with a caller that never answers `None`, every call is answered |
| Driver.RecordsOfDataset | main.py:86 | every record of a dataset names that dataset |
| Driver.RequestForRegistered | src/task/intent_handler.py:53-72 | for a user with preferences for a registered task and dataset, the request `process_input` builds succeeds with the guideline-and-intents prompt |
| Driver.RecordForRegistered | main.py:76-96 | as intended, a registered visit calls the model exactly once, with the expected prompt and the article; on a `None` answer (TypeError at line 79) nothing is stored, otherwise exactly one record: dataset, user, article id, the first 100 characters of the article, the dataset guideline, the preference string, the prompt, the answer, the model name and the timestamp |
| Driver.RecordForPrompt | main.py:76-96 | a visit whose prompt and request are the same text calls the model once on it, stores nothing on a `None` answer and otherwise the record of that answer |
| Driver.RecordsOneEach | main.py:69-96 | when every visit stores its own record, the records follow the visits one to one, user and article id included |
| Driver.CallsOneEach | main.py:69-96 | when every visit makes exactly one model call, on its own article, the calls follow the visits one to one |
| Driver.EveryVisitRecorded | main.py:69-96 | as intended, with every user's intents built, every visit of a registered dataset calls the model once on its article, in visit order; with a caller that always answers, every visit is recorded, in visit order |
| Driver.LoadedUsersHavePreferences | main.py:59-65 | every user `load_data` assigns an example to has configured preferences |
| Driver.EveryLoadedExampleRecorded | main.py:59-96 | as intended, a registered dataset makes one model call per example `load_data` returns and keeps at most one record per example, exactly one when the caller always answers |
| Driver.SavedGuidelineIsNotPromptGuideline | main.py:62 | the guideline stored in the records (global_user_intents.py) differs from the one the handler puts in the prompt (user_preferences.py) for summarization/cnn_dailymail |
| Driver.PairsStep | main.py:69-96 | one more example of a user appends its own record and call |
| Driver.RecordsOnlyAppend | main.py:85 | records are only ever appended: the records of `a + b` are those of `a` followed by those of `b` |
| Driver.CallsAppend | main.py:77 | model calls are only ever appended: the calls of `a + b` are those of `a` followed by those of `b` |
| Driver.VisitExample | main.py:69-98 | one example stores the record `RecordFor` describes (none when either call raises or the answer is `None`) and makes exactly the model calls `CallsFor` describes, and nothing else |
| Driver.CollectUser | main.py:67-98 | one user's loop stores the records of that user's examples in order and appends exactly their model calls |
| Driver.Collect | main.py:65-98 | the user loop visits the sorted unique users; the stored records and the appended model calls are those of all visits in that order |
| Driver.ConfiguredHandlerReady | src/task/intent_handler.py:15-38 | the handler built from the configured preference and guideline tables has every user's intents registered and every registered task and dataset covered by a guideline |
| Driver.ProcessDataset | main.py:54-98 | an unknown dataset raises NotImplementedError with no model call; otherwise every record names the dataset, as written there are none and no call, and as intended records and answered calls correspond one to one, with one call per loaded example and at most one record per loaded example, exactly one when the caller always answers |
| Driver.ProcessTask | main.py:54-98 | a task succeeds exactly when all its datasets are known (else NotImplementedError); its records come from its datasets, none as written, as intended at most one per loaded example and exactly one when the caller always answers |
| Driver.DatasetStep | main.py:54-98 | one more dataset keeps the task's invariant: records from the datasets so far, none as written, as intended at most the examples loaded so far, exactly that many when the caller always answers |
| Driver.SourcesStep | main.py:54-86 | records of the earlier datasets and records of one more dataset all come from the datasets so far |
| Driver.TaskLoadedStep | main.py:54-59 | the examples loaded for one more dataset add to the task's total |
| Driver.ProcessTasks | main.py:48-98 | the task loop succeeds exactly when every dataset of every task is known; it yields one result list per task, in order, each satisfying the task invariant |
| Driver.TasksStep | main.py:51-98 | one more task keeps the loop invariant over the result lists |
| Driver.TasksKnown | main.py:42-45 | the configured datasets are known to `load_data` and registered for their task |
| Driver.AllTasksDone | main.py:42-98 | for the configured tasks, every record comes from its task's datasets and, as intended, each task has at most one record per loaded example, exactly one when the caller always answers |
| Driver.NewHandler | main.py:39 | the handler is fresh, uses the given model caller, has made no call, and has every user's intents registered |
| Driver.Run | main.py:36-101 | one result list per configured task, with records from its datasets; as written no file is saved; as intended at most one record per loaded example, exactly one when the model caller always answers; the saved files are those `save_results` derives from the results |
| Driver.SavedFilesSnoc | main.py:20-34 | one more task appends its own files after those of the earlier tasks |
| Driver.TaskFilesSnoc | main.py:30-33 | one more dataset of a task appends its file, holding that dataset's records |
| Driver.FileNameSplit | main.py:31 | the file name is the directory, "/", task, "_", the dataset, "_samples", the sample count, "_", the timestamp and ".json" |
| Driver.FileNameInjective | main.py:31 | two datasets of one task never share a file name |
| Driver.TaskFilesContents | main.py:22-33 | the files of a task, read in order, hold its records regrouped by dataset |
| Driver.TaskFilesTail | main.py:30-33 | dropping the first dataset drops its file only |
| Driver.TaskFilesPartition | main.py:20-33 | a task's records are split into one non-empty file per dataset, in order of first appearance, each holding exactly that dataset's records, with distinct names; together they are a permutation of the records |
| Driver.TaskFilesOrder | main.py:20-33 | a task's files follow its datasets in order of their first record, and each file keeps its records in the order they were produced |
| Driver.NoRecordsNoFiles | main.py:20-30 | tasks without records write no file |
| Driver.SelectAbsent | main.py:22-27 | a dataset that no record names has no records |
| Driver.SelectNone | main.py:22-27 | selecting a dataset no record names gives nothing |
| Driver.SaveResults | main.py:11-34 | the files written are, task by task, one per dataset in order of first appearance, named by `FileName` and holding that dataset's records in order |
| Driver.GroupByDataset | main.py:22-27 | the dict's keys are the datasets ordered by the position of their first record, and each maps to exactly its records, in their original order (a subsequence of the task's records) |
| CallLlmHelpers.Split | src/utils/call_llm_helpers.py:17-18 | `str.split(',')`: at least one field, no field contains the separator, and a single field exactly when the separator is absent |
| CallLlmHelpers.SplitJoin | src/utils/call_llm_helpers.py:17-18 | joining the fields with the separator gives the line back (the split loses nothing) |
| CallLlmHelpers.ParseLine | src/utils/call_llm_helpers.py:17-18 | on a key line, reading the second field fails with an IndexError exactly when the line has no comma |
| CallLlmHelpers.KeyAfterSnoc | src/utils/call_llm_helpers.py:16-18 | one more line steps the loop's state: the key is replaced on a key line, kept on another line, and an error stops it |
| CallLlmHelpers.ParseLines | src/utils/call_llm_helpers.py:15-16 | every line of the file is read, in order |
| CallLlmHelpers.KeyErrorStays | src/utils/call_llm_helpers.py:13-20 | an IndexError raised on a line ends the read with that error whatever follows |
| CallLlmHelpers.KeyIsLastKeyLine | src/utils/call_llm_helpers.py:16-18 | a key that is read is the value of the last key line; every later line is another line |
| CallLlmHelpers.KeyAbsent | src/utils/call_llm_helpers.py:11-18 | openai_key stays None exactly when no line names the key |
| CallLlmHelpers.KeyFails | src/utils/call_llm_helpers.py:13-20 | the read fails exactly when some key line has no second field, and the error is that line's IndexError |
| CallLlmHelpers.ReadApiKey | src/utils/call_llm_helpers.py:10-20 | a missing file leaves the key None; otherwise the loop over the lines computes exactly the last key line's value, or the error of the first bad key line |
| CallLlmHelpers.PromptMessages | src/utils/call_llm_helpers.py:49-51 | a truthy prompt yields one message with the given role and the prompt as content; an absent or empty prompt yields none |
| CallLlmHelpers.CutAfterLastHit | src/utils/call_llm_helpers.py:69-71 | when the split token occurs (case-insensitively) the output is what follows its last occurrence, stripped |
| CallLlmHelpers.CutAfterLastClean | src/utils/call_llm_helpers.py:67-71 | the llama result never contains the split token (in any case) |
| CallLlmHelpers.CutAfterLastMiss | src/utils/call_llm_helpers.py:69 | without the split token the output is returned unchanged |
| CallLlmHelpers.DropThroughLastNewline | src/utils/call_llm_helpers.py:75 | the `\s*\n+` part of the pattern removes a prefix: what is left is a suffix of the input |
| CallLlmHelpers.DropThroughLastNewlineRemoves | src/utils/call_llm_helpers.py:75 | when something is removed, it is a whitespace run ending in a newline after the marker |
| CallLlmHelpers.DropThroughLastNewlineFires | src/utils/call_llm_helpers.py:75 | a newline reached through whitespace after the marker makes the substitution remove something |
| CallLlmHelpers.DropAssistantMarker | src/utils/call_llm_helpers.py:75 | the substitution only ever removes a prefix of the output |
| CallLlmHelpers.DropAssistantMarkerRemoves | src/utils/call_llm_helpers.py:75 | it removes something only after "Assistant"/"assistant" at the start, and then a whitespace run through a newline; and a leading marker followed by whitespace and a newline is always removed |
| CallLlmHelpers.DropMarkerThenStrip | src/utils/call_llm_helpers.py:75 | after the substitution and strip the result is the stripped text after the 9-letter marker when it matched, else the stripped output |
| CallLlmHelpers.CleanEchoFacts | src/utils/call_llm_helpers.py:78-79 | the cleaned result is stripped; it is empty only when the output was; without an echo of the prompt it is the cleaned output; an output that is just the prompt is kept rather than emptied |
| CallLlmHelpers.CleanOutput | src/utils/call_llm_helpers.py:67-81 | llama models cut after the last split token; other models need a truthy prompt (else `messages[0]` raises and the call returns None) and then strip the marker and remove the echoed prompt |
| CallLlmHelpers.CallHuggingfaceModel | src/utils/call_llm_helpers.py:28-85 | the prompt is sent as one user message; a failed generation gives None; otherwise the result is the cleaned output |
| CallLlmHelpers.CallApiModel | src/utils/call_llm_helpers.py:89-117 | without a client the result is None; with one it is the model's answer to the prompt sent as a system message |
| CallLlmHelpers.Route | src/utils/call_llm_helpers.py:128-154 | a name containing '/' is a local model, any other an API model, and the caller keeps the name |
| CallLlmHelpers.ModelCache.constructor | src/utils/call_llm_helpers.py:26 | the cache starts empty and nothing has been loaded |
| CallLlmHelpers.ModelCache.CreateModelCaller | src/utils/call_llm_helpers.py:119-156 | the caller is routed by name; a local model not yet cached is loaded once and cached, a cached one is reused; API models touch nothing; the cache never shrinks and every model is loaded at most once |
| CallLlmHelpers.ModelCache.Call | src/utils/call_llm_helpers.py:150-154 | calling a local caller runs the cached model on the prompt; calling an API caller sends the prompt to the API |
| BaseLlm.MessageLine | src/language_models/base_llm.py:50-57 | a message lacking "role" is KeyError("role"), one lacking "content" is KeyError("content"); otherwise its line as its role labels it |
| BaseLlm.ChatPrompt | src/language_models/base_llm.py:48-58 | flattening fails exactly when the lines of the log fail |
| BaseLlm.LinesUpToOk | src/language_models/base_llm.py:49-51 | the lines of the first n messages fail exactly when one of them lacks "role" or "content" |
| BaseLlm.ChatLinesOk | src/language_models/base_llm.py:49-51 | flattening a log fails exactly when one of its messages lacks a key |
| BaseLlm.LinesUpToAppend | src/language_models/base_llm.py:49-57 | the lines of a + b up to len(a) + k are the lines of a followed by those of b's first k messages |
| BaseLlm.LinesUpToPrefix | src/language_models/base_llm.py:49-57 | later messages do not change the lines of earlier ones |
| BaseLlm.ChatLinesAppend | src/language_models/base_llm.py:48-57 | the lines of a concatenation of well-formed logs are the concatenation of their lines |
| BaseLlm.ChatLinesOne | src/language_models/base_llm.py:49-57 | a single message contributes exactly its own line |
| BaseLlm.ChatPromptEnds | src/language_models/base_llm.py:58 | every flattened prompt ends with "Assistant:", and the empty log flattens to exactly that |
| BaseLlm.Llm.constructor | src/language_models/base_llm.py:7-13 | a new wrapper keeps its name and is not in dummy mode |
| BaseLlm.Llm.Completion | src/language_models/base_llm.py:15-34 | in dummy mode the prompt's first 100 characters (all of it when shorter); otherwise text drawn from past the first len(prompt) characters of the decoded output, or "" |
| BaseLlm.Llm.ChatCompletion | src/language_models/base_llm.py:36-62 | in dummy mode the chat log itself; otherwise the KeyError of a malformed message, or the completion of the flattened prompt |
| BaseLlm.Llm.Logprobs | src/language_models/base_llm.py:64-65 | there are never log-probabilities |
| BaseLlm.FlattenChat | src/language_models/base_llm.py:48-58 | the loop builds exactly the flattened prompt, or stops with the KeyError of the first malformed message |
| BaseLlm.KeyErrorStays | src/language_models/base_llm.py:49-51 | the first KeyError is the error of the whole flattening |
| BaseLlm.CompletionOfEcho | src/language_models/base_llm.py:33-34 | output that echoes the prompt completes to the stripped continuation |
| BaseLlm.CompletionIgnoresHead | src/language_models/base_llm.py:34 | the first len(prompt) characters of the output are dropped whatever they are |
| BaseLlm.CompletionOfShort | src/language_models/base_llm.py:34 | output no longer than the prompt completes to "" |
| Workspaces.GetParams | src/workspace/workspace.py:20-33 | the parameters have exactly the eleven keys of the user, agent, task and workspace settings, each holding the setting it is named after |
| Workspaces.GetParamsRecords | src/workspace/workspace.py:20-33 | the parameters determine every setting they are read from: equal parameters mean equal models, agent, counts, task, cost, seed, dirty flag and commit id |
| Workspaces.GetSink | src/workspace/workspace.py:8-17 | "dummy" gives the dummy sink, "wandb" a wandb sink over the workspace's project, the run parameters `get_params` builds and the source path; any other name is ValueError("Unknown sink implementation …") |
| Workspaces.GetLastPart | src/workspace/workspace.py:36-37 | the result is the slash-free tail of the string after its last "/", and the string itself when it has no "/" |
| Workspaces.GetLastPartOfPath | src/workspace/workspace.py:36-37 | the last part of "prefix/part" is `part` for a slash-free part |
| Workspaces.ReprNameShape | src/workspace/workspace.py:50-54 | the run name is the user's last part, "./.", the agent's last part, ".", and the task's last part (the "/" element is joined by dots on both sides) |
| Workspaces.GetLogPath | src/workspace/workspace.py:69 | the log file lies in the log folder; it is the configured file name when one is set and non-empty, and the run name followed by ".ndjson" otherwise |
| Workspaces.MessageEntry | src/workspace/workspace.py:101-102 | a buffer entry maps "q" to the request and the model name to the response (the response wins when the model is named "q") |
| Workspaces.LogLine | src/workspace/workspace.py:93 | a log line holds every metric and, under "conversation", the buffered entries, which override a metric of that name |
| Workspaces.CarriedAfterWrite | src/workspace/workspace.py:92-93 | one more written line adds exactly its buffered entries to those the log file carries |
| Workspaces.Workspace.constructor | src/workspace/workspace.py:41-84 | a new workspace has the given sink, log path and level, an empty buffer and an emptied log file |
| Workspaces.Workspace.LogMessage | src/workspace/workspace.py:101-102 | the entry is appended to the buffer, and nothing is written |
| Workspaces.Workspace.Log | src/workspace/workspace.py:86-99 | the metrics always reach the sink; a successful write appends one line carrying the buffer and empties it; a failed write raises and keeps the buffer; no buffered entry is lost or repeated |
| Workspaces.Workspace.Stop | src/workspace/workspace.py:104-105 | the log path is handed to the sink as an artifact and nothing else changes |
| Workspaces.NewWorkspace | src/workspace/workspace.py:41-84 | creation fails exactly when the sink name is unknown, with its ValueError; otherwise a fresh workspace over that sink and the derived log path, with an empty buffer and log |
| Grouping.Select | main.py:22-27 | selecting the items of one key never yields more items than there are |
| Grouping.SelectMembers | src/task/dataset_helpers.py:172-182 | an item is selected for a key exactly when it is an item with that key |
| Grouping.SelectAppend | main.py:23-27 | selecting from a concatenation selects from each part in turn |
| Grouping.SelectIsSubsequence | main.py:23-27 | the items selected for a key keep the order they had |
| Grouping.FirstIndex | main.py:23-26 | the first position whose item has the key, or the length when there is none: no earlier item has the key |
| Grouping.KeysInOrder | main.py:22-27 | the keys are distinct, include the key of every item and only keys of items, and are ordered by the position of their first item |
| Grouping.RegroupIsPermutation | main.py:20-33 | regrouping by a list of distinct keys covering every item is a permutation of the items |
| Text.StripShape | src/language_models/base_llm.py:34 | a stripped string is empty or starts and ends with a non-space character |
| Text.StripIdempotent | src/language_models/base_llm.py:34 | stripping twice is stripping once |
| Text.PySlice | src/task/dataset_helpers.py:79 | a Python slice is never longer than the string; in-range bounds give the plain slice, a negative end counts from the end, and an end not after the start gives "" |
| Text.IntToString | main.py:31 | the decimal form of an integer is non-empty, made of digits and a leading minus sign exactly when the integer is negative |
| Text.NatToStringValue | main.py:31 | reading the decimal digits of a natural number back gives the number |
| Text.IntToStringInjective | main.py:31 | different integers have different decimal forms, so the file names of different sample counts differ |

## Left out

- Model inference is not modelled: tokenizers, model weights, `generate`, chat templates and CUDA placement are foreign library calls. Generation and decoding are function parameters (`generate`, `decoded`, `load`).
- `get_prompt_length` in src/language_models/base_llm.py is not modelled. It only counts tokenizer output.
- The temperature and sampling arguments are not modelled. They are floats passed through to generation.
- HuggingFace `load_dataset` downloads are not modelled. Each loader filter works on an abstract list of raw records.
- A raw record that lacks a column its filter reads would raise KeyError or TypeError in the source. `DatasetHelpers.RawShaped` excludes such records by a precondition.
- The `numpy` shuffles of `_get_dataset` are not modelled. They need a random generator. Only the counts, and the fact that nothing is invented or duplicated, are stated.
- `int(a / b)` in `_get_dataset` divides floats. It is modelled as division truncating toward zero. That is exact for the integer sizes involved.
- `OurInputDataset` and `load_data` require `num_users >= 1`. With 0 the source raises ZeroDivisionError, and a negative count indexes the user list from its end.
- JSON serialisation, `Path.mkdir`, file unlinking, `print` logging and argparse are not modelled.
- A saved file is a name paired with its records.
- The workspace's log file is a ghost sequence of written lines.
- `datetime.now()` is a parameter. The record timestamp is `now` and the file-name timestamp is `stamp`.
- Workspaces.Workspace.Log: a failed write is a boolean parameter, reported as OSError. The source re-raises whatever `open` or `write` raised.
- Workspaces: metric and parameter values are a small datatype, so JSON encoding of arbitrary values is not modelled.
- Workspaces: `pathlib` joining and normalisation are not modelled. A log path is a (folder, name) pair.
- `DummySink` and `WandbSink` are not part of this model. They are only recorded as what each sink is built from and which metrics and artifacts it receives.
- `create_default_intents` (src/task/intent_handler.py:74-102) is not modelled. It references enum members that do not exist and fails whenever it is called.
- src/utils/call_llms.py and src/utils.py are not part of this model beyond what their caller may answer. They are thin wrappers over the network client.
- main.py gets its model caller from `call_llms.create_model_caller`. In the driver that caller is the `modelCaller` parameter of `Driver.Run`, of type `IntentHandler.Caller`. It answers `Some(text)` or `None`, as `call_llm` returns `None` when there is no client or the request raises. Which prompts get `None` is left open.
- The caller `CallLlmHelpers.ModelCache.CreateModelCaller` returns takes only the prompt, while `process_input` calls its model caller with the prompt and the input text. The model keeps the two separate and does not connect them.
- IntentHandler.Handler.constructor receives the preference and guideline tables as arguments. The source reads the module constants directly. `Driver.NewHandler` passes exactly those constants.
- The character class `\s` of the cleanup regular expressions is modelled as `Text.IsSpace`, the characters for which `str.isspace` holds, listed by code point. Unicode database updates after that list are not followed.
- `.lower()` is modelled on ASCII letters only.
- Python set iteration order depends on hashing. Each preference is taken in one given duplicate-free order.

## Findings

| source | as written | input that shows it | evidently intended | confidence | as-written member | corrected member |
|---|---|---|---|---|---|---|
| main.py:76 | `prompt = handler._construct_prompt(task, example.article, user_id, dataset_name)` calls a method `IntentHandler` does not define, so every example raises AttributeError, which lines 97-98 swallow | any run of `main`, e.g. the default task summarization/cnn_dailymail with one test sample: no record is appended and no result file is written | record the prompt `process_input` sends for the same task, dataset, article and user, so that each loaded example gives one model call and, when the model answers, one record | not executed | Driver.AsWrittenRecordsNothing | Driver.EveryLoadedExampleRecorded |
