# Eatelligent meal core, modelled in Dafny

Eatelligent is an Android app that helps families track meals. A photo of a meal is sent to
an OpenAI model, which estimates the fat, carbohydrate and protein grams. Meals can also be
entered or edited by hand. They are kept in a JSON file, summed into daily nutrient totals,
and discussed with a chat coach that sees the profile and the conversation so far.

This project models the app's core and proves properties of it:

- **Meal view model** (`ViewModel`). The class `MealViewModel` holds the meal list, the
  latest result, the error and the "last accepted fingerprint" marker. It models how a new
  meal is persisted and deduplicated:
  - a repeat within 5 s of the last accepted meal is dropped;
  - a stored meal with the same fingerprint recorded within 30 s is shown instead;
  - otherwise the meal is appended and written.

  It also models update, delete, the manual-meal guard, the analysis guard, the write
  outcome, and loading and saving the profile.
- **Screen helpers** (`MealScreens`):
  - chat threads as classes (`ChatConversation`, `ChatCenter`), with thread creation,
    sending a turn and resolving the reply;
  - the conversation context text and the carry-over summary of earlier threads;
  - nutrient totals as a fold over meals;
  - parsing of the number inputs and validation of the manual and edit dialogs.
- **Meal analyzer** (`OpenAiMealAnalyzer`): the two-attempt request loop (structured, then
  legacy), the retry rule for a rejected `response_format`, the image data URL and reading
  the analysis out of the reply.
- **Chat assistant** (`OpenAiChatAssistant`): the two-attempt request loop (primary model,
  then fallback), the message layout and reply parsing.
- **OpenAI reply envelopes** (`OpenAiEnvelope`): extracting the text from a "responses"
  (`output`) or "chat completions" (`choices`) reply. Both clients share this code.
- **Storage codecs** (`MealStorage`, `UserConfigurationStorage`): the JSON documents written
  for meals and for the profile, how they are read back, and read-after-write round trips.

How the model represents the source:

- Gram values are integers counting hundredths of a gram, and timestamps are integer
  milliseconds.
- JSON values are an abstract `Json` datatype whose objects keep their field order, and
  `Json.Opt*` follow `org.json`'s `opt*` lookups.
- The JSON text parser, the ISO instant and date formatters and parsers, the clock and the
  UUID generator are parameters of the operations that use them.
- An HTTP call is one `Exchange`: a response code with an optional body, or a transport
  failure.

## Model

Source paths are relative to the repository root.

| member | source | states |
|---|---|---|
| ViewModel.FingerprintEquality | app/src/main/java/de/healthai/eatelligent/ui/home/MealViewModel.kt:177-185 | two meals have the same fingerprint exactly when their trimmed descriptions and their three gram values (to two decimals) are equal |
| ViewModel.FingerprintIgnoresPadding | app/src/main/java/de/healthai/eatelligent/ui/home/MealViewModel.kt:178 | whitespace around the description does not change the fingerprint |
| ViewModel.SplitAtLastBar | app/src/main/java/de/healthai/eatelligent/ui/home/MealViewModel.kt:177-185 | a fingerprint splits uniquely at its last `\|`, because no formatted number contains one |
| Decimal.Fixed2RoundTrip | app/src/main/java/de/healthai/eatelligent/ui/home/MealViewModel.kt:180-184 | the `%.2f` text of a hundredths value reads back as the same value |
| Decimal.Fixed2Injective | app/src/main/java/de/healthai/eatelligent/ui/home/MealViewModel.kt:180-184 | two values print the same at two decimals exactly when they are equal |
| Decimal.Fixed2Shape | app/src/main/java/de/healthai/eatelligent/ui/home/MealViewModel.kt:180-184 | the `%.2f` text has at least four characters, no comma, a sign or digit first and a digit last |
| ViewModel.FirstDuplicate | app/src/main/java/de/healthai/eatelligent/ui/home/MealViewModel.kt:162-166 | the index found holds a stored duplicate (same fingerprint, recorded within 30 s), no earlier meal is one, and nothing is found exactly when no meal is one |
| Sequences.FirstWhere | app/src/main/java/de/healthai/eatelligent/ui/home/MealViewModel.kt:162 | `firstOrNull`/`indexOfFirst`: the first index satisfying the predicate, or none exactly when no element does; `FirstDuplicate`, `IndexOfId` and `FindConversation` are this search |
| ViewModel.ReplaceById | app/src/main/java/de/healthai/eatelligent/ui/home/MealViewModel.kt:118-120 | same length; every meal with the entry's id becomes the entry, every other meal is unchanged |
| ViewModel.ReplaceByIdIdempotent | app/src/main/java/de/healthai/eatelligent/ui/home/MealViewModel.kt:118-120 | updating twice with the same entry equals updating once |
| ViewModel.ReplaceUnknownId | app/src/main/java/de/healthai/eatelligent/ui/home/MealViewModel.kt:118-120 | an entry whose id is not in the list leaves the list unchanged |
| ViewModel.RemoveById | app/src/main/java/de/healthai/eatelligent/ui/home/MealViewModel.kt:127 | a meal is kept exactly when it was there and its id differs from the removed id; the list does not grow |
| ViewModel.RemoveByIdConcat | app/src/main/java/de/healthai/eatelligent/ui/home/MealViewModel.kt:127 | removal distributes over concatenation, so order is preserved |
| ViewModel.RemoveUnknownId | app/src/main/java/de/healthai/eatelligent/ui/home/MealViewModel.kt:127 | deleting an id that no meal has changes nothing |
| ViewModel.AfterMealsLoaded | app/src/main/java/de/healthai/eatelligent/ui/home/MealViewModel.kt:54-58 | a successful load replaces the meals; a failed one sets only the error, to the exception's message, which is none (clearing the banner) when the exception has no message |
| ViewModel.AfterConfigurationLoaded | app/src/main/java/de/healthai/eatelligent/ui/home/MealViewModel.kt:59-64 | loading always ends; success stores the profile (possibly none), failure sets only the error, to the exception's possibly missing message |
| ViewModel.AfterSaveConfiguration | app/src/main/java/de/healthai/eatelligent/ui/home/MealViewModel.kt:67-75 | the profile is shown at once whatever the write outcome; a failed write sets the error to the exception's possibly missing message; meals and latest result are untouched |
| ViewModel.AfterWrite | app/src/main/java/de/healthai/eatelligent/ui/home/MealViewModel.kt:204-221 | a failed write only sets the error, to the exception's possibly missing message; a successful one installs the list; the latest result becomes none exactly when there is no new latest or it was the removed meal, and otherwise becomes the new latest; marker, analysis flag and profile are untouched |
| ViewModel.PersistWrite | app/src/main/java/de/healthai/eatelligent/ui/home/MealViewModel.kt:172-173 | a write happens exactly on the commit path, and it writes the old list with the new entry appended |
| ViewModel.RecentRepeatShowsNewEntry | app/src/main/java/de/healthai/eatelligent/ui/home/MealViewModel.kt:154-160 | a repeat of the last accepted fingerprint within 5 s writes nothing and only shows the new entry as latest |
| ViewModel.StoredDuplicateShowsStoredMeal | app/src/main/java/de/healthai/eatelligent/ui/home/MealViewModel.kt:162-171 | otherwise, when the first stored duplicate is at index k, nothing is written and meal k becomes the latest result |
| ViewModel.CommitAppends | app/src/main/java/de/healthai/eatelligent/ui/home/MealViewModel.kt:172-174 | with no repeat and no stored duplicate, a successful write appends the entry, shows it and records its fingerprint and time |
| ViewModel.FailedCommitStillMarks | app/src/main/java/de/healthai/eatelligent/ui/home/MealViewModel.kt:172-174 | when the write fails the list is unchanged and the error becomes the exception's message (none if it has none), but the marker is still recorded |
| ViewModel.RepeatAfterCommitDropped | app/src/main/java/de/healthai/eatelligent/ui/home/MealViewModel.kt:151-175 | after a commit, a meal with the same fingerprint submitted less than 5 s later writes nothing, whatever the first write's outcome |
| ViewModel.CommittedMealBlocksCopies | app/src/main/java/de/healthai/eatelligent/ui/home/MealViewModel.kt:151-175 | after a successful commit, a meal with the same fingerprint recorded within 30 s of it is never written and the list stays as it is |
| ViewModel.AfterStartAnalysis | app/src/main/java/de/healthai/eatelligent/ui/home/MealViewModel.kt:77-80 | an analysis already running changes nothing; otherwise the error is cleared and the analysis flag is set |
| ViewModel.AfterAnalysis | app/src/main/java/de/healthai/eatelligent/ui/home/MealViewModel.kt:81-92 | the flag always ends cleared; a failed analysis sets only the flag and the error, to the exception's possibly missing message |
| ViewModel.ManualEntry | app/src/main/java/de/healthai/eatelligent/ui/home/MealViewModel.kt:95-114 | a blank description yields no meal; otherwise the meal has the trimmed description and the given grams |
| ViewModel.DeleteClearsLatest | app/src/main/java/de/healthai/eatelligent/ui/home/MealViewModel.kt:125-130 | a successful delete clears the latest result and leaves no meal with that id |
| ViewModel.UpdateShowsEntry | app/src/main/java/de/healthai/eatelligent/ui/home/MealViewModel.kt:116-123 | a successful update shows the entry as latest, keeps the length and puts the entry at every position with its id |
| ViewModel.MealViewModel.constructor | app/src/main/java/de/healthai/eatelligent/ui/home/MealViewModel.kt:32-51 | the initial state: no meals, not analysing, no error, no latest result, profile loading, no marker |
| ViewModel.MealViewModel.MealsLoaded | app/src/main/java/de/healthai/eatelligent/ui/home/MealViewModel.kt:54-58 | the new state is `AfterMealsLoaded` of the old one |
| ViewModel.MealViewModel.ConfigurationLoaded | app/src/main/java/de/healthai/eatelligent/ui/home/MealViewModel.kt:59-64 | the new state is `AfterConfigurationLoaded` of the old one |
| ViewModel.MealViewModel.SaveUserConfiguration | app/src/main/java/de/healthai/eatelligent/ui/home/MealViewModel.kt:67-75 | the new state is `AfterSaveConfiguration`; the profile passed is the one written |
| ViewModel.MealViewModel.StartAnalysis | app/src/main/java/de/healthai/eatelligent/ui/home/MealViewModel.kt:77-80 | the new state is `AfterStartAnalysis`; the analysis starts exactly when none was running |
| ViewModel.MealViewModel.FinishAnalysis | app/src/main/java/de/healthai/eatelligent/ui/home/MealViewModel.kt:81-92 | the new state is `AfterAnalysis`; a successful analysis goes through the persist step as a new meal, and what is written is what that step writes |
| ViewModel.MealViewModel.AddManualMeal | app/src/main/java/de/healthai/eatelligent/ui/home/MealViewModel.kt:95-114 | a blank description changes nothing and writes nothing; otherwise the trimmed meal goes through the persist step |
| ViewModel.MealViewModel.UpdateMeal | app/src/main/java/de/healthai/eatelligent/ui/home/MealViewModel.kt:116-123 | writes the list with the entry replaced by id, then applies the write outcome with the entry as latest |
| ViewModel.MealViewModel.DeleteMeal | app/src/main/java/de/healthai/eatelligent/ui/home/MealViewModel.kt:125-130 | writes the list without the id, then applies the write outcome with no latest and the removed id |
| ViewModel.MealViewModel.PersistMealEntry | app/src/main/java/de/healthai/eatelligent/ui/home/MealViewModel.kt:151-175 | the new state is `AfterPersist` and what is written is `PersistWrite`; the lemmas above state what these mean on each path |
| ViewModel.MealViewModel.WriteMeals | app/src/main/java/de/healthai/eatelligent/ui/home/MealViewModel.kt:204-221 | the new state is `AfterWrite` of the old one |
| MealScreens.PlainSnoc | app/src/main/java/de/healthai/eatelligent/ui/home/MealScreens.kt:226 | appending a message appends it to the plain messages exactly when it is untagged |
| MealScreens.WithoutTagSnoc | app/src/main/java/de/healthai/eatelligent/ui/home/MealScreens.kt:225 | removal of a tag distributes over appending one message |
| MealScreens.WithoutTagFrom | app/src/main/java/de/healthai/eatelligent/ui/home/MealScreens.kt:225 | every message left was there before and does not carry the removed tag |
| MealScreens.CountTaggedSnoc | app/src/main/java/de/healthai/eatelligent/ui/home/MealScreens.kt:225 | appending a message raises the tag count by one exactly when it carries the tag |
| MealScreens.NoneLeftAfterRemoval | app/src/main/java/de/healthai/eatelligent/ui/home/MealScreens.kt:225 | after `removeAll` no message with the tag remains |
| MealScreens.RemovalKeepsPlain | app/src/main/java/de/healthai/eatelligent/ui/home/MealScreens.kt:225-226 | removing a tag does not touch the plain dialogue |
| MealScreens.FirstTaggedContent | app/src/main/java/de/healthai/eatelligent/ui/home/MealScreens.kt:242-244 | `firstOrNull { tag }?.content` is none exactly when no message carries the tag, and otherwise is the content of the first message that does |
| MealScreens.FirstTaggedSnoc | app/src/main/java/de/healthai/eatelligent/ui/home/MealScreens.kt:242-244 | appending keeps an earlier tagged message's content; otherwise the new message is found when it carries the tag |
| MealScreens.FirstTaggedAfterRemoval | app/src/main/java/de/healthai/eatelligent/ui/home/MealScreens.kt:225-244 | removing one tag does not change which message of another tag is found first |
| MealScreens.IndexOfId | app/src/main/java/de/healthai/eatelligent/ui/home/MealScreens.kt:272 | `indexOfFirst`: the index found holds the id, no earlier message does, and nothing is found exactly when no message has the id |
| MealScreens.ToHistoryEntry | app/src/main/java/de/healthai/eatelligent/ui/home/MealScreens.kt:937-940 | a message becomes a history entry with its trimmed content; the role is user exactly when the sender is the user |
| MealScreens.HistoryEntries | app/src/main/java/de/healthai/eatelligent/ui/home/MealScreens.kt:241 | the history entries correspond one to one, in order, with the messages |
| MealScreens.TranscriptLines | app/src/main/java/de/healthai/eatelligent/ui/home/MealScreens.kt:916-919 | one `Speaker: content` line per message, in order |
| MealScreens.ContextWithoutDialogue | app/src/main/java/de/healthai/eatelligent/ui/home/MealScreens.kt:910-935 | with no plain message, the context is the coach block, the profile, the history heading and the "no history yet" sentence |
| MealScreens.ContextWithDialogue | app/src/main/java/de/healthai/eatelligent/ui/home/MealScreens.kt:910-935 | with a non-blank transcript, the context ends with that transcript, trimmed at the end |
| MealScreens.ContextOpensWithGuideline | app/src/main/java/de/healthai/eatelligent/ui/home/MealScreens.kt:925-934 | every context starts with the coach guideline followed by the profile summary |
| MealScreens.Bullets | app/src/main/java/de/healthai/eatelligent/ui/home/MealScreens.kt:951-954 | one `• Speaker: content` bullet per carried message, in order |
| MealScreens.TakeLast | app/src/main/java/de/healthai/eatelligent/ui/home/MealScreens.kt:949 | `takeLast(n)`: the last min(n, length) messages |
| MealScreens.SummaryMeaning | app/src/main/java/de/healthai/eatelligent/ui/home/MealScreens.kt:942-959 | there is a carry-over summary exactly when some thread holds a plain message, and it starts with the heading |
| MealScreens.InitialMessages | app/src/main/java/de/healthai/eatelligent/ui/home/MealScreens.kt:189-204 | a new thread opens with the intro message, followed by the carry-over message exactly when there is a summary |
| MealScreens.InitialCarryOver | app/src/main/java/de/healthai/eatelligent/ui/home/MealScreens.kt:189-204 | a new thread carries exactly the summary it was given and has no dialogue yet |
| MealScreens.KeptLayout | app/src/main/java/de/healthai/eatelligent/ui/home/MealScreens.kt:220-226 | after the user's turn and the scaffold removal, the thread is its earlier messages without history scaffolds, then the turn; the dialogue gains exactly the turn |
| MealScreens.SendLayout | app/src/main/java/de/healthai/eatelligent/ui/home/MealScreens.kt:220-240 | after a send, the thread ends with the kept messages, then the new history scaffold, then the placeholder |
| MealScreens.SendLeavesOneScaffold | app/src/main/java/de/healthai/eatelligent/ui/home/MealScreens.kt:225-233 | after every send exactly one history scaffold remains |
| MealScreens.SendAppendsTurn | app/src/main/java/de/healthai/eatelligent/ui/home/MealScreens.kt:220-240 | a send adds exactly the user's turn to the dialogue |
| MealScreens.SendKeepsCarryOver | app/src/main/java/de/healthai/eatelligent/ui/home/MealScreens.kt:225-244 | a send does not change the carry-over summary found |
| MealScreens.Replacement | app/src/main/java/de/healthai/eatelligent/ui/home/MealScreens.kt:253-271 | the reply takes the placeholder's id: a success is an untagged trimmed reply; a failure is an error message with its reason, or the default reason when there is none or it is blank |
| MealScreens.Resolved | app/src/main/java/de/healthai/eatelligent/ui/home/MealScreens.kt:272-277 | the reply replaces the first message with its id and nothing else, or is appended when there is none |
| MealScreens.PlaceholderIsLast | app/src/main/java/de/healthai/eatelligent/ui/home/MealScreens.kt:234-277 | right after a send with a fresh placeholder id, the placeholder is the first and only message with that id and sits last |
| MealScreens.ReplyReplacesPlaceholder | app/src/main/java/de/healthai/eatelligent/ui/home/MealScreens.kt:272-277 | so the reply takes the placeholder's place at the end of the thread |
| MealScreens.SentHistoryIsTheDialogue | app/src/main/java/de/healthai/eatelligent/ui/home/MealScreens.kt:226-241 | the history sent is the earlier dialogue entry by entry, then the user's trimmed turn |
| MealScreens.SentRequestCarriesDialogue | app/src/main/java/de/healthai/eatelligent/ui/home/MealScreens.kt:241-251 | the reply request holds the dialogue with the new turn and the thread's carry-over summary |
| MealScreens.ChatConversation.constructor | app/src/main/java/de/healthai/eatelligent/ui/home/MealScreens.kt:961-965 | a thread holds the id, title and messages it was made with |
| MealScreens.ChatConversation.SendTurn | app/src/main/java/de/healthai/eatelligent/ui/home/MealScreens.kt:220-244 | the thread's new messages are `SentMessages` of the old ones, and the request is assembled from them |
| MealScreens.ChatConversation.ResolveReply | app/src/main/java/de/healthai/eatelligent/ui/home/MealScreens.kt:253-277 | the thread's new messages are the old ones with the reply resolved in |
| MealScreens.MessageLists | app/src/main/java/de/healthai/eatelligent/ui/home/MealScreens.kt:945-948 | one message list per thread, in list order |
| MealScreens.FindConversation | app/src/main/java/de/healthai/eatelligent/ui/home/MealScreens.kt:219 | the first thread with the id, or none exactly when no thread has it |
| MealScreens.ChatCenter.constructor | app/src/main/java/de/healthai/eatelligent/ui/home/MealScreens.kt:170-180 | no threads, counter 0, no active thread, center closed |
| MealScreens.ChatCenter.CreateConversation | app/src/main/java/de/healthai/eatelligent/ui/home/MealScreens.kt:187-214 | a fresh thread titled `Chat <counter+1>`, seeded from the summary of the existing threads, put first and made active; the counter goes up by one |
| MealScreens.ChatCenter.OpenChatCenter | app/src/main/java/de/healthai/eatelligent/ui/home/MealScreens.kt:281-286 | the center is open afterwards; a thread (with no carry-over) is created exactly when there was none |
| MealScreens.ChatCenter.SendChatMessage | app/src/main/java/de/healthai/eatelligent/ui/home/MealScreens.kt:216-251 | a request is made exactly when the message is not blank and a thread has the id; only that thread is in the frame, and its messages become `SentMessages` of the old ones; otherwise no thread changes |
| MealScreens.PlusAddsCalories | app/src/main/java/de/healthai/eatelligent/ui/home/MealScreens.kt:1305-1312 | adding a meal adds its calories (9 kcal per gram of fat, 4 per gram of carbohydrate and of protein) |
| MealScreens.SumsOfAppend | app/src/main/java/de/healthai/eatelligent/ui/home/MealScreens.kt:1308-1312 | each running sum grows by the appended meal's value |
| MealScreens.TotalsAreSums | app/src/main/java/de/healthai/eatelligent/ui/home/MealScreens.kt:1005-1007 | the fold of `+` from zero gives the three gram sums |
| MealScreens.TotalCaloriesAreSummed | app/src/main/java/de/healthai/eatelligent/ui/home/MealScreens.kt:1300-1313 | the totals' calories are the sum of the meals' calories |
| MealScreens.TotalsOfConcat | app/src/main/java/de/healthai/eatelligent/ui/home/MealScreens.kt:1005-1007 | the totals of two lists joined are the sums of their totals |
| MealScreens.ParseNumber | app/src/main/java/de/healthai/eatelligent/ui/home/MealScreens.kt:1933-1937 | blank input is 0; otherwise the trimmed text with commas as points is read as a decimal |
| MealScreens.ParseNumberPadded | app/src/main/java/de/healthai/eatelligent/ui/home/MealScreens.kt:1933-1937 | surrounding whitespace is ignored |
| MealScreens.CommaSwapBack | app/src/main/java/de/healthai/eatelligent/ui/home/MealScreens.kt:1936 | swapping points for commas and back restores comma-free text |
| MealScreens.ParseNumberReadsText | app/src/main/java/de/healthai/eatelligent/ui/home/MealScreens.kt:1933-1937 | a decimal is read the same with a point or a comma, padded or not |
| MealScreens.ParseNumberReadsFixed | app/src/main/java/de/healthai/eatelligent/ui/home/MealScreens.kt:1933-1943 | a two-decimal value typed with a point or a comma reads back as itself |
| MealScreens.Validate | app/src/main/java/de/healthai/eatelligent/ui/home/MealScreens.kt:1201-1212 | the dialog accepts exactly when the description is not blank and all three numbers parse; the error flags say which check failed; accepted values are the trimmed description and the parsed numbers |
| MealScreens.ManualSaveStoresChecked | app/src/main/java/de/healthai/eatelligent/ui/home/MealScreens.kt:1201-1212 | an accepted manual dialog always produces a meal, with the trimmed description and the parsed grams |
| MealScreens.EditedMeal | app/src/main/java/de/healthai/eatelligent/ui/home/MealScreens.kt:1716-1735 | an edit succeeds exactly when the dialog validates; it keeps id, time and image and takes the trimmed description and the parsed grams |
| MealScreens.EditReplacesInPlace | app/src/main/java/de/healthai/eatelligent/ui/home/MealScreens.kt:1716-1735 | saving an edit of meal k puts it at position k and leaves meals with other ids alone |
| OpenAiMealAnalyzer.ImageUrl | app/src/main/java/de/healthai/eatelligent/data/OpenAiMealAnalyzer.kt:154-160 | the URL always starts with `data:`; a trimmed input that already does is kept, anything else gets the JPEG base64 prefix |
| OpenAiMealAnalyzer.ImageUrlIdempotent | app/src/main/java/de/healthai/eatelligent/data/OpenAiMealAnalyzer.kt:154-160 | building the URL of a URL changes nothing |
| OpenAiMealAnalyzer.PrefixedIsTrimmed | app/src/main/java/de/healthai/eatelligent/data/OpenAiMealAnalyzer.kt:155-159 | a prefixed trimmed image has no surrounding whitespace |
| OpenAiMealAnalyzer.BuildRequest | app/src/main/java/de/healthai/eatelligent/data/OpenAiMealAnalyzer.kt:52-79 | the shape alone decides the model: gpt-4.1 exactly for the structured request and gpt-4o-mini exactly for the legacy one |
| OpenAiMealAnalyzer.RequestCarriesKey | app/src/main/java/de/healthai/eatelligent/data/OpenAiMealAnalyzer.kt:50-56 | either shape sends the key after `Bearer ` in the authorization header |
| OpenAiMealAnalyzer.RequestCarriesPhoto | app/src/main/java/de/healthai/eatelligent/data/OpenAiMealAnalyzer.kt:154-164 | either shape sends the photo as a data URL ending in the trimmed base64 text |
| OpenAiMealAnalyzer.Analyze | app/src/main/java/de/healthai/eatelligent/data/OpenAiMealAnalyzer.kt:16-50 | a blank key fails before any request; otherwise the structured request is sent, the legacy one follows exactly when the first response is retry-eligible, and the result is the outcome of the last response |
| OpenAiMealAnalyzer.RetryNeedsBadRequest | app/src/main/java/de/healthai/eatelligent/data/OpenAiMealAnalyzer.kt:195-197 | a retry needs a response with status 400 and a body |
| OpenAiMealAnalyzer.RetryWhenPhraseOccurs | app/src/main/java/de/healthai/eatelligent/data/OpenAiMealAnalyzer.kt:195-205 | a 400 whose lower-cased body contains one of the five phrases is retried |
| OpenAiMealAnalyzer.RetryWhenLowerPhraseOccurs | app/src/main/java/de/healthai/eatelligent/data/OpenAiMealAnalyzer.kt:195-205 | a phrase appearing as written in the body also triggers the retry |
| OpenAiMealAnalyzer.RetryIgnoresCase | app/src/main/java/de/healthai/eatelligent/data/OpenAiMealAnalyzer.kt:197 | the retry decision is the same for a body and its lower-cased form, since lower-casing twice is lower-casing once |
| Text.KelvinSignLowered | app/src/main/java/de/healthai/eatelligent/data/OpenAiMealAnalyzer.kt:197 | `lowercase()` turns U+212A KELVIN SIGN into `k`, so a body spelling a phrase with it is retried |
| Text.LowerKeepsOccurrence | app/src/main/java/de/healthai/eatelligent/data/OpenAiMealAnalyzer.kt:197 | a lower-case text found in a body is still found after the body is lower-cased |
| Text.LowerIdempotent | app/src/main/java/de/healthai/eatelligent/data/OpenAiMealAnalyzer.kt:197 | lower-casing a lower-cased text changes nothing |
| OpenAiMealAnalyzer.NoRetryWithoutPhrase | app/src/main/java/de/healthai/eatelligent/data/OpenAiMealAnalyzer.kt:198-204 | a body containing none of the phrases is never retried |
| OpenAiMealAnalyzer.ReadMacros | app/src/main/java/de/healthai/eatelligent/data/OpenAiMealAnalyzer.kt:215-220 | the three macros of a schema-shaped `macros` object are read as written |
| OpenAiMealAnalyzer.ReadAnalysisJson | app/src/main/java/de/healthai/eatelligent/data/OpenAiMealAnalyzer.kt:207-221 | an object in the schema's shape reads back as exactly the analysis it encodes |
| OpenAiMealAnalyzer.ParseSchemaShapedReply | app/src/main/java/de/healthai/eatelligent/data/OpenAiMealAnalyzer.kt:207-221 | a reply whose envelope text is the schema-shaped analysis parses to that analysis |
| OpenAiMealAnalyzer.MissingMacrosAreZero | app/src/main/java/de/healthai/eatelligent/data/OpenAiMealAnalyzer.kt:215-221 | without a `macros` object all three gram values are 0 and the description is still read |
| OpenAiEnvelope.ResponsesOutputText | app/src/main/java/de/healthai/eatelligent/data/OpenAiMealAnalyzer.kt:224-231 | no `output` array fails, no first content part fails, otherwise the part's `text` (empty when absent) |
| OpenAiEnvelope.ChatChoicesText | app/src/main/java/de/healthai/eatelligent/data/OpenAiMealAnalyzer.kt:233-249 | success is never blank; no choices or no first message fails; a non-blank first content part wins, then a non-blank `content`, otherwise it fails |
| OpenAiEnvelope.EnvelopeText | app/src/main/java/de/healthai/eatelligent/data/OpenAiMealAnalyzer.kt:207-213 | `output` takes precedence over `choices`; an object with neither fails with "Unexpected OpenAI response structure" |
| OpenAiEnvelope.ContentArrayFallback | app/src/main/java/de/healthai/eatelligent/data/OpenAiChatAssistant.kt:167-177 | when a content array gives no text, `optString("content")` returns the array's JSON text |
| OpenAiChatAssistant.ApiRole | app/src/main/java/de/healthai/eatelligent/data/OpenAiChatAssistant.kt:185-189 | `user` exactly for the user role, `assistant` exactly for the assistant role |
| OpenAiChatAssistant.ContextWithCarryOver | app/src/main/java/de/healthai/eatelligent/data/OpenAiChatAssistant.kt:116-127 | with a non-blank carry-over, the context is the profile heading, the trimmed profile, a blank line, the carry-over heading and the trimmed summary |
| OpenAiChatAssistant.ContextWithoutCarryOver | app/src/main/java/de/healthai/eatelligent/data/OpenAiChatAssistant.kt:116-127 | without one, it is the heading and the trimmed profile, or the heading alone when the profile is blank |
| OpenAiChatAssistant.ApiHistoryAt | app/src/main/java/de/healthai/eatelligent/data/OpenAiChatAssistant.kt:130-136 | each history entry becomes one API message with its role name and content, in order |
| OpenAiChatAssistant.MessagesLayout | app/src/main/java/de/healthai/eatelligent/data/OpenAiChatAssistant.kt:104-139 | the system prompt, then the context, then one message per history entry, with the same content and matching roles |
| OpenAiChatAssistant.BuildMessages | app/src/main/java/de/healthai/eatelligent/data/OpenAiChatAssistant.kt:104-139 | the loop builds exactly the message list `Messages` describes |
| OpenAiChatAssistant.ParseReplyMeaning | app/src/main/java/de/healthai/eatelligent/data/OpenAiChatAssistant.kt:141-151 | a reply is non-blank and trimmed; parse and envelope errors pass through; blank text fails with "Assistant response was empty" |
| OpenAiChatAssistant.GenerateReply | app/src/main/java/de/healthai/eatelligent/data/OpenAiChatAssistant.kt:31-62 | a blank key fails before any request; the fallback request is sent exactly when the primary response is not a success; the result is the outcome of the last response, so the fallback's error is the one reported; the requests sent are a prefix of primary then fallback |
| MealStorage.EncodedArray | app/src/main/java/de/healthai/eatelligent/data/MealStorage.kt:41-54 | one object per meal, in list order |
| MealStorage.Write | app/src/main/java/de/healthai/eatelligent/data/MealStorage.kt:40-57 | the loop writes the JSON text of the `meals` document |
| MealStorage.DecodeMeal | app/src/main/java/de/healthai/eatelligent/data/MealStorage.kt:21-33 | each field is read with its fallback (a fresh id, empty text, 0 grams); a blank time is now; otherwise the time is parsed and a parse failure fails the read; no image is read |
| MealStorage.DecodeItems | app/src/main/java/de/healthai/eatelligent/data/MealStorage.kt:19-36 | a successful read gives as many meals as there are object items, none with an image |
| MealStorage.ObjectIndices | app/src/main/java/de/healthai/eatelligent/data/MealStorage.kt:20-21 | the positions it lists are exactly those of the object items, each once, in increasing order |
| MealStorage.DecodedInOrder | app/src/main/java/de/healthai/eatelligent/data/MealStorage.kt:19-36 | a successful read's k-th meal is the decoding of the k-th object item, with the UUID drawn for that item's position |
| MealStorage.EveryObjectDecodes | app/src/main/java/de/healthai/eatelligent/data/MealStorage.kt:19-36 | when every object item decodes, the read succeeds, whatever else the array holds |
| MealStorage.FirstFailureReported | app/src/main/java/de/healthai/eatelligent/data/MealStorage.kt:22-33 | a failed read fails with the error of the first object item that does not decode, all earlier ones decoding |
| MealStorage.SkipsNonObject | app/src/main/java/de/healthai/eatelligent/data/MealStorage.kt:21 | appending an item that is not an object to any array, mixed or not, leaves the read unchanged |
| MealStorage.DecodeItemsStopsAtError | app/src/main/java/de/healthai/eatelligent/data/MealStorage.kt:27 | once an item fails, the whole read fails with that item's error |
| MealStorage.Read | app/src/main/java/de/healthai/eatelligent/data/MealStorage.kt:14-37 | a missing or blank file holds no meals; otherwise the loop returns what `ReadDocument` reads |
| MealStorage.EmptyObjectDefaults | app/src/main/java/de/healthai/eatelligent/data/MealStorage.kt:24-32 | an empty object reads as a meal with a fresh id, the current time, no description and 0 grams |
| MealStorage.StoredAll | app/src/main/java/de/healthai/eatelligent/data/MealStorage.kt:41-54 | each meal as stored, without its image, in order |
| MealStorage.EncodedMealTexts | app/src/main/java/de/healthai/eatelligent/data/MealStorage.kt:45-47 | the stored object gives back the id, the formatted time and the description |
| MealStorage.EncodedMealMacros | app/src/main/java/de/healthai/eatelligent/data/MealStorage.kt:48-50 | the stored object gives back the three gram values |
| MealStorage.DecodeEncodedMeal | app/src/main/java/de/healthai/eatelligent/data/MealStorage.kt:21-50 | a stored meal reads back as itself without its image, when its time parses back |
| MealStorage.DecodeEncodedItems | app/src/main/java/de/healthai/eatelligent/data/MealStorage.kt:19-54 | the stored array reads back as the meals in order, without images |
| MealStorage.ReadAfterWrite | app/src/main/java/de/healthai/eatelligent/data/MealStorage.kt:14-57 | the written file is not blank, its `meals` array is what was written, and it reads back as the meals without images |
| MealStorage.NoMealsArray | app/src/main/java/de/healthai/eatelligent/data/MealStorage.kt:18 | a root object without a `meals` array holds no meals |
| MealStorage.NonObjectsSkipped | app/src/main/java/de/healthai/eatelligent/data/MealStorage.kt:21 | any run of non-object items at the end of an array changes nothing, so an array of them alone reads as no meals |
| Profile.GenderNamed | app/src/main/java/de/healthai/eatelligent/UserConfiguration.kt:88 | `Gender.valueOf`: defined exactly for "Girl" and "Boy", and gives the gender with that name |
| Profile.GenderNameRoundTrip | app/src/main/java/de/healthai/eatelligent/UserConfiguration.kt:88 | a gender's name reads back as the same gender |
| UserConfigurationStorage.ReadFields | app/src/main/java/de/healthai/eatelligent/data/UserConfigurationStorage.kt:19-37 | name and diagnosis default to empty; the gender is Boy exactly when the stored text is "Boy"; a null or blank birthday is absent; otherwise the date is parsed and a parse failure fails the read |
| UserConfigurationStorage.Read | app/src/main/java/de/healthai/eatelligent/data/UserConfigurationStorage.kt:16-37 | a missing or blank file holds no profile; otherwise a successful read holds one |
| UserConfigurationStorage.EmptyObjectIsDefault | app/src/main/java/de/healthai/eatelligent/data/UserConfigurationStorage.kt:19-36 | an empty object reads as the default profile |
| UserConfigurationStorage.UnknownGenderIsGirl | app/src/main/java/de/healthai/eatelligent/data/UserConfigurationStorage.kt:22-23 | any gender text other than "Boy" reads as Girl |
| UserConfigurationStorage.ReadFieldsOfDocument | app/src/main/java/de/healthai/eatelligent/data/UserConfigurationStorage.kt:19-52 | the stored fields read back as the profile written, when the birthday parses back |
| UserConfigurationStorage.ReadAfterWrite | app/src/main/java/de/healthai/eatelligent/data/UserConfigurationStorage.kt:16-52 | writing a profile and reading the file back gives the same profile |

## Notable behaviour

- When a meal repeats the last accepted fingerprint within 5 s, `persistMealEntry` writes
  nothing and shows the new entry as the latest result (`MealViewModel.kt:155-160`).
- The "last accepted" marker is recorded after the write whatever its outcome, because
  `writeMeals` catches the failure (`MealViewModel.kt:172-174`, `204-221`). A repeat
  within 5 s of a failed commit is therefore dropped too.
- When both chat requests fail, the client reports the fallback's failure, the last one
  recorded (`OpenAiChatAssistant.kt:40-61`).
- The analyzer repeats a refused structured request when the lower-cased `400` body
  contains one of five phrases (`OpenAiMealAnalyzer.kt:195-205`).
- `deleteMeal` passes no latest result, so a successful delete always clears the latest
  result (`MealViewModel.kt:125-130`).
- The carry-over summary takes the last eight plain messages of the threads' messages
  concatenated in list order (`MealScreens.kt:945-949`). New threads are inserted at the
  front (`MealScreens.kt:211`), so the messages come from the threads at the end of the
  list, which are the earliest created.
- A transport exception (`IOException`) in either client propagates at once, with no
  second attempt. `MovesOn` and `RetryEligible` are false for a transport failure.
- Every failure handler of the view model stores the exception's nullable message as the
  error (`MealViewModel.kt:57`, `62`, `72`, `85`, `219`). An exception without a message
  therefore clears the error rather than setting one. In the model a failure carries a
  `ThrownMessage`, an optional text, which becomes the error as it is.

## Left out

- Compose UI, navigation, dialogs' visual state and every composable are not modelled.
  Only the dialogs' `attemptSave` checks are, as `Validate` and `EditedMeal`.
- Coroutines and concurrency are not modelled. Each launched block is one atomic method
  call, so races between two launched persists are not captured.
- Floating point is not modelled. Grams are exact hundredths, so `%.2f` rounding of values
  with more than two decimals is not captured. `ParseDecimal` rounds by the third fraction
  digit, half away from zero.
- MealScreens.ParseNumber: `ParseDecimal` reads only plain decimal notation with an optional
  sign. Kotlin's `toDoubleOrNull` also accepts other inputs, which this model reads as no
  number:
  - exponent notation (`1e2`);
  - the type suffixes `d`, `D`, `f` and `F` (`12d`);
  - `NaN` and `Infinity`;
  - hexadecimal floating-point literals.

  So the model shows the number error for these where the app saves the value. For `NaN`
  the app then fails inside `writeMeals` when it stores the number (`MealViewModel.kt:209-220`).
- Json.OptDouble: a string value is read with `ParseDecimal` and is not trimmed first,
  whereas `Double.valueOf` ignores surrounding whitespace. The inputs named for
  `ParseNumber` are not read either.
- Json.ParseObject: the message for a text that parses to a value other than an object is
  abstract. `org.json`'s message also names the value's Java class, and it shows strings
  unquoted.
- OpenAiMealAnalyzer.RetryWhenPhraseOccurs and OpenAiMealAnalyzer.RetryIgnoresCase:
  `ToLower` follows Kotlin's `lowercase()` for every character whose lower case contains
  an ASCII character: `A`-`Z`, U+212A KELVIN SIGN and U+0130. Every other character is
  kept as it is, instead of being mapped to its own lower case, which lies outside ASCII.
  The phrases are ASCII, so the retry decision is the same. The lower-cased text differs
  from Kotlin's in those other characters.
- The clock, UUIDs, time zones, the ISO instant and date formats and the JSON text parser
  are parameters. The JSON text `org.json` prints is `Json.Encode`, with numbers written
  as hundredths without trailing zeros.
- `buildProfileSummary` (`MealScreens.kt:871-908`) is not modelled, and neither is the
  "today" filter of the totals. The profile summary is a parameter, and totals are proved
  for any list of meals.
- The bitmap JPEG/base64 encoding (`MealViewModel.kt:132-137`) is not modelled. The
  analyzer takes the base64 text as input.
- Analyzer request bodies are left out: the JSON schema, the prompt texts and the message
  arrays. A request records its shape, model, authorization and image URL. Chat requests
  record the model, temperature (as hundredths), max tokens, authorization and messages.
- The HTTP client, timeouts and headers other than authorization are left out.
- `toEditableString` (`MealScreens.kt:1939-1943`) is not modelled, only the round trip of
  two-decimal text through `parseNumber`. The kid-friendly cards and the goal rings are
  presentation.
- ViewModel.MealViewModel.PersistMealEntry, ViewModel.MealViewModel.FinishAnalysis and
  ViewModel.MealViewModel.AddManualMeal: the current time and the repository write's
  outcome are inputs. The write's effect on the file is `MealStorage`'s.
- MealScreens.ChatCenter.SendChatMessage: the reply coroutine is a separate step,
  `ChatConversation.ResolveReply`, applied later. Edits to the thread in between are
  possible, and are covered by `Resolved` for any message list.
- OpenAiMealAnalyzer.Analyze and OpenAiChatAssistant.GenerateReply: the server's answers
  are given as a list of at least two responses, one per request the loop may send. The
  final "unknown reason" error is unreachable with two attempts and is not produced.
