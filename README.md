# GingerTemplate services and helpers in Dafny

This project models the small stateful services and pure helpers of the
GingerTemplate application template, and proves what their code promises.

- **Stateful services** become classes whose fields the methods reassign:
  - the expiring cache (`CachingService`);
  - the per-flow stack of background task names (`BackgroundTaskService` and its disposable scope);
  - the correlation id slot of the logging service (`LoggingService`);
  - the plugin list (`PluginService`);
  - the current theme (`ThemeManagementService`);
  - the configuration tree (`ConfigurationService`), walked by a loop.
- **Algorithms that loop** become methods with loop invariants, proved against specification functions:
  - the retry policy;
  - dictionary merging;
  - building a dictionary from a sequence;
  - the in-place Fisher–Yates shuffle.
- **Pure helpers** become functions with lemmas:
  - string, char, int and data-format extensions;
  - the argument guards;
  - data validation;
  - the exception-to-HTTP-response classification of the web middleware;
  - the notification and user records.

Thrown exceptions are values. A `Result` is either `Ok(value)` or
`Err(exception)`, and the exception carries its .NET class as an
`ExceptionKind`, its message and, for argument exceptions, the parameter
name. `IsA` states the subclass relation the `switch` statements rely on.
For example, `EmailServiceException` is an `ExternalServiceException`, and
every custom exception is an `ApplicationException`.

Some things are parameters instead:
- The clock (`DateTime.UtcNow`) is a parameter `now`.
- Fresh identifiers (`Guid.NewGuid`, `Activity.Current.TraceId`) are parameters.
- The random index of the shuffle is a nondeterministic choice.
- The outcomes of the retried actions, the failures of their backoff delays and the cancellation token are functions of the attempt number.
- The result of JSON deserialisation is a partial function passed in by the caller.

Locks (`ReaderWriterLockSlim`) and `AsyncLocal` slots are plain fields, so
the model is single-threaded.

## Model

| member | source | states |
|---|---|---|
| Caching.GetItemAsWritten | src/GingerTemplate.Core/Services/CachingService.cs:41-64 | As written, a lookup of a present but expired entry fails with `LockRecursionException`, because the eviction takes the write lock inside the read lock. A live entry or a missing key answers normally. |
| Caching.ContainsItemAsWritten | src/GingerTemplate.Core/Services/CachingService.cs:95-118 | The same failure for `ContainsItem`: an error exactly when the key is present and expired. |
| Caching.ExpiredLookupThrowsAsWritten | src/GingerTemplate.Core/Services/CachingService.cs:55 | The concrete witness for the Findings rows (the general law is the ensures of `GetItemAsWritten` and `ContainsItemAsWritten`). An entry set at time 0 with a 5-unit expiry makes both lookups throw at time 5. |
| Caching.ExpiryFor | src/GingerTemplate.Core/Services/CachingService.cs:67 | The stored expiry is present exactly when an expiration was given, and lies exactly that far after the setting time. |
| Caching.CachingService.constructor | src/GingerTemplate.Core/Services/CachingService.cs:32 | The cache starts empty. |
| Caching.CachingService.GetItem | src/GingerTemplate.Core/Services/CachingService.cs:41-64 | Corrected (see Findings). Returns the item only when the entry exists and has not expired (expiry strictly after now). An expired entry is removed; nothing else changes. |
| Caching.CachingService.SetItem | src/GingerTemplate.Core/Services/CachingService.cs:65-79 | Overwrites the key's entry with the item and its absolute expiry; other keys are unchanged. |
| Caching.CachingService.RemoveItem | src/GingerTemplate.Core/Services/CachingService.cs:80-94 | Removes exactly that key; a missing key is a no-op. |
| Caching.CachingService.ContainsItem | src/GingerTemplate.Core/Services/CachingService.cs:95-118 | Corrected (see Findings). True exactly when a lookup would return the item, with the same eviction of an expired entry. |
| Caching.FindAfterSet | src/GingerTemplate.Core/Services/CachingService.cs:65-79 | After a set, the item is found until its expiry passes and never after; with no expiration it is always found. |
| Caching.OtherKeysUnaffected | src/GingerTemplate.Core/Services/CachingService.cs:65-94 | Setting, removing or evicting one key never changes what a lookup of another key finds. |
| Caching.EvictionInvisible | src/GingerTemplate.Core/Services/CachingService.cs:52-56 | Evicting an expired entry changes no lookup's answer at that time. |
| Caching.NoExpiryAlwaysFound | src/GingerTemplate.Core/Services/CachingService.cs:50-58 | An entry without expiry is always returned. |
| Caching.ExpiredNeverFound | src/GingerTemplate.Core/Services/CachingService.cs:50-58 | An entry whose expiry is at or before now is never returned. |
| Caching.FindAfterRemove | src/GingerTemplate.Core/Services/CachingService.cs:80-94 | After a removal the key is not found. |
| BackgroundTasks.Started | src/GingerTemplate.Core/Services/BackgroundTaskService.cs:38-47 | Starting pushes the name on top of the flow's stack; a flow with no stack gets a fresh one. |
| BackgroundTasks.Ended | src/GingerTemplate.Core/Services/BackgroundTaskService.cs:49-59 | Ending the top name pops exactly it. |
| BackgroundTasks.NestedTasksRestore | src/GingerTemplate.Core/Services/BackgroundTaskService.cs:38-59 | Starting tasks and ending them in reverse order restores the stack to what it was. |
| BackgroundTasks.EndOutOfOrderRefused | src/GingerTemplate.Core/Services/BackgroundTaskService.cs:52-55 | Ending an outer task while an inner, differently named one is on top is refused. |
| BackgroundTasks.BackgroundTaskService.constructor | src/GingerTemplate.Core/Services/BackgroundTaskService.cs:30 | No stack exists before the first start. |
| BackgroundTasks.BackgroundTaskService.StartBackgroundTask | src/GingerTemplate.Core/Services/BackgroundTaskService.cs:38-47 | A null name throws `ArgumentNullException` and changes nothing. Otherwise the name is pushed and a fresh, undisposed scope for it is returned. |
| BackgroundTasks.BackgroundTaskService.EndBackgroundTask | src/GingerTemplate.Core/Services/BackgroundTaskService.cs:49-59 | Succeeds exactly when a stack exists and its top is the name, and then pops it. Otherwise it throws the mismatch `InvalidOperationException` and changes nothing. |
| BackgroundTasks.BackgroundTaskScope.constructor | src/GingerTemplate.Core/Services/BackgroundTaskService.cs:67-71 | A scope remembers its service and name and starts undisposed. |
| BackgroundTasks.BackgroundTaskScope.Dispose | src/GingerTemplate.Core/Services/BackgroundTaskService.cs:73-80 | A second dispose does nothing. A first dispose ends the scope's task. If that end throws, the scope stays undisposed. |
| Retry.UpTo | src/GingerTemplate.Core/Utilities/RetryPolicy.cs:57-61 | The attempt numbers 1..n, the order in which backoff delays are asked for. |
| Retry.Execute | src/GingerTemplate.Core/Utilities/RetryPolicy.cs:45-70 | A non-positive attempt count throws `ArgumentOutOfRangeException` before any call. Otherwise the action is called until it returns, at most `maxAttempts` times. The first returned value is the result, and every earlier call threw. A backoff is taken after every failed attempt except the last. When computing or sleeping for a backoff throws, that exception ends the loop. When all attempts throw, the last exception is rethrown. |
| Retry.ExecuteAction | src/GingerTemplate.Core/Utilities/RetryPolicy.cs:72-75 | The same contract for an action with no result, including a failing backoff. |
| Retry.ExecuteAsync | src/GingerTemplate.Core/Utilities/RetryPolicy.cs:10-38 | The same, plus cancellation. A token cancelled before an attempt stops the loop with `OperationCanceledException`. A failing backoff or delay ends it with its own exception, and a token cancelled during a delay ends it with `OperationCanceledException`. No attempt runs after either. |
| Retry.ExecuteActionAsync | src/GingerTemplate.Core/Utilities/RetryPolicy.cs:40-43 | The same contract for an asynchronous action with no result. |
| Retry.DefaultDelayMs | src/GingerTemplate.Core/Utilities/RetryPolicy.cs:48 | The default backoff in milliseconds, `2^attempt * 100`: at least 200 ms from the first attempt. `DefaultSleepOutOfRange` proves it exceeds the limit of `Thread.Sleep` exactly from attempt 25. |
| Retry.DefaultDelayDoubles | src/GingerTemplate.Core/Utilities/RetryPolicy.cs:48 | The default backoff is exponential: each further attempt doubles the delay. |
| Retry.DefaultSleepOutOfRange | src/GingerTemplate.Core/Utilities/RetryPolicy.cs:48-60 | The default backoff of `2^attempt * 100` ms fits `Thread.Sleep` after attempts 1 to 24 and exceeds `int.MaxValue` ms from attempt 25 on. From there, computing the backoff or sleeping for it throws: `Thread.Sleep` throws `ArgumentOutOfRangeException` for attempts 25 to 43, and `TimeSpan.FromMilliseconds` throws `OverflowException` from 44. |
| Configuration.SplitKey | src/GingerTemplate.Core/Services/ConfigurationService.cs:143 | Splitting with empty entries removed never yields an empty segment. |
| Configuration.SplitKeySegments | src/GingerTemplate.Core/Services/ConfigurationService.cs:143 | Splitting on ':' with empty entries removed yields non-empty, colon-free segments that spell the key without its colons. |
| Configuration.SplitAtColon | src/GingerTemplate.Core/Services/ConfigurationService.cs:143 | Every colon is a break: a key `a:b` splits into the segments of `a` followed by those of `b`. |
| Configuration.SplitSegment | src/GingerTemplate.Core/Services/ConfigurationService.cs:143 | A non-empty key without colons is a single segment, itself. |
| Configuration.NoSegmentsIffAllColons | src/GingerTemplate.Core/Services/ConfigurationService.cs:143-146 | A key yields no segment, and so finds nothing, exactly when it is empty or all colons. |
| Configuration.ColonVariants | src/GingerTemplate.Core/Services/ConfigurationService.cs:143 | "a:b", "a::b" and ":a:b:" give the same segments; "" and ":::" give none. |
| Configuration.Walk | src/GingerTemplate.Core/Services/ConfigurationService.cs:151-158 | Descending one more segment succeeds only from an object that has that property. |
| Configuration.Resolve | src/GingerTemplate.Core/Services/ConfigurationService.cs:145-149 | No segments, or a first segment that is not a top-level entry, resolves to nothing. |
| Configuration.WalkThroughScalarFails | src/GingerTemplate.Core/Services/ConfigurationService.cs:151-158 | A further segment below a non-object element fails the lookup. |
| Configuration.WalkAppend | src/GingerTemplate.Core/Services/ConfigurationService.cs:151-158 | Descending along a path and then another is descending along their concatenation. |
| Configuration.ResolveNested | src/GingerTemplate.Core/Services/ConfigurationService.cs:148-158 | A key addresses what walking its later segments from the top-level entry named by its first segment reaches. |
| Configuration.ConfigurationService.constructor | src/GingerTemplate.Core/Services/ConfigurationService.cs:59-69 | The service holds the given top-level entries. |
| Configuration.ConfigurationService.TryGetValue | src/GingerTemplate.Core/Services/ConfigurationService.cs:140-169 | The loop finds exactly the element the key's segments resolve to and deserialises it. It reports success exactly when a non-null value results. |
| Configuration.ConfigurationService.GetUntypedValue | src/GingerTemplate.Core/Services/ConfigurationService.cs:91-99 | The value found, or null when the key resolves to nothing. |
| Configuration.ConfigurationService.GetValueOrDefault | src/GingerTemplate.Core/Services/ConfigurationService.cs:101-104 | The value found, or the default when the lookup fails; never throws. The typed overload (116-119) has the same contract. |
| Configuration.ConfigurationService.GetValue | src/GingerTemplate.Core/Services/ConfigurationService.cs:106-114 | Throws `KeyNotFoundException` exactly when `TryGetValue` fails, and otherwise returns the value found. |
| Configuration.ConfigurationService.TryGetSection | src/GingerTemplate.Core/Services/ConfigurationService.cs:121-138 | Looks the name up among the top-level entries only, without splitting. A missing name or a null deserialisation fails. |
| Configuration.ConfigurationService.GetSection | src/GingerTemplate.Core/Services/ConfigurationService.cs:71-79 | Throws `KeyNotFoundException` exactly when `TryGetSection` fails. |
| Configuration.ConfigurationService.GetSectionOrDefault | src/GingerTemplate.Core/Services/ConfigurationService.cs:81-89 | The section, or the default exactly when `TryGetSection` fails. |
| Configuration.ConfigurationService.GetKeys | src/GingerTemplate.Core/Services/ConfigurationService.cs:171-174 | Exactly the top-level entry names. |
| Logging.CorrelationFor | src/GingerTemplate.Core/Services/LoggingService.cs:101-117 | The id chosen is never blank. A non-blank explicit id wins. Otherwise a non-blank stored id is kept. Otherwise the generated id is used. |
| Logging.Merge | src/GingerTemplate.Core/Services/LoggingService.cs:90-99 | The merged map has the caller's keys plus "CorrelationId", which always holds the id and overrides any caller value. Every other caller entry is kept unchanged. Null properties give a map holding only "CorrelationId". |
| Logging.LoggingService.constructor | src/GingerTemplate.Core/Services/LoggingService.cs:40 | The correlation slot starts unset. |
| Logging.LoggingService.EnsureCorrelationId | src/GingerTemplate.Core/Services/LoggingService.cs:101-117 | Returns the chosen id. It stores that id when the explicit id is non-blank or nothing non-blank was stored; otherwise the slot is left alone. |
| Logging.LoggingService.CurrentCorrelationId | src/GingerTemplate.Core/Services/LoggingService.cs:48 | Settles the id without an explicit one; afterwards the slot holds it. |
| Logging.LoggingService.BeginCorrelationScope | src/GingerTemplate.Core/Services/LoggingService.cs:56-61 | The scope state is exactly { "CorrelationId": the settled id }, and the slot holds that id. |
| Logging.LoggingService.MergeProperties | src/GingerTemplate.Core/Services/LoggingService.cs:90-99 | The caller's properties merged with the current id, which is settled and stored. |
| Logging.CorrelationIsSticky | src/GingerTemplate.Core/Services/LoggingService.cs:109-116 | Once an id is settled, later calls without an explicit id return it, whatever id they could generate. |
| Logging.BlankExplicitIgnored | src/GingerTemplate.Core/Services/LoggingService.cs:103 | A null or white-space explicit id behaves as none. |
| Logging.CallerCorrelationOverridden | src/GingerTemplate.Core/Services/LoggingService.cs:97 | A caller's own "CorrelationId" entry is replaced, and no entry is added. |
| Plugins.PluginService.constructor | src/GingerTemplate.Core/Services/PluginService.cs:18 | The plugin list starts empty. |
| Plugins.PluginService.LoadPlugin | src/GingerTemplate.Core/Services/PluginService.cs:26-39 | Appends the path at the end; nothing else changes. |
| Plugins.PluginService.GetLoadedPlugins | src/GingerTemplate.Core/Services/PluginService.cs:41-53 | Returns the paths in load order and changes nothing. |
| Plugins.LoadTwiceListsTwice | src/GingerTemplate.Core/Services/PluginService.cs:32-47 | Loading a path twice lists it twice. A list returned before the second load still holds one entry. |
| Themes.ThemeManagementService.constructor | src/GingerTemplate.Core/Services/ThemeManagementService.cs:30 | The initial theme is "Default". |
| Themes.ThemeManagementService.ApplyTheme | src/GingerTemplate.Core/Services/ThemeManagementService.cs:39-51 | Any name is accepted and becomes the current theme. |
| Themes.ThemeManagementService.GetCurrentTheme | src/GingerTemplate.Core/Services/ThemeManagementService.cs:53-65 | Returns the current theme and changes nothing. |
| Themes.LastWriteWins | src/GingerTemplate.Core/Services/ThemeManagementService.cs:30-65 | A fresh service reports "Default"; after two applications the second name is reported. |
| ExceptionHandling.Classify | src/GingerTemplate.WebApi/Middleware/ExceptionHandlingMiddleware.cs:44-94 | The `switch` of `HandleExceptionAsync`: ordered `is` tests in source order, the first match deciding. It gives the generic 500 answer exactly for exceptions outside the application hierarchy, and `ClassifyMatchesTable` proves it equal to the per-class table `Expected`. |
| ExceptionHandling.ClassifyMatchesTable | src/GingerTemplate.WebApi/Middleware/ExceptionHandlingMiddleware.cs:44-94 | The first-match `switch` gives each exception class the status, code and message of the reference table. Specific classes beat `ApplicationException`, and an email-service failure counts as an external-service one. |
| ExceptionHandling.ClassifyClientCases | src/GingerTemplate.WebApi/Middleware/ExceptionHandlingMiddleware.cs:46-62 | Validation, authentication and authorization failures answer 400, 401 and 403 with their own codes and messages. |
| ExceptionHandling.ClassifyConflictAndDataCases | src/GingerTemplate.WebApi/Middleware/ExceptionHandlingMiddleware.cs:64-75 | Business-rule failures answer 409. Repository and database failures share the 500 "DATABASE_ERROR" case. |
| ExceptionHandling.ClassifyServiceCases | src/GingerTemplate.WebApi/Middleware/ExceptionHandlingMiddleware.cs:77-81 | External-service failures, email-service ones included, answer 503 "SERVICE_UNAVAILABLE". |
| ExceptionHandling.ClassifyApplicationCases | src/GingerTemplate.WebApi/Middleware/ExceptionHandlingMiddleware.cs:83-87 | `ApplicationException` and a subclass no earlier case names (configuration errors) answer 500 "APPLICATION_ERROR" with their own message. |
| ExceptionHandling.DatabaseMessageHidden | src/GingerTemplate.WebApi/Middleware/ExceptionHandlingMiddleware.cs:70-75 | Repository and database failures answer 500 "DATABASE_ERROR" with a fixed message, never their own. |
| ExceptionHandling.NonApplicationIsInternal | src/GingerTemplate.WebApi/Middleware/ExceptionHandlingMiddleware.cs:89-93 | Any exception outside the application hierarchy answers 500 "INTERNAL_SERVER_ERROR" with the generic message. |
| ExceptionHandling.Invoke | src/GingerTemplate.WebApi/Middleware/ExceptionHandlingMiddleware.cs:22-47 | A response from the next handler passes through untouched. A thrown exception becomes a JSON error response with the classified status, code and message, the request's trace id and the current time. If the failing handler had already started the response, setting its content type throws `InvalidOperationException`, and that escapes. |
| DataValidation.ValidateData | src/GingerTemplate.Core/Services/DataValidationService.cs:35-65 | Null is invalid. A string is valid exactly when it has a non-white-space character, and an int exactly when it is non-negative. Anything else is valid. |
| Guard.NotNull | src/GingerTemplate.Core/Utilities/Guard.cs:10-14 | Returns the value when it is not null; otherwise throws `ArgumentNullException` naming the parameter. |
| Guard.NotNullOrWhiteSpace | src/GingerTemplate.Core/Utilities/Guard.cs:16-20 | Succeeds exactly when the string has a non-white-space character; otherwise throws `ArgumentException` naming the parameter. |
| Guard.NotDefault | src/GingerTemplate.Core/Utilities/Guard.cs:22-26 | Succeeds exactly when the value differs from the type's default. |
| Guard.GreaterThanZero | src/GingerTemplate.Core/Utilities/Guard.cs:28-32 | Succeeds exactly when the value is positive; otherwise throws `ArgumentOutOfRangeException`. |
| Guard.InRange | src/GingerTemplate.Core/Utilities/Guard.cs:40-45 | Succeeds exactly when min <= value <= max, bounds included. |
| Guard.InRangeEmptyInterval | src/GingerTemplate.Core/Utilities/Guard.cs:40-45 | With min > max every value is rejected. |
| StringExtensions.IsNullOrEmpty | src/GingerTemplate.Core/Extensions/StringExtensions.cs:11-14 | A null or empty string also counts as null or white space. |
| StringExtensions.IsNullOrWhiteSpace | src/GingerTemplate.Core/Extensions/StringExtensions.cs:19-22 | Null or white space exactly when null or trimming to "". |
| StringExtensions.NotBlankIffHasNonWhiteSpace | src/GingerTemplate.Core/Extensions/StringExtensions.cs:19-22 | A string is not null-or-white-space exactly when it has a non-white-space character. |
| StringExtensions.Truncate | src/GingerTemplate.Core/Extensions/StringExtensions.cs:27-33 | Null or empty comes back unchanged. Otherwise the result is the prefix of length min(length, maxLength). A negative maxLength on a non-empty string throws `ArgumentOutOfRangeException`. |
| StringExtensions.TruncateIdempotent | src/GingerTemplate.Core/Extensions/StringExtensions.cs:27-33 | Truncating twice to the same length is truncating once. |
| StringExtensions.TruncateShortIsIdentity | src/GingerTemplate.Core/Extensions/StringExtensions.cs:32 | A string no longer than the limit is returned as is. |
| CharExtensions.IsVowel | src/GingerTemplate.Core/Extensions/CharExtensions.cs:11-14 | True exactly for a, e, i, o, u in either case. |
| CharExtensions.IsConsonant | src/GingerTemplate.Core/Extensions/CharExtensions.cs:19-22 | True only for letters, and for a letter exactly when it is not a vowel. |
| CharExtensions.VowelIsNotConsonant | src/GingerTemplate.Core/Extensions/CharExtensions.cs:11-22 | No character is both a vowel and a consonant. |
| CharExtensions.NonLettersAreNeither | src/GingerTemplate.Core/Extensions/CharExtensions.cs:11-22 | Digits, punctuation and white space are neither. |
| CharExtensions.Examples | src/GingerTemplate.Core/Extensions/CharExtensions.cs:11-22 | 'A' and 'u' are vowels, 'y' and 'B' are consonants, '7' and ' ' are neither. |
| IntExtensions.Remainder | src/GingerTemplate.Core/Extensions/IntExtensions.cs:13 | The C# `%` truncates toward zero: the remainder has the dividend's sign, is smaller than the divisor in magnitude, and with the truncated quotient rebuilds the dividend, which fixes its value. |
| IntExtensions.IsEven | src/GingerTemplate.Core/Extensions/IntExtensions.cs:11-14 | True exactly for multiples of 2, negative ones included. |
| IntExtensions.IsOdd | src/GingerTemplate.Core/Extensions/IntExtensions.cs:19-22 | True exactly for odd numbers, negative ones included, although the C# remainder of a negative odd number is -1. |
| IntExtensions.OddIsNotEven | src/GingerTemplate.Core/Extensions/IntExtensions.cs:11-22 | Every integer is exactly one of even and odd. |
| IntExtensions.NegativeOdd | src/GingerTemplate.Core/Extensions/IntExtensions.cs:21 | For a negative odd number the remainder is -1, and it still counts as odd. |
| IntExtensions.ZeroIsEven | src/GingerTemplate.Core/Extensions/IntExtensions.cs:11-22 | 0 and -4 are even; -3 is odd. |
| DataFormatExtensions.ToFormatString | src/GingerTemplate.Core/Extensions/DataFormatExtensions.cs:38-48 | Every format has a non-empty lower-case name. |
| DataFormatExtensions.GetFileExtension | src/GingerTemplate.Core/Extensions/DataFormatExtensions.cs:8-18 | The extension is a dot followed by the format's name. |
| DataFormatExtensions.Parse | src/GingerTemplate.Core/Extensions/DataFormatExtensions.cs:23-33 | Succeeds exactly when the lower-cased input names a format, and returns that format. Anything else throws `ArgumentException`. |
| DataFormatExtensions.ParsePrintRoundTrip | src/GingerTemplate.Core/Extensions/DataFormatExtensions.cs:23-48 | Parsing a format's name gives the format back. |
| DataFormatExtensions.ToFormatStringInjective | src/GingerTemplate.Core/Extensions/DataFormatExtensions.cs:38-48 | Different formats have different names. |
| DataFormatExtensions.ParseIgnoresCase | src/GingerTemplate.Core/Extensions/DataFormatExtensions.cs:25 | Parsing an input and its lower-case form succeed together and agree on the format. |
| DataFormatExtensions.ParseExamples | src/GingerTemplate.Core/Extensions/DataFormatExtensions.cs:25-31 | "JSON", "Json" and "json" parse to JSON; "toml" is rejected. |
| DictionaryExtensions.MergeDictionaries | src/GingerTemplate.Core/Extensions/DictionaryExtensions.cs:13-22 | The keys are the union. On a conflict the second map's value wins. Keys only in the first map keep their values. Merging an empty second map gives the first back. |
| CollectionConverters.ToHashSetSafe | src/GingerTemplate.Core/Converters/CollectionConverters.cs:14-17 | Null gives the empty set; otherwise exactly the elements of the source. |
| CollectionConverters.ToListSafe | src/GingerTemplate.Core/Converters/CollectionConverters.cs:22-25 | Null gives the empty list; otherwise the same elements in the same order. |
| CollectionConverters.ToArraySafe | src/GingerTemplate.Core/Converters/CollectionConverters.cs:31-34 | The elements in order. Null and an empty source give the shared `Array.Empty<T>()` instance; any other source gives a new array. |
| CollectionConverters.ToDictionarySafe | src/GingerTemplate.Core/Converters/CollectionConverters.cs:39-57 | Null gives an empty dictionary. Otherwise the keys are exactly the selected keys of the items, and each maps to the element of the last item with that key. |
| CollectionConverters.KeysOfStep | src/GingerTemplate.Core/Converters/CollectionConverters.cs:51-54 | One more item adds exactly its key to the keys seen. |
| CollectionConverters.FillStep | src/GingerTemplate.Core/Converters/CollectionConverters.cs:51-54 | Assigning one more item keeps the dictionary mapping every key seen to the element of its last item. |
| ListExtensions.Swap | src/GingerTemplate.Core/Extensions/ListExtensions.cs:20-22 | The two positions exchange their values. |
| ListExtensions.SwapPermutes | src/GingerTemplate.Core/Extensions/ListExtensions.cs:20-22 | An exchange permutes the list and leaves every other position alone. |
| ListExtensions.ApplyPicksSnoc | src/GingerTemplate.Core/Extensions/ListExtensions.cs:17-23 | One more round, with a pick in range, exchanges the next position down with the pick. |
| ListExtensions.ValidPicksPrefix | src/GingerTemplate.Core/Extensions/ListExtensions.cs:17-23 | Every prefix of a valid sequence of random picks is valid. |
| ListExtensions.ApplyPicksPermutes | src/GingerTemplate.Core/Extensions/ListExtensions.cs:17-23 | Whatever the random picks, the result is a permutation of the input. |
| ListExtensions.ApplyPicksFixesTop | src/GingerTemplate.Core/Extensions/ListExtensions.cs:17-23 | The position settled by a round of the loop is not touched by later rounds. |
| ListExtensions.Shuffle | src/GingerTemplate.Core/Extensions/ListExtensions.cs:13-24 | Shuffles in place. Position n-1, then n-2 and so on down to 1 is exchanged with a random index below or at it. The result is a permutation of the input, and a list of 0 or 1 elements is unchanged. |
| Models.NewNotification | src/GingerTemplate.Core/Models/Notification.cs:12-32 | A new notification has its fresh id and creation time. It is Pending, with Normal priority, the Email channel, empty texts and metadata, no timestamps or error, and zero retries. |
| Models.SuccessResult | src/GingerTemplate.Core/Models/NotificationResult.cs:20-27 | Success, the given id, no error message, and the construction time as timestamp. |
| Models.FailureResult | src/GingerTemplate.Core/Models/NotificationResult.cs:29-36 | Failure, the given message, the empty `Guid`, and the construction time as timestamp. |
| Models.NewUser | src/GingerTemplate.Core/Models/User.cs:8-28 | A new user is active, has role "User", zero login attempts, is not locked, has empty strings and no update time. |
| Models.FullName | src/GingerTemplate.Core/Models/User.cs:30 | The full name never starts or ends with white space. |
| Models.FullNameOfNoNames | src/GingerTemplate.Core/Models/User.cs:12-30 | With both names empty the full name is "". |
| Models.FullNameOfFirstOnly | src/GingerTemplate.Core/Models/User.cs:30 | With no last name, the full name is the first name trimmed, with no stray space. |
| Models.FullNameOfLastOnly | src/GingerTemplate.Core/Models/User.cs:30 | With no first name, the full name is the last name trimmed, with no stray space. |
| Models.FullNameOfBoth | src/GingerTemplate.Core/Models/User.cs:30 | With both names set and trimmed, they are joined by exactly one space. |
| Models.NewUserHasNoName | src/GingerTemplate.Core/Models/User.cs:12-30 | A new user's full name is "". |

## Left out

- The notification dispatch engine (send, bulk send, status, history, retry and cancel) is not part of this model. No source file in this repository implements it; `NotificationService` only logs.
- Locks and ambient context are not modelled. The `ReaderWriterLockSlim` and `AsyncLocal` are single-threaded fields here, so thread interleavings and lock timeouts are not covered. The static `AsyncLocal` slots are shared by all service instances in one execution flow; the model gives each instance its own.
- Logging output is not modelled. The `Log*` methods, `BeginScope` and `LogWithScope` only forward to the logger; the model covers the properties and the correlation id they attach.
- Clocks, `Guid.NewGuid`, `Activity.Current` and `Random` are parameters or nondeterministic choices. The model does not capture uniqueness of ids, uniformity of the shuffle, or which of `Activity` and `Guid` supplied the id.
- File, database and network I/O are not modelled. This covers `ConfigurationService.LoadConfiguration`, the file-path constructor and the response write of the middleware.
- JSON serialisation is not modelled. Deserialisation is a partial function given by the caller, and the camel-case output of the middleware and the dictionary-to-`JsonElement` conversion of the dictionary constructor are not modelled. Case-insensitive property matching is left to the deserialiser.
- Floating point is not modelled. This covers `Guard.GreaterThanZero(double)` and `TimeSpan` arithmetic. Delays are recorded by attempt number, not slept.
- Retry.ExecuteAsync: whether computing a backoff or waiting for it throws is the parameter `delayFails`, in all four retry methods. Their contracts do not tie it to any particular backoff. For the default backoff with `Thread.Sleep`, the limit is stated on its own by `Retry.DefaultSleepOutOfRange`. The limit of `Task.Delay` depends on the .NET version and is not stated. A custom backoff of exactly -1 ms (`Timeout.InfiniteTimeSpan`) makes the sleep or delay wait forever. That hang is not modelled, since a backoff here either throws or returns.
- Culture-dependent text is not modelled: `ToTitleCase`, and the culture rules of `ToLower` beyond ASCII.
- Caching.CachingService.GetItem: does not model the `InvalidCastException` of a stored item of another type, because the cache is generic over one item type.
- Caching.CachingService.SetItem: `DateTime` overflow of `UtcNow + expiration` is not modelled, because clock readings are unbounded integers.
- CharExtensions.IsConsonant: only ASCII letters count as letters, whereas `char.IsLetter` also accepts non-ASCII letters.
- Guard.InRange: covers `int` only, not every `IComparable<T>`, and its message is not interpolated with the bounds.
- Guard.NotDefault: the default value is a parameter, because Dafny has no `default(T)`.
- IntExtensions.IsEven: integers are unbounded, so 32-bit overflow is not modelled (none can arise in `%`).
- CollectionConverters.ToHashSetSafe: the optional equality comparers of the converters are not modelled; equality is Dafny's own.
- CollectionConverters.ToDictionarySafe: a null key, which makes the source throw, is not modelled.
- ListExtensions.Shuffle: the list is an array, so `IList<T>` implementations with their own indexers are not covered.
- Exception classes other than the kinds, and enums used only as data, are not modelled.
- ApplicationConfiguration settings records are not modelled.
- Null passed for a non-nullable `string` parameter is not modelled, because strings are plain Dafny values. In the source such a null makes the cache's dictionary throw `ArgumentNullException`. `key.Split` in `TryGetValue`, the dictionary lookup in `TryGetSection` and `ToLower` in `DataFormatExtensions.Parse` throw too, while `LoadPlugin` and `ApplyTheme` store the null.
- StringExtensions.Truncate: lengths and cuts count Unicode scalar values, not UTF-16 code units. The source can split a surrogate pair (`"😀"` with `maxLength` 1 gives a lone high surrogate), and the model cannot.
- DataFormatExtensions.ToFormatString: the `ArgumentOutOfRangeException` arm for an undefined enum value, such as `(DataFormat)7`, is not modelled, because the model's `DataFormat` has only its four named values.
- DataFormatExtensions.GetFileExtension: the same `ArgumentOutOfRangeException` arm for an undefined enum value is not modelled, for the same reason.

## Findings

| source | as written | input that shows it | evidently intended | confidence | as-written member | corrected member |
|---|---|---|---|---|---|---|
| src/GingerTemplate.Core/Services/CachingService.cs:55 | `GetItem` calls `RemoveItem` for an expired entry while still holding the read lock. `RemoveItem` then asks for the write lock, and the default no-recursion `ReaderWriterLockSlim` throws `LockRecursionException`. | Set key "token" at time 0 with a 5-unit expiration, then `GetItem("token")` at time 5. | The expired entry is evicted and the lookup returns the default value. | not executed | Caching.GetItemAsWritten | Caching.CachingService.GetItem |
| src/GingerTemplate.Core/Services/CachingService.cs:109 | `ContainsItem` has the same upgrade from the read lock to the write lock. | The same entry, then `ContainsItem("token")` at time 5. | The expired entry is evicted and the call returns false. | not executed | Caching.ContainsItemAsWritten | Caching.CachingService.ContainsItem |
