# App Runner auto scaling custom resource — a Dafny model

This project models the part of the go-cdk-go-managed-apprunner repository that has real decision logic.

**The Lambda custom-resource handler** (`custom/custom.go`) reconciles one App Runner auto scaling configuration for CloudFormation's Create, Update and Delete events:

- It parses the untyped property bag into `InputProps`.
- Create creates the configuration.
- Delete removes the first configuration listed under the name.
- Update proceeds in this order:
  1. it looks up the old configuration;
  2. it moves the stack's App Runner services to the configuration named "DefaultConfiguration", waiting for each service's operation to finish;
  3. it deletes the old configuration;
  4. it creates the new one.

**The CDK side** (`cdk/go-cdk-go-managed-apprunner.go`) contributes:

- the producer half of that contract: the property bag the stack passes to the handler, and the export names under which it publishes its services' ARNs;
- the interactive GitHub connection step: the yes/no prompt, the handshake confirmation loop, and the lookup-or-create decision.

The project is laid out as follows:

- `wrappers.dfy`: the `Option` and `Result` types.
- `strconv.dfy`: Go's `strconv.Atoi`, `strconv.Itoa` and the `int32(...)` conversion, for a 64-bit `int`.
- `domain.dfy`: property-bag values, configurations, stack outputs, operation summaries, provider calls and the handler's errors.
- `cloud_api.dfy`: the App Runner and CloudFormation provider.
  - `World` is its state as a value, and each `...Step` function is one SDK call.
  - Every call is appended to a log. A call fails when it is listed in `failing`. It also fails when it names a stack, service or ARN the model does not know; this is the model's choice, and the source does not say how the provider answers such calls.
  - The replies to ListOperations are scripted per service.
  - `Provider` is the same state as a class. Each method is one SDK call, proved equal to its step function.
- `custom.dfy`: the handler.
  - Each Go function that calls the provider (`createAutoScalingConfiguration`, `getServiceArns`, `waitOperation`, `updateServiceForAutoScalingConfiguration`, `changeAutoScalingConfigurationToDefault`, `HandleRequest`) is a module-level method that takes the `Provider` object and has the same loops and branches.
  - Each such method is proved to produce `(result, new state) == ...Outcome(old state, ...)`, where `...Outcome` is a function over `World`.
  - `convertInputParameters` makes no call and is a function.
  - `listAutoScalingConfiguration` and `deleteAutoScalingConfiguration` each wrap one SDK call, so the handler calls the `Provider` methods `ListAutoScalingConfigurations` and `DeleteAutoScalingConfiguration` directly.
- `handler_properties.dfy`: what the handler guarantees, stated over those functions and over the calls it issues:
  - the parser's verdicts;
  - the calls each request type makes, and in which order;
  - what the detach step does to the stack's services;
  - how the poller decides.
- `stack.dfy`: the stack's property bag and service exports. It shows that the parser and service discovery accept exactly what the stack emits.
- `connection.dfy`: `getYesNo`, `confirmCompleteHandshake` and `createConnection`.
  - Standard input is a `Terminal` holding the lines still to be read.
  - Connections live in an `Account`, which a `ConnectionClient` object changes.

Some behaviours of the code are worth stating outright:

- **waitOperation polls again when a reply does not mention the operation** (custom/custom.go:161-171). It fails only on an empty list, a failed call, or a settled status other than SUCCEEDED.
- **An Update that finds the old configuration deletes it even when there is no "DefaultConfiguration"** (custom/custom.go:59-69, 220-227). In that case no service is moved before the delete. If the provider accepts deleting a configuration that services still use, those services are left attached to the deleted ARN. `HandlerProperties.UpdateWithoutDefaultOrphansServices` states this for the modelled provider, which accepts such a delete.
- **HandleRequest reports a rejected property bag with the parser's errors as written** (custom/custom.go:33-35, 230-275). The name's error shows the value under the key "AutoScaling", and a conversion error shows the int Atoi returned; see "## Findings".
- **A request that gets past all its checks returns a nil error** (custom/custom.go:91). The `err` declared inside the branches shadows the named result.

## Model

| member | source | states |
|---|---|---|
| Custom.Convert | custom/custom.go:230-275 | succeeds exactly when all five fields are strings and the three bounds are decimal ints; on success the record holds the name, the three Atoi values and the stack name unchanged, with no range or min/max check; an error names the first invalid field and is an assertion error exactly when that field is not a string |
| Custom.ConvertInputParameters | custom/custom.go:230-275 | accepts exactly the bags whose five fields are valid; an error names the first invalid field in reading order and shows that field's own value |
| Custom.ConvertInputParametersAsWritten | custom/custom.go:230-275 | same verdicts as the corrected parser; the name's assertion error shows the value under "AutoScaling"; a convert error shows an int that is 0 or a clamped int64 bound |
| Custom.AsWrittenDiffersOnlyInShownValue | custom/custom.go:230-275 | the as-written and corrected parsers return the same record, and on an error name the same field |
| HandlerProperties.AllFieldsValidMeansEachField | custom/custom.go:230-266 | the parser's acceptance condition is validity of every field of the fixed list AutoScalingConfigurationName, MaxConcurrency, MaxSize, MinSize, StackName |
| HandlerProperties.ParseReportsFirstInvalidField | custom/custom.go:230-266 | the reported field is invalid and every field before it in the fixed order is valid |
| HandlerProperties.AsWrittenNameErrorShowsWrongKey | custom/custom.go:231-234 | for a bag whose name is the int 7, the as-written error shows nil, while the corrected one shows 7 |
| HandlerProperties.AsWrittenConvertErrorShowsAtoiResult | custom/custom.go:240-243 | for MaxConcurrency "fifty", the as-written error shows 0, while the corrected one shows "fifty" |
| Strconv.Atoi | custom/custom.go:240-261 | an accepted string is an optional sign plus at least one digit, with a value in the int64 range; on rejection the int returned beside the error is 0 or a clamped bound |
| Strconv.AtoiItoaRoundTrip | cdk/go-cdk-go-managed-apprunner.go:81-83 | the decimal text Itoa gives any int64 is read back by Atoi as the same int |
| Strconv.Itoa | cdk/go-cdk-go-managed-apprunner.go:81-83 | the text is non-empty, starts with "-" exactly when the int is negative, and is otherwise all decimal digits |
| Strconv.ToInt32 | custom/custom.go:108-110 | the narrowed value is in the int32 range, equals the input modulo 2^32, and equals the input when it already fits |
| CloudApi.Provider.ListAutoScalingConfigurations | custom/custom.go:94-103 | one ListAutoScalingConfigurations call, logged; fails only when that call fails; otherwise returns exactly the configurations with the name |
| CloudApi.ListConfigurationsStep | custom/custom.go:94-96 | the ListAutoScalingConfigurations call is logged and changes nothing else; it fails exactly when the call is failing, and otherwise lists exactly the configurations with the name |
| Custom.CreateOutcome | custom/custom.go:105-117 | logs one create call with the name and the bounds narrowed to int32; on success the new configuration with the returned ARN is listed last, and on failure nothing changes |
| Custom.CreateAutoScalingConfiguration | custom/custom.go:105-117 | issues that one create call and has exactly that outcome on the provider |
| CloudApi.CreateConfigurationStep | custom/custom.go:106-111 | the create call is logged; it succeeds exactly when the call is not failing, and then lists the new configuration last under the next unused ARN, which it returns; on failure nothing else changes |
| CloudApi.CreatePreservesValid | custom/custom.go:105-117 | the ARN returned by a create belonged to no existing configuration, and ARNs stay distinct |
| CloudApi.Provider.DeleteAutoScalingConfiguration | custom/custom.go:119-125 | one delete call, logged; succeeds exactly when the call is not failing and the ARN exists, and then removes the configurations with that ARN |
| CloudApi.DeleteConfigurationStep | custom/custom.go:120-122 | the delete call is logged; it succeeds exactly when the call is not failing and the ARN exists, and then removes the configurations with that ARN; on failure nothing else changes |
| CloudApi.DeletePreservesValid | custom/custom.go:119-125 | a delete keeps ARNs distinct and keeps unused ARNs unused |
| CloudApi.Provider.DescribeStacks | custom/custom.go:128-133 | fails when the call fails or the stack is unknown; otherwise returns that stack's outputs |
| CloudApi.DescribeStacksStep | custom/custom.go:128-130 | the call is logged and changes nothing else; it succeeds exactly when the call is not failing and the stack is known, and then returns that stack's outputs |
| CloudApi.Provider.UpdateService | custom/custom.go:194-200 | on success attaches the service to the configuration, returns the operation id, and leaves every other service as it was |
| CloudApi.UpdateServiceStep | custom/custom.go:194-197 | the call is logged; it succeeds exactly when the call is not failing and the service is known, and then attaches only that service to the configuration and returns the service's operation id; configurations, stacks and failures are unchanged |
| CloudApi.Provider.ListOperations | custom/custom.go:151-156 | returns the service's next scripted reply and consumes it; changes no configuration, service or stack |
| CloudApi.ListOperationsStep | custom/custom.go:151-153 | the call is logged and consumes one scripted reply; configurations, services, stacks and failures are unchanged; it succeeds exactly when the call is not failing, the service is known and the next reply is a list, and then returns that list |
| Custom.ServiceArns | custom/custom.go:135-140 | never yields more ARNs than there are outputs |
| HandlerProperties.ServiceArnsAreMatchingValues | custom/custom.go:135-140 | a value is discovered exactly when some output carrying it has export name stackName+"AppRunnerServiceL1ServiceArn" or stackName+"AppRunnerServiceL2ServiceArn" |
| HandlerProperties.ServiceArnsAppend | custom/custom.go:135-140 | discovery over concatenated outputs concatenates the results, so values keep their output order |
| Custom.DiscoveryOutcome | custom/custom.go:127-143 | issues only the DescribeStacks call |
| Custom.GetServiceArns | custom/custom.go:127-143 | the loop appends, in output order, the values of the matching outputs: the result is the discovery outcome |
| Custom.PollOutcome | custom/custom.go:150-172 | polling leaves configurations, services, stacks and failures as they were, and only appends to the log |
| Custom.Decide | custom/custom.go:161-171 | a failure verdict carries a status that is neither PENDING, IN_PROGRESS nor SUCCEEDED (DecideMeaning says which entry decides) |
| Custom.WaitOutcome | custom/custom.go:145-173 | waiting leaves configurations, services, stacks and failures as they were |
| Custom.WaitOperation | custom/custom.go:145-173 | the `for` loop re-polls until a reply decides, and its result and the provider's new state are the wait outcome |
| HandlerProperties.DecideMeaning | custom/custom.go:161-171 | a reply is undecided exactly when no entry for the id has a status other than PENDING or IN_PROGRESS; otherwise the first such entry decides: SUCCEEDED is done, any other status a failure carrying it |
| HandlerProperties.WaitWithoutOperationIdPollsNothing | custom/custom.go:146-148 | an empty operation id fails with "OperationId is empty" and no call |
| HandlerProperties.PollStep | custom/custom.go:150-172 | one poll: a failed call or an empty list is an error; a deciding reply ends the wait with its verdict; an undecided reply (id absent, or only pending entries) polls again |
| HandlerProperties.PollOnlyLists | custom/custom.go:150-172 | every call the poller makes is ListOperations for its own service |
| HandlerProperties.WaitMutatesNothing | custom/custom.go:145-173 | waiting issues no create, delete or UpdateService call |
| HandlerProperties.PollUntilSucceeded | custom/custom.go:150-172 | replies PENDING, then IN_PROGRESS behind another operation's FAILED, then SUCCEEDED end the wait successfully after exactly three polls |
| Custom.FanOutOutcome | custom/custom.go:190-210 | the fan-out changes no configuration, stack or failure, and only appends to the log |
| Custom.ServiceUpdateOutcome | custom/custom.go:175-211 | retargeting changes no configuration, stack or failure |
| Custom.UpdateServiceForAutoScalingConfiguration | custom/custom.go:175-211 | discovery, then a loop that updates and waits for each service in order, stopping at the first error; the result is the retargeting outcome |
| HandlerProperties.FanOutRetargetsInOrder | custom/custom.go:190-210 | the fan-out's changes are a prefix of one UpdateService per listed service, in order (in the sequential model), and all of them on success |
| HandlerProperties.FanOutAttachesListedServices | custom/custom.go:190-210 | on success every listed service is attached to the configuration; unlisted services keep theirs; no service appears or vanishes |
| HandlerProperties.ServiceUpdateEffect | custom/custom.go:182-210 | changes only the discovered services, in order; succeeds only with at least one service discovered, all then attached; with none, fails with "Service Arns not found" after DescribeStacks alone |
| HandlerProperties.FanOutAfterSettled | custom/custom.go:190-210 | when the first service's update is accepted and its wait succeeds, the fan-out continues with the other services from the state that turn left |
| Custom.UpdateAndWait | custom/custom.go:193-207 | one goroutine's work, UpdateService then the wait for its operation, changes no configuration, stack or failure and only appends to the log |
| HandlerProperties.TurnRetargetsOnce | custom/custom.go:193-207 | one service's turn changes the provider by exactly one UpdateService call for that service, whatever the wait returns |
| HandlerProperties.FanOutFirstUnsettled | custom/custom.go:190-210 | when the first service does not settle, the fan-out's result and state are that service's turn, and the result is an error |
| HandlerProperties.FanOutAppend | custom/custom.go:190-210 | the fan-out over two lists in sequence is the fan-out over the first, then, only if that succeeded, the fan-out over the second from the state it left |
| HandlerProperties.FanOutOne | custom/custom.go:190-210 | the fan-out over a single service is that service's turn |
| HandlerProperties.FanOutExtendPrefix | custom/custom.go:190-210 | the fan-out over the first k+1 services succeeds exactly when the fan-out over the first k does and service k then settles |
| HandlerProperties.FanOutPrefixSucceedsIffEveryWaitSucceeds | custom/custom.go:190-210 | the fan-out over the first i services succeeds exactly when each of them settles in the state the services before it left |
| HandlerProperties.FanOutSucceedsIffEveryWaitSucceeds | custom/custom.go:190-210 | the fan-out succeeds exactly when every listed service settles, in the state the fan-out over the services before it left: its UpdateService call is accepted and the wait for the operation it started succeeds |
| HandlerProperties.FanOutStopsAtFirstFailure | custom/custom.go:190-210 | when the fan-out over the services before the i-th succeeds and the i-th does not settle, the fan-out's result and state are that service's turn: its refused update, or its failed wait such as an operation that ended in a status other than SUCCEEDED; later services are not touched (in the sequential model) |
| Custom.DetachOutcome | custom/custom.go:213-228 | the detach step changes no configuration, stack or failure |
| Custom.ChangeAutoScalingConfigurationToDefault | custom/custom.go:213-228 | looks up "DefaultConfiguration" and retargets only when it exists; the result is the detach outcome |
| HandlerProperties.DetachEffect | custom/custom.go:213-228 | without "DefaultConfiguration", touches no service and succeeds when the lookup does; with it, only attaches discovered services to the first default's ARN, and all of them on success |
| Custom.CreateRequestOutcome | custom/custom.go:46-52 | a Create changes no service |
| Custom.UpdateRequestOutcome | custom/custom.go:53-76 | an Update only appends to the log |
| Custom.ReplaceOutcome | custom/custom.go:59-69 | the detach-then-delete step creates nothing and adds no failure |
| Custom.DeleteRequestOutcome | custom/custom.go:77-88 | a Delete changes no service |
| Custom.Dispatch | custom/custom.go:46-89 | every request type only appends to the log |
| Custom.KindOf | custom/custom.go:46-89 | "Create", "Update" and "Delete" each select their own branch, and every other request type selects none |
| Custom.RequestOutcome | custom/custom.go:28-92 | an invocation only appends to the log; a rejected bag is reported with the error of the parser as written |
| Custom.HandleRequest | custom/custom.go:28-92 | parse with the parser as written, load the configuration, then dispatch on "Create", "Update", "Delete" (anything else does nothing); the result and the provider's new state are the request outcome, and an error carries no physical id or data |
| HandlerProperties.ParseFailureMakesNoCall | custom/custom.go:33-36 | a rejected bag returns the as-written parser's error, which names the first invalid field, before any provider call, leaving the provider untouched |
| HandlerProperties.ParsedRequestIsDispatched | custom/custom.go:28-92 | a bag the parser accepts, with the configuration loaded, is dispatched by request type with the record the corrected parser gives too |
| HandlerProperties.OtherRequestTypeChangesNothing | custom/custom.go:46-91 | a request type other than Create, Update or Delete succeeds with physical id "AutoScalingConfiguration", empty data and no call |
| HandlerProperties.CreateMakesOneCall | custom/custom.go:46-52 | Create issues exactly the create call with the parsed name and int32-narrowed bounds; it succeeds exactly when that call does, answering "AutoScalingConfiguration" and data whose only key "AutoScalingConfigurationArn" holds the new ARN, which no configuration had before and which is now listed last |
| HandlerProperties.DeleteWithoutMatchIsNoOp | custom/custom.go:77-88 | Delete with no configuration under the name succeeds with empty data after the lookup alone |
| HandlerProperties.DeleteRemovesOnlyFirstMatch | custom/custom.go:77-88 | Delete issues the lookup and one delete of the first match's ARN; on success exactly that configuration, the first with the name, is removed and all others are kept |
| HandlerProperties.UpdateOrdering | custom/custom.go:53-76 | a failed lookup changes nothing; with no match, the only change is the create; otherwise the detach-and-delete changes come first, then the create only if they succeeded |
| HandlerProperties.UpdateWithoutMatch | custom/custom.go:53-76 | with no configuration under the name, Update's only change is the create call |
| HandlerProperties.UpdateWithMatch | custom/custom.go:59-76 | with a match, Update's changes are those of detach-and-delete, followed by the create exactly when detach-and-delete succeeded |
| HandlerProperties.UpdateAfterReplace | custom/custom.go:71-76 | after a successful detach-and-delete (or none), Update appends exactly the create call |
| HandlerProperties.FailedDetachAbortsUpdate | custom/custom.go:59-69 | an Update whose detach step fails returns that error; among its changes there are only UpdateService calls, so nothing is deleted and nothing created |
| HandlerProperties.FailedOperationAbortsUpdate | custom/custom.go:59-69 | when the fan-out over the discovered services before one of them succeeds and that service's operation then ends in a status other than SUCCEEDED, the Update fails with that status and issues no delete and no create |
| HandlerProperties.ReplaceCalls | custom/custom.go:59-69 | the old configuration is deleted only after the detach step succeeded; detach-and-delete succeeds exactly when both did |
| HandlerProperties.UpdateWithoutDefaultOrphansServices | custom/custom.go:59-69 | without "DefaultConfiguration", a successful Update deletes the old configuration yet leaves every service attached where it was, including to the deleted ARN, given a provider that accepts deleting a configuration in use, as the modelled one does |
| HandlerProperties.DispatchPreservesValid | custom/custom.go:46-89 | every request type keeps configuration ARNs distinct and keeps unused ARNs unused |
| HandlerProperties.RequestPreservesValid | custom/custom.go:28-92 | every invocation keeps configuration ARNs distinct and keeps unused ARNs unused |
| Stack.StackOutputs | cdk/go-cdk-go-managed-apprunner.go:231-239 | two outputs, exported as stackName+"AppRunnerServiceL2ServiceArn" then stackName+"AppRunnerServiceL1ServiceArn", carrying the L2 and L1 service ARNs |
| Stack.ServiceExportNames | cdk/go-cdk-go-managed-apprunner.go:231-239 | two distinct export names, each the stack name followed by a suffix |
| Stack.CustomResourceProperties | cdk/go-cdk-go-managed-apprunner.go:79-85 | the bag holds exactly the keys AutoScalingConfigurationName, MaxConcurrency, MaxSize, MinSize and StackName, all strings, with the same text under the name and the stack name |
| Stack.PropertiesHaveParsedKeys | cdk/go-cdk-go-managed-apprunner.go:79-85 | the bag's keys are exactly the five the parser reads, each bound to a string |
| Stack.PropertiesLookups | cdk/go-cdk-go-managed-apprunner.go:79-85 | the name and the stack name both hold the stack name; each bound holds the decimal text of the stack's int |
| Stack.ParseOfWellFormedBag | custom/custom.go:230-275 | a bag of five strings whose bounds Atoi reads as given ints parses to exactly those values |
| Stack.PropertyBagRoundTrip | cdk/go-cdk-go-managed-apprunner.go:79-85 | both the handler's parser as written and the corrected parser accept every bag the stack emits, recovering the stack name as both names and the three bounds unchanged |
| Stack.DeployedPropertiesRoundTrip | cdk/input/input.go:50-54 | the deployed bounds 50, 3 and 1 reach the handler as 50, 3 and 1 |
| Stack.ExportNamesAreServiceExports | cdk/go-cdk-go-managed-apprunner.go:231-239 | an export name is one discovery accepts for a stack exactly when that stack declares it |
| Stack.DiscoveryFindsBothServices | cdk/go-cdk-go-managed-apprunner.go:231-239 | discovery over the stack's outputs, listed as the stack declares them, yields the L2 then the L1 service ARN; that the provider lists them in this order is an assumption |
| Stack.OtherStackFindsNone | cdk/go-cdk-go-managed-apprunner.go:231-239 | discovery under any other stack name finds none of this stack's services |
| Stack.OtherStemOtherName | cdk/go-cdk-go-managed-apprunner.go:233-238 | an export name of one stack is never a service export name of another |
| Stack.SameLengthSuffixesSameStem | cdk/go-cdk-go-managed-apprunner.go:233-238 | equal names made of equally long suffixes have equal stems |
| Stack.DeployedStackDiscovery | custom/custom.go:127-143 | against a deployed stack whose outputs the provider lists as the stack declares them (an assumption), discovery yields exactly its two service ARNs after the DescribeStacks call alone |
| Connection.LeadingSpaces | cdk/go-cdk-go-managed-apprunner.go:306 | counts the maximal run of white space at the start |
| Connection.TrailingSpaces | cdk/go-cdk-go-managed-apprunner.go:306 | counts the maximal run of white space at the end |
| Connection.TrimSpace | cdk/go-cdk-go-managed-apprunner.go:306 | the trimmed text is empty or starts and ends with a non-space |
| Connection.TrimSpaceIsTheTrim | cdk/go-cdk-go-managed-apprunner.go:306 | whenever only white space lies outside s[i..j] and s[i..j] has non-space ends, the trim is exactly s[i..j] |
| Connection.LowerIsSpelled | cdk/go-cdk-go-managed-apprunner.go:310-316 | lower-casing gives a lower-case word exactly when the text spells it with each letter in either case |
| Connection.Classify | cdk/go-cdk-go-managed-apprunner.go:306-316 | a blank answer is yes; only answers of at most three characters after trimming are recognised; a no starts with "n" or "N" (ClassifyYes and ClassifyNo give the exact sets) |
| Connection.ClassifyYes | cdk/go-cdk-go-managed-apprunner.go:306-313 | an answer is yes exactly when, trimmed, it is empty, "y" or "yes" in any letter case |
| Connection.ClassifyNo | cdk/go-cdk-go-managed-apprunner.go:314-316 | an answer is no exactly when, trimmed, it is "n" or "no" in any letter case |
| Connection.BlankIsYes | cdk/go-cdk-go-managed-apprunner.go:303-309 | a line of white space only, including the "" read at end of input, is a yes |
| Connection.Terminal.ReadString | cdk/go-cdk-go-managed-apprunner.go:303 | returns the next line and consumes it, or "" at end of input |
| Connection.YesNoOutcome | cdk/go-cdk-go-managed-apprunner.go:301-317 | what is left is a suffix of the input, strictly shorter after a no |
| Connection.FirstAnswered | cdk/go-cdk-go-managed-apprunner.go:301-317 | the index of the first yes or no line: all earlier lines are unrecognised |
| Connection.YesNoAnswersFirstAnsweredLine | cdk/go-cdk-go-managed-apprunner.go:301-317 | getYesNo skips unrecognised lines, answers true or false by the first yes or no line and consumes up to it; with none, it reaches the end of input and answers yes |
| Connection.GetYesNo | cdk/go-cdk-go-managed-apprunner.go:296-318 | the re-prompting loop returns the answer and leaves the input the yes/no outcome describes |
| Connection.HandshakeStep | cdk/go-cdk-go-managed-apprunner.go:286-294 | a yes line ends the confirmation, and any other line moves on to the next |
| Connection.FirstYes | cdk/go-cdk-go-managed-apprunner.go:286-294 | the index of the first yes line: no earlier line is a yes |
| Connection.HandshakeOutcome | cdk/go-cdk-go-managed-apprunner.go:286-294 | the lines left are a suffix of the input: the handshake only consumes input |
| Connection.HandshakeEndsAtFirstYes | cdk/go-cdk-go-managed-apprunner.go:286-294 | the confirmation returns only after a yes: it consumes the lines up to the first yes, or all of them when there is none |
| Connection.ConfirmCompleteHandshake | cdk/go-cdk-go-managed-apprunner.go:286-294 | the loop around getYesNo leaves the input the handshake outcome describes |
| Connection.Listed | cdk/go-cdk-go-managed-apprunner.go:253-260 | the connections listed under a name are exactly those with that name |
| Connection.ConnectionClient.ListConnections | cdk/go-cdk-go-managed-apprunner.go:253-260 | the loop collects the connections under the name, in order; the call is logged and fails only when listed as failing |
| Connection.ConnectionClient.CreateConnection | cdk/go-cdk-go-managed-apprunner.go:272-280 | a new connection under the name, pending its handshake, is listed last, and its ARN is returned |
| Connection.ConnectionOutcome | cdk/go-cdk-go-managed-apprunner.go:244-284 | the lines left are a suffix of the input; the account gains at most one connection, after the existing ones; a returned ARN belongs to a connection under the requested name |
| Connection.CreateConnection | cdk/go-cdk-go-managed-apprunner.go:244-284 | the lookup, then reuse or create, with handshake confirmation; the result, the account and the remaining input are the connection outcome |
| Connection.ExistingConnectionIsReused | cdk/go-cdk-go-managed-apprunner.go:262-269 | with a listed connection, the first one's ARN is returned with no create call; the user is asked only when its status is PENDING_HANDSHAKE |
| Connection.MissingConnectionIsCreated | cdk/go-cdk-go-managed-apprunner.go:271-283 | with none listed, exactly one GITHUB connection is created under the name; on success its ARN is returned after the handshake is confirmed, and on failure the input is untouched |
| Connection.CreatesOnlyWhenNoneListed | cdk/go-cdk-go-managed-apprunner.go:244-284 | every created connection is a GITHUB one under the requested name, and only an empty lookup leads to one |

## Left out

- AWS SDK clients, configuration loading and the Lambda runtime (custom/custom.go:38-44, 277-279; cdk/go-cdk-go-managed-apprunner.go:245-251):
  - the providers are the `World` and `Account` models;
  - whether the regional configuration loads is a boolean parameter;
  - `os.Getenv("AWS_REGION")` is not modelled.
- The errgroup in the fan-out (custom/custom.go:190-210) is a sequential loop in which the first error wins. Goroutines, context cancellation of sibling updates, and interleaving are not modelled.
- The modelled provider never refuses to delete a configuration that services still use. The source does not say whether App Runner refuses; `HandlerProperties.UpdateWithoutDefaultOrphansServices` holds of the model's provider only.
- The 10-second `time.Sleep` between polls (custom/custom.go:166) is not modelled.
- The Go loop polls forever while replies stay undecided. The model's replies are a finite script, and a poll after the script is exhausted fails, so every wait terminates.
- Go's unchecked dereferences are read as present values:
  - `stacks.Stacks[0]`;
  - `*output.ExportName`;
  - `*output.OperationId`;
  - the ARN pointers of list and create results.

  DescribeStacks on an unknown stack is a provider error.
- HandleRequest's error results: an error is `Err(e)`. The empty physical id and nil data that Go returns beside it are not represented.
- HandleRequest's request type is matched only against "Create", "Update" and "Delete"; any other string is one `OtherRequest` case.
- The `cfn.Event` is reduced to its request type and resource properties.
- Property-bag values are strings, ints, nil or "other". Numbers decoded from JSON as float64 fall under "other", which the parser rejects like any non-string.
- Error messages are error values (`AssertionError`, `ConvertError`, ...); their `fmt` formatting is not modelled.
- Connection.LowerChar: lowers only A to Z, whereas Go's `strings.ToLower` lowers all of Unicode. No other character lowers to one of y, e, s, n, o, so the classification is the same.
- Connection.IsSpace: lists the characters Go's `unicode.IsSpace` accepts; invalid UTF-8 handling in `strings.TrimSpace` is not modelled, since strings are sequences of characters.
- Connection.GetYesNo:
  - the prompts written to standard error and standard output are not modelled;
  - the fresh `bufio.Reader` each call creates is modelled as one shared line reader, so input it buffers but does not consume is not modelled;
  - the read error is ignored, as in the code, and end of input reads as "".
- The CDK construct tree in `NewAppRunnerStack` is not modelled: roles, VPC connectors, services, health checks and the custom resource's Lambda. The same goes for `main` and `env`.
- Stack: the stack name is a parameter, so the model covers every stack name and not only the "AppRunnerGoStack" the app uses (cdk/go-cdk-go-managed-apprunner.go:337). The two service ARNs are parameters because they are CloudFormation tokens resolved at deploy time.
- CloudApi.UpdateServiceStep: the modelled provider attaches the service to the new configuration as soon as UpdateService is accepted, whatever the operation later reports. After a failed wait the model therefore shows the service attached; the handler never reads attachments, so no handler property depends on this.
- cdk/input/input.go appears only as the 50/3/1 bounds. input/input.go, app/main.go, the CDK snapshot tests and the older root-level stack files are not part of this model.

## Findings

| source | as written | input that shows it | evidently intended | confidence | as-written member | corrected member |
|---|---|---|---|---|---|---|
| custom/custom.go:231-234 | the "AutoScalingConfigurationName Assertion Error" message formats `resourceProperties["AutoScaling"]`, a key that never exists | a bag whose AutoScalingConfigurationName is the int 7: the message shows nil instead of 7 | show `resourceProperties["AutoScalingConfigurationName"]`, as the other four fields' messages show their own key | high (not executed) | HandlerProperties.AsWrittenNameErrorShowsWrongKey | Custom.ConvertInputParameters |
| custom/custom.go:240-261 | the three "Convert Error" messages format the int that `strconv.Atoi` returned alongside its error (0, or a clamped bound on overflow) instead of the rejected text | MaxConcurrency "fifty": the message shows 0 instead of "fifty" | show the input string (`maxConcurrencyInput`, `maxSizeInput`, `minSizeInput`) | high (not executed) | HandlerProperties.AsWrittenConvertErrorShowsAtoiResult | Custom.ConvertInputParameters |

The handler model (`Custom.HandleRequest`, `Custom.RequestOutcome`) parses with `Custom.ConvertInputParametersAsWritten`, as the code does, so its errors are the ones shown above. `Custom.ConvertInputParameters` is the evidently intended parser. `Custom.AsWrittenDiffersOnlyInShownValue` proves the two differ only in the value an error shows, so every result about accepted bags holds for both.
