/**
 * The custom-resource lifecycle handler of custom/custom.go.  Each operation
 * appears twice: as a function over the provider's state (`...Outcome`,
 * giving the result and the provider's next state), about which the lemmas
 * in handler_properties.dfy are proved, and as a method that issues the
 * calls on a `Provider` object in the order the handler does and is proved
 * to produce that outcome.
 */
module Custom {
  import opened Wrappers
  import opened Strconv
  import opened Domain
  import opened CloudApi

  /** The validated request (`InputProps`). */
  datatype InputProps = InputProps(
    autoScalingConfigurationName: string,
    maxConcurrency: int,
    maxSize: int,
    minSize: int,
    stackName: string)

  const PhysicalResourceId: string := "AutoScalingConfiguration"
  const ArnKey: string := "AutoScalingConfigurationArn"
  const DefaultConfigurationName: string := "DefaultConfiguration"
  const L1ExportSuffix: string := "AppRunnerServiceL1ServiceArn"
  const L2ExportSuffix: string := "AppRunnerServiceL2ServiceArn"
  const Succeeded: string := "SUCCEEDED"

  /** The property-bag keys, in the order the parser reads them. */
  const Fields: seq<string> := ["AutoScalingConfigurationName", "MaxConcurrency", "MaxSize", "MinSize", "StackName"]

  // ---------------------------------------------------------------------------
  // Input parser (convertInputParameters)

  /** A Go map lookup on the bag: a missing key reads as nil. */
  function Lookup(bag: map<string, Value>, key: string): Value {
    if key in bag then bag[key] else Nil
  }

  predicate IsNumericField(key: string) {
    key == "MaxConcurrency" || key == "MaxSize" || key == "MinSize"
  }

  /** The field is a string and, for the three bounds, one Atoi accepts. */
  predicate FieldValid(bag: map<string, Value>, key: string) {
    Lookup(bag, key).Str? && (IsNumericField(key) ==> Atoi(Lookup(bag, key).s).AtoiOk?)
  }

  /**
   * The string under `key`; a failure shows the value found under `shownKey`
   * (the key itself, except for the source's misspelt lookup).
   */
  function StringField(bag: map<string, Value>, key: string, shownKey: string): Result<string, Error> {
    match Lookup(bag, key)
    case Str(s) => Ok(s)
    case _ => Err(AssertionError(key, Lookup(bag, shownKey)))
  }

  /**
   * The int under `key`.  A conversion failure shows the rejected text, or,
   * `asWritten`, the int Atoi returned alongside its error.
   */
  function IntField(bag: map<string, Value>, key: string, asWritten: bool): Result<int, Error> {
    var s :- StringField(bag, key, key);
    match Atoi(s)
    case AtoiOk(n) => Ok(n)
    case AtoiErr(returned) => Err(ConvertError(key, if asWritten then Int(returned) else Str(s)))
  }

  /** All five fields are valid. */
  predicate AllFieldsValid(bag: map<string, Value>) {
    FieldValid(bag, "AutoScalingConfigurationName") && FieldValid(bag, "MaxConcurrency")
    && FieldValid(bag, "MaxSize") && FieldValid(bag, "MinSize") && FieldValid(bag, "StackName")
  }

  /** The first field, in parsing order, that is not valid. */
  function FirstInvalid(bag: map<string, Value>): (k: string)
    requires !AllFieldsValid(bag)
    ensures k in Fields && !FieldValid(bag, k)
  {
    if !FieldValid(bag, "AutoScalingConfigurationName") then "AutoScalingConfigurationName"
    else if !FieldValid(bag, "MaxConcurrency") then "MaxConcurrency"
    else if !FieldValid(bag, "MaxSize") then "MaxSize"
    else if !FieldValid(bag, "MinSize") then "MinSize"
    else "StackName"
  }

  /**
   * The five fields in order; the first that fails decides the error.
   * Succeeds exactly when all five are valid, and then holds their values
   * unchanged (no range or ordering check on the bounds).
   */
  function Convert(bag: map<string, Value>, asWritten: bool): (r: Result<InputProps, Error>)
    ensures r.Ok? <==> AllFieldsValid(bag)
    ensures r.Ok? ==> r.value == InputProps(
                         Lookup(bag, "AutoScalingConfigurationName").s,
                         Atoi(Lookup(bag, "MaxConcurrency").s).n,
                         Atoi(Lookup(bag, "MaxSize").s).n,
                         Atoi(Lookup(bag, "MinSize").s).n,
                         Lookup(bag, "StackName").s)
    ensures r.Err? ==> (r.error.AssertionError? || r.error.ConvertError?)
    ensures r.Err? ==> r.error.field == FirstInvalid(bag)
    ensures r.Err? ==> (r.error.AssertionError? <==> !Lookup(bag, r.error.field).Str?)
  {
    var name :- StringField(bag, "AutoScalingConfigurationName",
                            if asWritten then "AutoScaling" else "AutoScalingConfigurationName");
    var maxConcurrency :- IntField(bag, "MaxConcurrency", asWritten);
    var maxSize :- IntField(bag, "MaxSize", asWritten);
    var minSize :- IntField(bag, "MinSize", asWritten);
    var stackName :- StringField(bag, "StackName", "StackName");
    Ok(InputProps(name, maxConcurrency, maxSize, minSize, stackName))
  }

  /** convertInputParameters with every error showing the offending field's own value. */
  function ConvertInputParameters(bag: map<string, Value>): (r: Result<InputProps, Error>)
    ensures r.Ok? <==> AllFieldsValid(bag)
    ensures r.Err? ==> (r.error.AssertionError? || r.error.ConvertError?)
    ensures r.Err? ==> r.error.field == FirstInvalid(bag) && r.error.shown == Lookup(bag, r.error.field)
  {
    Convert(bag, false)
  }

  /**
   * convertInputParameters exactly as written: the same verdicts, but the
   * name's error shows the value under the key "AutoScaling", and a
   * conversion error shows the int Atoi returned (0 or a clamped bound)
   * instead of the rejected text.
   */
  function ConvertInputParametersAsWritten(bag: map<string, Value>): (r: Result<InputProps, Error>)
    ensures r.Ok? <==> AllFieldsValid(bag)
    ensures r.Err? ==> (r.error.AssertionError? || r.error.ConvertError?)
    ensures r.Err? && r.error.field == "AutoScalingConfigurationName" ==> r.error.shown == Lookup(bag, "AutoScaling")
    ensures r.Err? && r.error.ConvertError? ==> r.error.shown.Int? && r.error.shown.i in {0, MinInt64, MaxInt64}
  {
    Convert(bag, true)
  }

  /** The two parsers agree on everything except what an error shows. */
  lemma AsWrittenDiffersOnlyInShownValue(bag: map<string, Value>)
    ensures ConvertInputParametersAsWritten(bag).Ok? ==> ConvertInputParametersAsWritten(bag) == ConvertInputParameters(bag)
    ensures ConvertInputParametersAsWritten(bag).Err? ==>
              ConvertInputParametersAsWritten(bag).error.field == ConvertInputParameters(bag).error.field
  {
  }

  // ---------------------------------------------------------------------------
  // Provider-call wrappers

  /** createAutoScalingConfiguration: the bounds are narrowed to int32 for the call. */
  function CreateOutcome(w: World, props: InputProps): (res: (Result<string, Error>, World))
    ensures Extends(w, res.1)
    ensures res.1.log == w.log + [CreateConfigCall(props.autoScalingConfigurationName, ToInt32(props.maxConcurrency),
                                                   ToInt32(props.maxSize), ToInt32(props.minSize))]
    ensures res.0.Ok? ==> res.1.configs == w.configs + [Config(res.0.value, props.autoScalingConfigurationName,
                                                               ToInt32(props.maxConcurrency), ToInt32(props.maxSize),
                                                               ToInt32(props.minSize))]
    ensures res.0.Err? ==> res.1.configs == w.configs
  {
    CreateConfigurationStep(w, props.autoScalingConfigurationName, ToInt32(props.maxConcurrency),
                            ToInt32(props.maxSize), ToInt32(props.minSize))
  }

  // ---------------------------------------------------------------------------
  // Service discovery (getServiceArns)

  /** An export name that identifies one of the stack's two App Runner services. */
  predicate IsServiceExport(exportName: string, stackName: string) {
    exportName == stackName + L1ExportSuffix || exportName == stackName + L2ExportSuffix
  }

  /** The values of the outputs whose export name is one of the stack's service exports, in output order. */
  function ServiceArns(outputs: seq<Output>, stackName: string): (arns: seq<string>)
    ensures |arns| <= |outputs|
  {
    if outputs == [] then []
    else
      var last := outputs[|outputs| - 1];
      ServiceArns(outputs[..|outputs| - 1], stackName)
        + (if IsServiceExport(last.exportName, stackName) then [last.outputValue] else [])
  }

  function DiscoveryOutcome(w: World, stackName: string): (res: (Result<seq<string>, Error>, World))
    ensures res.1 == Record(w, DescribeStacksCall(stackName))
  {
    var (r, w1) := DescribeStacksStep(w, stackName);
    if r.Err? then (Err(r.error), w1) else (Ok(ServiceArns(r.value, stackName)), w1)
  }

  // ---------------------------------------------------------------------------
  // Operation poller (waitOperation)

  /** What one ListOperations reply says about the awaited operation. */
  datatype Verdict = Done | Failed(status: string) | Undecided

  predicate InProgress(status: string) {
    status == "PENDING" || status == "IN_PROGRESS"
  }

  /**
   * The first entry for the operation whose status is not PENDING or
   * IN_PROGRESS decides: SUCCEEDED is done, anything else a failure.
   */
  function Decide(operationId: string, ops: seq<OperationSummary>): (v: Verdict)
    ensures v.Failed? ==> !InProgress(v.status) && v.status != Succeeded
  {
    if ops == [] then Undecided
    else if ops[0].id == operationId && !InProgress(ops[0].status) then
      (if ops[0].status == Succeeded then Done else Failed(ops[0].status))
    else Decide(operationId, ops[1..])
  }

  /** The polling loop, one ListOperations call per round. */
  function PollOutcome(w: World, operationId: string, serviceArn: string): (res: (Result<(), Error>, World))
    ensures SameResources(w, res.1) && Extends(w, res.1)
    decreases RepliesLeft(w, serviceArn)
  {
    var (r, w1) := ListOperationsStep(w, serviceArn);
    if r.Err? then (Err(r.error), w1)
    else if |r.value| == 0 then (Err(OperationListEmpty), w1)
    else match Decide(operationId, r.value)
      case Done => (Ok(()), w1)
      case Failed(status) => (Err(OperationFailed(status)), w1)
      case Undecided =>
        var res := PollOutcome(w1, operationId, serviceArn);
        ExtendsTransitive(w, w1, res.1);
        res
  }

  function WaitOutcome(w: World, operationId: string, serviceArn: string): (res: (Result<(), Error>, World))
    ensures SameResources(w, res.1) && Extends(w, res.1)
  {
    if operationId == "" then (Err(OperationIdEmpty), w) else PollOutcome(w, operationId, serviceArn)
  }

  // ---------------------------------------------------------------------------
  // Fan-out (updateServiceForAutoScalingConfiguration) and detach step

  /** One goroutine of the fan-out: update the service, then wait for the operation the update started. */
  function UpdateAndWait(w: World, serviceArn: string, configArn: string): (res: (Result<(), Error>, World))
    ensures Extends(w, res.1)
    ensures res.1.configs == w.configs && res.1.serial == w.serial
    ensures res.1.stacks == w.stacks && res.1.failing == w.failing
  {
    var (u, w1) := UpdateServiceStep(w, serviceArn, configArn);
    if u.Err? then (Err(u.error), w1)
    else
      var res := WaitOutcome(w1, u.value, serviceArn);
      ExtendsTransitive(w, w1, res.1);
      res
  }

  /** Every service in turn: update it, then wait for its operation; the first error wins. */
  function FanOutOutcome(w: World, serviceArns: seq<string>, configArn: string): (res: (Result<(), Error>, World))
    ensures Extends(w, res.1)
    ensures res.1.configs == w.configs && res.1.serial == w.serial
    ensures res.1.stacks == w.stacks && res.1.failing == w.failing
    decreases |serviceArns|
  {
    if serviceArns == [] then (Ok(()), w)
    else
      var (done, w2) := UpdateAndWait(w, serviceArns[0], configArn);
      if done.Err? then (done, w2)
      else
        var res := FanOutOutcome(w2, serviceArns[1..], configArn);
        ExtendsTransitive(w, w2, res.1);
        res
  }

  function ServiceUpdateOutcome(w: World, stackName: string, configArn: string): (res: (Result<(), Error>, World))
    ensures Extends(w, res.1)
    ensures res.1.configs == w.configs && res.1.serial == w.serial
    ensures res.1.stacks == w.stacks && res.1.failing == w.failing
  {
    var (found, w1) := DiscoveryOutcome(w, stackName);
    if found.Err? then (Err(found.error), w1)
    else if |found.value| == 0 then (Err(ServiceArnsNotFound), w1)
    else
      var res := FanOutOutcome(w1, found.value, configArn);
      ExtendsTransitive(w, w1, res.1);
      res
  }

  /** changeAutoScalingConfigurationToDefault */
  function DetachOutcome(w: World, stackName: string): (res: (Result<(), Error>, World))
    ensures Extends(w, res.1)
    ensures res.1.configs == w.configs && res.1.serial == w.serial
    ensures res.1.stacks == w.stacks && res.1.failing == w.failing
  {
    var (defaults, w1) := ListConfigurationsStep(w, DefaultConfigurationName);
    if defaults.Err? then (Err(defaults.error), w1)
    else if |defaults.value| == 0 then (Ok(()), w1)
    else
      var res := ServiceUpdateOutcome(w1, stackName, defaults.value[0].arn);
      ExtendsTransitive(w, w1, res.1);
      res
  }

  // ---------------------------------------------------------------------------
  // Lifecycle dispatcher (HandleRequest)

  type Response = (string, map<string, string>)

  function CreateRequestOutcome(w: World, props: InputProps): (res: (Result<Response, Error>, World))
    ensures Extends(w, res.1)
    ensures res.1.services == w.services
  {
    var (created, w1) := CreateOutcome(w, props);
    if created.Err? then (Err(created.error), w1)
    else (Ok((PhysicalResourceId, map[ArnKey := created.value])), w1)
  }

  function UpdateRequestOutcome(w: World, props: InputProps): (res: (Result<Response, Error>, World))
    ensures Extends(w, res.1)
  {
    var (existing, w1) := ListConfigurationsStep(w, props.autoScalingConfigurationName);
    if existing.Err? then (Err(existing.error), w1)
    else
      var (replaced, w2) :=
        if |existing.value| == 0 then (Ok(()), w1) else ReplaceOutcome(w1, props.stackName, existing.value[0].arn);
      ExtendsTransitive(w, w1, w2);
      if replaced.Err? then (Err(replaced.error), w2)
      else
        var res := CreateRequestOutcome(w2, props);
        ExtendsTransitive(w, w2, res.1);
        res
  }

  /** Detach the stack's services, then delete the old configuration. */
  function ReplaceOutcome(w: World, stackName: string, oldArn: string): (res: (Result<(), Error>, World))
    ensures Extends(w, res.1)
    ensures res.1.serial == w.serial && res.1.failing == w.failing
  {
    var (detached, w1) := DetachOutcome(w, stackName);
    if detached.Err? then (detached, w1)
    else
      var res := DeleteConfigurationStep(w1, oldArn);
      ExtendsTransitive(w, w1, res.1);
      res
  }

  function DeleteRequestOutcome(w: World, props: InputProps): (res: (Result<Response, Error>, World))
    ensures Extends(w, res.1)
    ensures res.1.services == w.services
  {
    var (existing, w1) := ListConfigurationsStep(w, props.autoScalingConfigurationName);
    if existing.Err? then (Err(existing.error), w1)
    else if |existing.value| == 0 then (Ok((PhysicalResourceId, map[])), w1)
    else
      var (deleted, w2) := DeleteConfigurationStep(w1, existing.value[0].arn);
      ExtendsTransitive(w, w1, w2);
      if deleted.Err? then (Err(deleted.error), w2) else (Ok((PhysicalResourceId, map[])), w2)
  }

  /** The request types the handler tells apart; any other string is `OtherRequest`. */
  datatype RequestKind = CreateRequest | UpdateRequest | DeleteRequest | OtherRequest

  function KindOf(requestType: string): (k: RequestKind)
    ensures k == CreateRequest <==> requestType == "Create"
    ensures k == UpdateRequest <==> requestType == "Update"
    ensures k == DeleteRequest <==> requestType == "Delete"
  {
    if requestType == "Create" then CreateRequest
    else if requestType == "Update" then UpdateRequest
    else if requestType == "Delete" then DeleteRequest
    else OtherRequest
  }

  /** The work HandleRequest does for a parsed request, by request type. */
  function Dispatch(w: World, kind: RequestKind, props: InputProps): (res: (Result<Response, Error>, World))
    ensures Extends(w, res.1)
  {
    match kind
    case CreateRequest => CreateRequestOutcome(w, props)
    case UpdateRequest => UpdateRequestOutcome(w, props)
    case DeleteRequest => DeleteRequestOutcome(w, props)
    case OtherRequest => (Ok((PhysicalResourceId, map[])), w)
  }

  /**
   * One invocation.  `configLoaded` is whether the SDK configuration for the
   * region could be loaded.  An error carries no physical id and no data; a
   * rejected bag is reported as the parser as written reports it.
   */
  function RequestOutcome(w: World, requestType: string, bag: map<string, Value>, configLoaded: bool)
    : (res: (Result<Response, Error>, World))
    ensures Extends(w, res.1)
  {
    match ConvertInputParametersAsWritten(bag)
    case Err(e) => (Err(e), w)
    case Ok(props) =>
      if !configLoaded then (Err(ConfigLoadError), w) else Dispatch(w, KindOf(requestType), props)
  }

  // ---------------------------------------------------------------------------
  // The handler's code, on a Provider object

  method CreateAutoScalingConfiguration(p: Provider, props: InputProps) returns (r: Result<string, Error>)
    modifies p
    ensures (r, p.State()) == CreateOutcome(old(p.State()), props)
  {
    r := p.CreateAutoScalingConfiguration(props.autoScalingConfigurationName, ToInt32(props.maxConcurrency),
                                          ToInt32(props.maxSize), ToInt32(props.minSize));
  }

  method GetServiceArns(p: Provider, stackName: string) returns (r: Result<seq<string>, Error>)
    modifies p
    ensures (r, p.State()) == DiscoveryOutcome(old(p.State()), stackName)
  {
    var described := p.DescribeStacks(stackName);
    if described.Err? {
      return Err(described.error);
    }
    var outputs := described.value;
    var arns: seq<string> := [];
    var i := 0;
    while i < |outputs|
      invariant 0 <= i <= |outputs|
      invariant arns == ServiceArns(outputs[..i], stackName)
    {
      if IsServiceExport(outputs[i].exportName, stackName) {
        arns := arns + [outputs[i].outputValue];
      }
      assert outputs[..i + 1][..i] == outputs[..i];
      i := i + 1;
    }
    assert outputs[..|outputs|] == outputs;
    return Ok(arns);
  }

  method WaitOperation(p: Provider, operationId: string, serviceArn: string) returns (r: Result<(), Error>)
    modifies p
    ensures (r, p.State()) == WaitOutcome(old(p.State()), operationId, serviceArn)
  {
    if operationId == "" {
      return Err(OperationIdEmpty);
    }
    while true
      invariant PollOutcome(p.State(), operationId, serviceArn) == PollOutcome(old(p.State()), operationId, serviceArn)
      decreases RepliesLeft(p.State(), serviceArn)
    {
      var listed := p.ListOperations(serviceArn);
      if listed.Err? {
        return Err(listed.error);
      }
      if |listed.value| == 0 {
        return Err(OperationListEmpty);
      }
      match Decide(operationId, listed.value)
      case Done => return Ok(());
      case Failed(status) => return Err(OperationFailed(status));
      case Undecided =>
    }
  }

  /** The errgroup fan-out, run one service after another. */
  method UpdateServiceForAutoScalingConfiguration(p: Provider, stackName: string, configArn: string)
    returns (r: Result<(), Error>)
    modifies p
    ensures (r, p.State()) == ServiceUpdateOutcome(old(p.State()), stackName, configArn)
  {
    var found := GetServiceArns(p, stackName);
    if found.Err? {
      return Err(found.error);
    }
    var serviceArns := found.value;
    if |serviceArns| == 0 {
      return Err(ServiceArnsNotFound);
    }
    var i := 0;
    while i < |serviceArns|
      invariant 0 <= i <= |serviceArns|
      invariant FanOutOutcome(p.State(), serviceArns[i..], configArn)
             == ServiceUpdateOutcome(old(p.State()), stackName, configArn)
    {
      var updated := p.UpdateService(serviceArns[i], configArn);
      if updated.Err? {
        return Err(updated.error);
      }
      var waited := WaitOperation(p, updated.value, serviceArns[i]);
      if waited.Err? {
        return waited;
      }
      assert serviceArns[i..][1..] == serviceArns[i + 1..];
      i := i + 1;
    }
    return Ok(());
  }

  method ChangeAutoScalingConfigurationToDefault(p: Provider, stackName: string) returns (r: Result<(), Error>)
    modifies p
    ensures (r, p.State()) == DetachOutcome(old(p.State()), stackName)
  {
    var defaults := p.ListAutoScalingConfigurations(DefaultConfigurationName);
    if defaults.Err? {
      return Err(defaults.error);
    }
    if |defaults.value| == 0 {
      return Ok(());
    }
    r := UpdateServiceForAutoScalingConfiguration(p, stackName, defaults.value[0].arn);
  }

  method HandleRequest(p: Provider, requestType: string, resourceProperties: map<string, Value>, configLoaded: bool)
    returns (r: Result<Response, Error>)
    modifies p
    ensures (r, p.State()) == RequestOutcome(old(p.State()), requestType, resourceProperties, configLoaded)
  {
    var physicalResourceId := PhysicalResourceId;
    var data: map<string, string> := map[];

    var parsed := ConvertInputParametersAsWritten(resourceProperties);
    if parsed.Err? {
      return Err(parsed.error);
    }
    var inputProps := parsed.value;
    if !configLoaded {
      return Err(ConfigLoadError);
    }
    ghost var w0 := p.State();
    assert RequestOutcome(w0, requestType, resourceProperties, configLoaded)
        == Dispatch(w0, KindOf(requestType), inputProps);

    if requestType == "Create" {
      assert KindOf(requestType) == CreateRequest;
      var created := CreateAutoScalingConfiguration(p, inputProps);
      if created.Err? {
        return Err(created.error);
      }
      data := data[ArnKey := created.value];
    } else if requestType == "Update" {
      assert KindOf(requestType) == UpdateRequest;
      var existing := p.ListAutoScalingConfigurations(inputProps.autoScalingConfigurationName);
      if existing.Err? {
        return Err(existing.error);
      }
      if |existing.value| > 0 {
        var detached := ChangeAutoScalingConfigurationToDefault(p, inputProps.stackName);
        if detached.Err? {
          return Err(detached.error);
        }
        var deleted := p.DeleteAutoScalingConfiguration(existing.value[0].arn);
        if deleted.Err? {
          return Err(deleted.error);
        }
      }
      var created := CreateAutoScalingConfiguration(p, inputProps);
      if created.Err? {
        return Err(created.error);
      }
      data := data[ArnKey := created.value];
    } else if requestType == "Delete" {
      assert KindOf(requestType) == DeleteRequest;
      var existing := p.ListAutoScalingConfigurations(inputProps.autoScalingConfigurationName);
      if existing.Err? {
        return Err(existing.error);
      }
      if |existing.value| > 0 {
        var deleted := p.DeleteAutoScalingConfiguration(existing.value[0].arn);
        if deleted.Err? {
          return Err(deleted.error);
        }
      }
    }
    return Ok((physicalResourceId, data));
  }
}
