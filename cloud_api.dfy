/**
 * The provider the handler reconciles against: App Runner auto scaling
 * configurations and services, and CloudFormation stack outputs.  `World` is
 * the provider's state as a value and each `...Step` function is one SDK
 * call on it; `Provider` is the same state as an object whose methods are
 * those calls.  Every call is appended to the log and fails when it is listed
 * in `failing`.  A call also fails when it names a stack, service or ARN the
 * model does not know, or when the scripted operation replies are
 * exhausted; this is the model's choice, not a statement about how the real
 * services answer.
 */
module CloudApi {
  import opened Wrappers
  import opened Strconv
  import opened Domain

  /** An App Runner service: the configuration it is attached to and the operation id its next UpdateService returns. */
  datatype Service = Service(configArn: string, nextOperationId: string)

  /**
   * The provider's state.  `replies` scripts, per service, the replies its
   * ListOperations calls get, in order (`None`: that call fails).
   */
  datatype World = World(
    configs: seq<Config>,
    services: map<string, Service>,
    replies: map<string, seq<Option<seq<OperationSummary>>>>,
    stacks: map<string, seq<Output>>,
    failing: set<Call>,
    serial: nat,
    log: seq<Call>)

  const ArnPrefix: string := "arn:aws:apprunner:autoscalingconfiguration/"

  /** The ARN the provider gives the configuration it creates as its `k`-th. */
  function Arn(k: nat): (a: string)
    ensures a != []
  {
    ArnPrefix + NatToString(k)
  }

  lemma ArnInjective(j: nat, k: nat)
    requires Arn(j) == Arn(k)
    ensures j == k
  {
    assert Arn(j)[|ArnPrefix|..] == NatToString(j);
    assert Arn(k)[|ArnPrefix|..] == NatToString(k);
  }

  predicate ArnsDistinct(cs: seq<Config>) {
    forall i, j :: 0 <= i < |cs| && 0 <= j < |cs| && cs[i].arn == cs[j].arn ==> i == j
  }

  predicate HasArn(cs: seq<Config>, arn: string) {
    exists i :: 0 <= i < |cs| && cs[i].arn == arn
  }

  /**
   * What the provider guarantees of its own state: ARNs identify one
   * configuration, and no ARN it may still hand out is already taken.
   */
  ghost predicate WorldValid(w: World) {
    && ArnsDistinct(w.configs)
    && forall k: nat, i :: w.serial <= k && 0 <= i < |w.configs| ==> w.configs[i].arn != Arn(k)
  }

  /** The configurations with the given name, in the provider's order. */
  function Named(cs: seq<Config>, name: string): (r: seq<Config>)
    ensures forall c :: c in r <==> c in cs && c.name == name
  {
    if cs == [] then []
    else (if cs[0].name == name then [cs[0]] else []) + Named(cs[1..], name)
  }

  /** The first configuration listed under a name is the first one with that name. */
  lemma {:induction false} NamedHeadIsFirstMatch(cs: seq<Config>, name: string) returns (i: nat)
    requires Named(cs, name) != []
    ensures i < |cs| && cs[i] == Named(cs, name)[0]
    ensures forall j :: 0 <= j < i ==> cs[j].name != name
  {
    if cs[0].name == name {
      i := 0;
    } else {
      var k := NamedHeadIsFirstMatch(cs[1..], name);
      i := k + 1;
    }
  }

  /** The configurations whose ARN is not `arn`, in order. */
  function WithoutArn(cs: seq<Config>, arn: string): (r: seq<Config>)
  {
    if cs == [] then []
    else (if cs[0].arn == arn then [] else [cs[0]]) + WithoutArn(cs[1..], arn)
  }

  lemma DistinctTail(cs: seq<Config>)
    requires cs != [] && ArnsDistinct(cs)
    ensures ArnsDistinct(cs[1..])
    ensures forall j :: 0 <= j < |cs| - 1 ==> cs[1..][j].arn != cs[0].arn
  {
    forall a, b | 0 <= a < |cs| - 1 && 0 <= b < |cs| - 1 && cs[1..][a].arn == cs[1..][b].arn
      ensures a == b
    {
      assert cs[a + 1].arn == cs[b + 1].arn;
    }
    forall j | 0 <= j < |cs| - 1
      ensures cs[1..][j].arn != cs[0].arn
    {
      assert cs[1..][j] == cs[j + 1];
    }
  }

  /** With distinct ARNs, removing an ARN removes exactly the one entry that has it. */
  lemma {:induction false} WithoutArnRemovesOne(cs: seq<Config>, i: nat)
    requires ArnsDistinct(cs) && i < |cs|
    ensures WithoutArn(cs, cs[i].arn) == cs[..i] + cs[i + 1..]
  {
    if i == 0 {
      assert forall j :: 0 <= j < |cs| - 1 ==> cs[1..][j].arn != cs[0].arn by { DistinctTail(cs); }
      NoneWithArn(cs[1..], cs[0].arn);
    } else {
      var tail := cs[1..];
      assert tail[i - 1] == cs[i];
      assert ArnsDistinct(tail) by { DistinctTail(cs); }
      WithoutArnRemovesOne(tail, i - 1);
      assert WithoutArn(cs, cs[i].arn) == [cs[0]] + WithoutArn(tail, cs[i].arn) by {
        assert cs[0].arn != cs[i].arn;
      }
      assert cs[..i] == [cs[0]] + tail[..i - 1];
      assert cs[i + 1..] == tail[i..];
    }
  }

  lemma {:induction false} NoneWithArn(cs: seq<Config>, arn: string)
    requires forall j :: 0 <= j < |cs| ==> cs[j].arn != arn
    ensures WithoutArn(cs, arn) == cs
  {
    if cs != [] {
      NoneWithArn(cs[1..], arn);
    }
  }

  function RepliesLeft(w: World, serviceArn: string): nat {
    if serviceArn in w.replies then |w.replies[serviceArn]| else 0
  }

  /** The provider's state apart from the log and the ListOperations replies still scripted. */
  predicate SameResources(w: World, w': World) {
    && w'.configs == w.configs
    && w'.services == w.services
    && w'.stacks == w.stacks
    && w'.failing == w.failing
    && w'.serial == w.serial
  }

  /** `w'` extends `w`'s log. */
  predicate Extends(w: World, w': World) {
    |w.log| <= |w'.log| && w'.log[..|w.log|] == w.log
  }

  lemma ExtendsTransitive(w1: World, w2: World, w3: World)
    requires Extends(w1, w2) && Extends(w2, w3)
    ensures Extends(w1, w3)
  {
    assert w3.log[..|w1.log|] == w3.log[..|w2.log|][..|w1.log|];
  }

  function Record(w: World, c: Call): World {
    w.(log := w.log + [c])
  }

  /** ListAutoScalingConfigurations filtered by name. */
  function ListConfigurationsStep(w: World, name: string): (res: (Result<seq<Config>, Error>, World))
    ensures Extends(w, res.1)
    ensures res.1 == Record(w, ListConfigsCall(name))
    ensures res.0.Ok? <==> ListConfigsCall(name) !in w.failing
    ensures res.0.Ok? ==> forall c :: c in res.0.value <==> c in w.configs && c.name == name
  {
    var c := ListConfigsCall(name);
    (if c in w.failing then Err(ProviderError(c)) else Ok(Named(w.configs, name)), Record(w, c))
  }

  /** CreateAutoScalingConfiguration: a new configuration with a fresh ARN, listed last. */
  function CreateConfigurationStep(w: World, name: string, maxConcurrency: int, maxSize: int, minSize: int)
    : (res: (Result<string, Error>, World))
    ensures Extends(w, res.1)
    ensures res.1.log == w.log + [CreateConfigCall(name, maxConcurrency, maxSize, minSize)]
    ensures res.0.Ok? <==> CreateConfigCall(name, maxConcurrency, maxSize, minSize) !in w.failing
    ensures res.0.Ok? ==> res.1.configs == w.configs + [Config(res.0.value, name, maxConcurrency, maxSize, minSize)]
    ensures res.0.Ok? ==> res.1.serial == w.serial + 1 && res.0.value == Arn(w.serial)
    ensures res.0.Err? ==> res.1 == Record(w, CreateConfigCall(name, maxConcurrency, maxSize, minSize))
    ensures res.1.services == w.services && res.1.stacks == w.stacks && res.1.failing == w.failing
  {
    var c := CreateConfigCall(name, maxConcurrency, maxSize, minSize);
    if c in w.failing then (Err(ProviderError(c)), Record(w, c))
    else
      var arn := Arn(w.serial);
      (Ok(arn), Record(w, c).(configs := w.configs + [Config(arn, name, maxConcurrency, maxSize, minSize)],
                              serial := w.serial + 1))
  }

  /** DeleteAutoScalingConfiguration: removes the configuration with that ARN; an unknown ARN is an error. */
  function DeleteConfigurationStep(w: World, arn: string): (res: (Result<(), Error>, World))
    ensures Extends(w, res.1)
    ensures res.1.log == w.log + [DeleteConfigCall(arn)]
    ensures res.0.Ok? <==> DeleteConfigCall(arn) !in w.failing && HasArn(w.configs, arn)
    ensures res.0.Ok? ==> res.1 == Record(w, DeleteConfigCall(arn)).(configs := WithoutArn(w.configs, arn))
    ensures res.0.Err? ==> res.1 == Record(w, DeleteConfigCall(arn))
  {
    var c := DeleteConfigCall(arn);
    if c in w.failing || !HasArn(w.configs, arn) then (Err(ProviderError(c)), Record(w, c))
    else (Ok(()), Record(w, c).(configs := WithoutArn(w.configs, arn)))
  }

  /** DescribeStacks: the outputs of the named stack; an unknown stack is an error. */
  function DescribeStacksStep(w: World, stackName: string): (res: (Result<seq<Output>, Error>, World))
    ensures Extends(w, res.1)
    ensures res.1 == Record(w, DescribeStacksCall(stackName))
    ensures res.0.Ok? <==> DescribeStacksCall(stackName) !in w.failing && stackName in w.stacks
    ensures res.0.Ok? ==> res.0.value == w.stacks[stackName]
  {
    var c := DescribeStacksCall(stackName);
    (if c in w.failing || stackName !in w.stacks then Err(ProviderError(c)) else Ok(w.stacks[stackName]),
     Record(w, c))
  }

  /** UpdateService: attaches the service to a configuration and returns the operation id. */
  function UpdateServiceStep(w: World, serviceArn: string, configArn: string): (res: (Result<string, Error>, World))
    ensures Extends(w, res.1)
    ensures res.1.log == w.log + [UpdateServiceCall(serviceArn, configArn)]
    ensures res.0.Ok? <==> UpdateServiceCall(serviceArn, configArn) !in w.failing && serviceArn in w.services
    ensures res.0.Ok? ==> res.0.value == w.services[serviceArn].nextOperationId
    ensures res.0.Ok? ==> res.1.services == w.services[serviceArn := w.services[serviceArn].(configArn := configArn)]
    ensures res.0.Err? ==> res.1 == Record(w, UpdateServiceCall(serviceArn, configArn))
    ensures res.1.configs == w.configs && res.1.serial == w.serial && res.1.stacks == w.stacks && res.1.failing == w.failing
  {
    var c := UpdateServiceCall(serviceArn, configArn);
    if c in w.failing || serviceArn !in w.services then (Err(ProviderError(c)), Record(w, c))
    else
      var s := w.services[serviceArn];
      (Ok(s.nextOperationId), Record(w, c).(services := w.services[serviceArn := s.(configArn := configArn)]))
  }

  /** ListOperations: the next scripted reply for the service, which it consumes. */
  function ListOperationsStep(w: World, serviceArn: string): (res: (Result<seq<OperationSummary>, Error>, World))
    ensures Extends(w, res.1)
    ensures res.1.log == w.log + [ListOperationsCall(serviceArn)]
    ensures SameResources(w, res.1)
    ensures res.0.Ok? <==>
              && ListOperationsCall(serviceArn) !in w.failing
              && serviceArn in w.services
              && RepliesLeft(w, serviceArn) > 0
              && w.replies[serviceArn][0].Some?
    ensures res.0.Ok? ==> res.0.value == w.replies[serviceArn][0].value
    ensures RepliesLeft(w, serviceArn) > 0 ==> RepliesLeft(res.1, serviceArn) == RepliesLeft(w, serviceArn) - 1
    ensures RepliesLeft(w, serviceArn) == 0 ==> res.1 == Record(w, ListOperationsCall(serviceArn))
  {
    var c := ListOperationsCall(serviceArn);
    if RepliesLeft(w, serviceArn) == 0 then (Err(ProviderError(c)), Record(w, c))
    else
      var script := w.replies[serviceArn];
      var w' := Record(w, c).(replies := w.replies[serviceArn := script[1..]]);
      if c in w.failing || serviceArn !in w.services || script[0].None? then (Err(ProviderError(c)), w')
      else (Ok(script[0].value), w')
  }

  /** Creating a configuration keeps ARNs unique and hands out an ARN no configuration had. */
  lemma CreatePreservesValid(w: World, name: string, maxConcurrency: int, maxSize: int, minSize: int)
    requires WorldValid(w)
    ensures var (r, w') := CreateConfigurationStep(w, name, maxConcurrency, maxSize, minSize);
            WorldValid(w') && (r.Ok? ==> !HasArn(w.configs, r.value))
  {
    var (r, w') := CreateConfigurationStep(w, name, maxConcurrency, maxSize, minSize);
    if r.Ok? {
      var n := |w.configs|;
      assert w'.configs[n].arn == Arn(w.serial);
      assert forall i :: 0 <= i < n ==> w.configs[i].arn != Arn(w.serial);
      forall i, j | 0 <= i < |w'.configs| && 0 <= j < |w'.configs| && w'.configs[i].arn == w'.configs[j].arn
        ensures i == j
      {
        if i < n && j < n {
          assert w.configs[i].arn == w.configs[j].arn;
        }
      }
      forall k: nat, i | w'.serial <= k && 0 <= i < |w'.configs|
        ensures w'.configs[i].arn != Arn(k)
      {
        if i < n {
          assert w'.configs[i] == w.configs[i];
        } else if Arn(w.serial) == Arn(k) {
          ArnInjective(w.serial, k);
        }
      }
    }
  }

  /** Deleting a configuration keeps the provider's state valid. */
  lemma DeletePreservesValid(w: World, arn: string)
    requires WorldValid(w)
    ensures WorldValid(DeleteConfigurationStep(w, arn).1)
  {
    var (r, w') := DeleteConfigurationStep(w, arn);
    if r.Ok? {
      var i :| 0 <= i < |w.configs| && w.configs[i].arn == arn;
      WithoutArnRemovesOne(w.configs, i);
      var cs := w.configs;
      assert w'.configs == cs[..i] + cs[i + 1..];
      forall a | 0 <= a < |w'.configs| ensures w'.configs[a] == cs[if a < i then a else a + 1] {}
    }
  }

  /**
   * The provider as an object: the state the handler's calls change in
   * place.  Each method is one SDK call and does what the matching step
   * function says.
   */
  class Provider {
    var configs: seq<Config>
    var services: map<string, Service>
    var replies: map<string, seq<Option<seq<OperationSummary>>>>
    const stacks: map<string, seq<Output>>
    const failing: set<Call>
    var serial: nat
    ghost var log: seq<Call>

    ghost function State(): World
      reads this
    {
      World(configs, services, replies, stacks, failing, serial, log)
    }

    constructor (w: World)
      ensures State() == w
    {
      configs, services, replies := w.configs, w.services, w.replies;
      stacks, failing, serial := w.stacks, w.failing, w.serial;
      log := w.log;
    }

    method ListAutoScalingConfigurations(name: string) returns (r: Result<seq<Config>, Error>)
      modifies this
      ensures (r, State()) == ListConfigurationsStep(old(State()), name)
    {
      var c := ListConfigsCall(name);
      log := log + [c];
      if c in failing {
        r := Err(ProviderError(c));
      } else {
        r := Ok(Named(configs, name));
      }
    }

    method CreateAutoScalingConfiguration(name: string, maxConcurrency: int, maxSize: int, minSize: int)
      returns (r: Result<string, Error>)
      modifies this
      ensures (r, State()) == CreateConfigurationStep(old(State()), name, maxConcurrency, maxSize, minSize)
    {
      var c := CreateConfigCall(name, maxConcurrency, maxSize, minSize);
      log := log + [c];
      if c in failing {
        r := Err(ProviderError(c));
      } else {
        var arn := Arn(serial);
        configs := configs + [Config(arn, name, maxConcurrency, maxSize, minSize)];
        serial := serial + 1;
        r := Ok(arn);
      }
    }

    method DeleteAutoScalingConfiguration(arn: string) returns (r: Result<(), Error>)
      modifies this
      ensures (r, State()) == DeleteConfigurationStep(old(State()), arn)
    {
      var c := DeleteConfigCall(arn);
      log := log + [c];
      var known := false;
      var i := 0;
      while i < |configs|
        invariant 0 <= i <= |configs|
        invariant known <==> exists j :: 0 <= j < i && configs[j].arn == arn
      {
        known := known || configs[i].arn == arn;
        i := i + 1;
      }
      if c in failing || !known {
        r := Err(ProviderError(c));
      } else {
        configs := WithoutArn(configs, arn);
        r := Ok(());
      }
    }

    method DescribeStacks(stackName: string) returns (r: Result<seq<Output>, Error>)
      modifies this
      ensures (r, State()) == DescribeStacksStep(old(State()), stackName)
    {
      var c := DescribeStacksCall(stackName);
      log := log + [c];
      if c in failing || stackName !in stacks {
        r := Err(ProviderError(c));
      } else {
        r := Ok(stacks[stackName]);
      }
    }

    method UpdateService(serviceArn: string, configArn: string) returns (r: Result<string, Error>)
      modifies this
      ensures (r, State()) == UpdateServiceStep(old(State()), serviceArn, configArn)
    {
      var c := UpdateServiceCall(serviceArn, configArn);
      log := log + [c];
      if c in failing || serviceArn !in services {
        r := Err(ProviderError(c));
      } else {
        var s := services[serviceArn];
        services := services[serviceArn := s.(configArn := configArn)];
        r := Ok(s.nextOperationId);
      }
    }

    method ListOperations(serviceArn: string) returns (r: Result<seq<OperationSummary>, Error>)
      modifies this
      ensures (r, State()) == ListOperationsStep(old(State()), serviceArn)
    {
      var c := ListOperationsCall(serviceArn);
      log := log + [c];
      if serviceArn !in replies || replies[serviceArn] == [] {
        r := Err(ProviderError(c));
      } else {
        var script := replies[serviceArn];
        replies := replies[serviceArn := script[1..]];
        if c in failing || serviceArn !in services || script[0].None? {
          r := Err(ProviderError(c));
        } else {
          r := Ok(script[0].value);
        }
      }
    }
  }
}
