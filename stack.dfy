/**
 * The producer side of the custom resource in
 * cdk/go-cdk-go-managed-apprunner.go: the property bag the stack hands to
 * the handler and the export names under which it publishes its two App
 * Runner services' ARNs.  The lemmas here show that the handler's parser
 * and its service discovery accept exactly what the stack emits.
 */
module Stack {
  import opened Wrappers
  import opened Strconv
  import opened Domain
  import opened CloudApi
  import opened Custom

  /** The auto scaling bounds the stack is configured with (`AutoScalingConfigurationArnProps`). */
  datatype AutoScalingProps = AutoScalingProps(maxConcurrency: int, maxSize: int, minSize: int)

  /** The bounds the stack is deployed with: 50 concurrent requests, 3 instances at most, 1 at least. */
  const DeployedAutoScalingProps: AutoScalingProps := AutoScalingProps(50, 3, 1)

  /** Go's `int` is 64 bits wide: every value the stack can hold lies in this range. */
  predicate InGoIntRange(p: AutoScalingProps) {
    && MinInt64 <= p.maxConcurrency <= MaxInt64
    && MinInt64 <= p.maxSize <= MaxInt64
    && MinInt64 <= p.minSize <= MaxInt64
  }

  /**
   * The custom resource's properties: the stack name as both the
   * configuration name and the stack name, the bounds as decimal text.
   */
  function CustomResourceProperties(stackName: string, p: AutoScalingProps): (bag: map<string, Value>)
    ensures bag.Keys == {"AutoScalingConfigurationName", "MaxConcurrency", "MaxSize", "MinSize", "StackName"}
    ensures forall k :: k in bag ==> bag[k].Str?
    ensures bag["AutoScalingConfigurationName"] == bag["StackName"]
  {
    map[
      "AutoScalingConfigurationName" := Str(stackName),
      "MaxConcurrency" := Str(Itoa(p.maxConcurrency)),
      "MaxSize" := Str(Itoa(p.maxSize)),
      "MinSize" := Str(Itoa(p.minSize)),
      "StackName" := Str(stackName)
    ]
  }

  /** The export names of the two services' ARN outputs, L2 service first. */
  function ServiceExportNames(stackName: string): (names: seq<string>)
    ensures |names| == 2 && names[0] != names[1]
    ensures forall n :: n in names ==> |stackName| < |n| && n[..|stackName|] == stackName
  {
    var l2 := stackName + "AppRunnerServiceL2ServiceArn";
    var l1 := stackName + "AppRunnerServiceL1ServiceArn";
    assert l2[|stackName| + 17] != l1[|stackName| + 17];
    [l2, l1]
  }

  /** The stack's outputs: the L2 service's ARN, then the L1 service's. */
  function StackOutputs(stackName: string, l2ServiceArn: string, l1ServiceArn: string): (outs: seq<Output>)
    ensures |outs| == 2
    ensures forall i :: 0 <= i < |outs| ==> outs[i].exportName == ServiceExportNames(stackName)[i]
    ensures outs[0].outputValue == l2ServiceArn && outs[1].outputValue == l1ServiceArn
  {
    var names := ServiceExportNames(stackName);
    [Output(names[0], l2ServiceArn), Output(names[1], l1ServiceArn)]
  }

  /** The bag holds exactly the keys the parser reads, each as a string. */
  lemma PropertiesHaveParsedKeys(stackName: string, p: AutoScalingProps)
    ensures var bag := CustomResourceProperties(stackName, p);
            && (forall k :: k in bag <==> k in Fields)
            && (forall k :: k in bag ==> bag[k].Str?)
  {
  }

  /** What the bag holds under each key the parser reads. */
  lemma PropertiesLookups(stackName: string, p: AutoScalingProps)
    ensures var bag := CustomResourceProperties(stackName, p);
            && Lookup(bag, "AutoScalingConfigurationName") == Str(stackName)
            && Lookup(bag, "MaxConcurrency") == Str(Itoa(p.maxConcurrency))
            && Lookup(bag, "MaxSize") == Str(Itoa(p.maxSize))
            && Lookup(bag, "MinSize") == Str(Itoa(p.minSize))
            && Lookup(bag, "StackName") == Str(stackName)
  {
  }

  /** A bag whose five fields are strings, with bounds Atoi reads as the given ints, parses to those values. */
  lemma ParseOfWellFormedBag(bag: map<string, Value>, name: string, p: AutoScalingProps, stackName: string)
    requires Lookup(bag, "AutoScalingConfigurationName") == Str(name)
    requires Lookup(bag, "StackName") == Str(stackName)
    requires Lookup(bag, "MaxConcurrency").Str? && Atoi(Lookup(bag, "MaxConcurrency").s) == AtoiOk(p.maxConcurrency)
    requires Lookup(bag, "MaxSize").Str? && Atoi(Lookup(bag, "MaxSize").s) == AtoiOk(p.maxSize)
    requires Lookup(bag, "MinSize").Str? && Atoi(Lookup(bag, "MinSize").s) == AtoiOk(p.minSize)
    ensures ConvertInputParameters(bag) == Ok(InputProps(name, p.maxConcurrency, p.maxSize, p.minSize, stackName))
  {
    assert AllFieldsValid(bag);
  }

  /**
   * The handler's parser accepts every bag the stack emits and recovers
   * the stack name as both names and the stack's three bounds unchanged.
   */
  lemma PropertyBagRoundTrip(stackName: string, p: AutoScalingProps)
    requires InGoIntRange(p)
    ensures ConvertInputParameters(CustomResourceProperties(stackName, p))
              == Ok(InputProps(stackName, p.maxConcurrency, p.maxSize, p.minSize, stackName))
    ensures ConvertInputParametersAsWritten(CustomResourceProperties(stackName, p))
              == Ok(InputProps(stackName, p.maxConcurrency, p.maxSize, p.minSize, stackName))
  {
    PropertiesLookups(stackName, p);
    AtoiItoaRoundTrip(p.maxConcurrency);
    AtoiItoaRoundTrip(p.maxSize);
    AtoiItoaRoundTrip(p.minSize);
    ParseOfWellFormedBag(CustomResourceProperties(stackName, p), stackName, p, stackName);
    AsWrittenDiffersOnlyInShownValue(CustomResourceProperties(stackName, p));
  }

  /** The deployed bounds, 50/3/1, reach the handler as 50/3/1. */
  lemma DeployedPropertiesRoundTrip(stackName: string)
    ensures ConvertInputParameters(CustomResourceProperties(stackName, DeployedAutoScalingProps))
              == Ok(InputProps(stackName, 50, 3, 1, stackName))
  {
    PropertyBagRoundTrip(stackName, DeployedAutoScalingProps);
  }

  /** The names service discovery accepts for a stack are exactly the ones it exports. */
  lemma ExportNamesAreServiceExports(stackName: string, exportName: string)
    ensures IsServiceExport(exportName, stackName) <==> exportName in ServiceExportNames(stackName)
  {
  }

  /**
   * Discovery on the stack's own outputs finds both services, L2 then L1.
   * That DescribeStacks lists exactly these two outputs, in the order the
   * stack declares them, is an assumption about the provider; the stack
   * declares them but does not fix the order in which they are listed.
   */
  lemma DiscoveryFindsBothServices(stackName: string, l2ServiceArn: string, l1ServiceArn: string)
    ensures ServiceArns(StackOutputs(stackName, l2ServiceArn, l1ServiceArn), stackName) == [l2ServiceArn, l1ServiceArn]
  {
    var outs := StackOutputs(stackName, l2ServiceArn, l1ServiceArn);
    assert outs[..1][..0] == [];
    assert outs[..|outs| - 1] == outs[..1];
  }

  /** A different stack name never claims this stack's exports. */
  lemma OtherStackFindsNone(stackName: string, other: string, l2ServiceArn: string, l1ServiceArn: string)
    requires other != stackName
    ensures ServiceArns(StackOutputs(stackName, l2ServiceArn, l1ServiceArn), other) == []
  {
    forall exportName | exportName in ServiceExportNames(stackName)
      ensures !IsServiceExport(exportName, other)
    {
      OtherStemOtherName(stackName, other, exportName);
    }
    var outs := StackOutputs(stackName, l2ServiceArn, l1ServiceArn);
    assert outs[..1][..0] == [];
    assert outs[..|outs| - 1] == outs[..1];
  }

  /** The two suffixes are equally long, so a stack's export names pin down its stem. */
  lemma OtherStemOtherName(stackName: string, other: string, exportName: string)
    requires other != stackName
    requires exportName in ServiceExportNames(stackName)
    ensures !IsServiceExport(exportName, other)
  {
    var ownSuffix := if exportName == stackName + L1ExportSuffix then L1ExportSuffix else L2ExportSuffix;
    assert exportName == stackName + ownSuffix;
    if exportName == other + L1ExportSuffix {
      SameLengthSuffixesSameStem(stackName, other, ownSuffix, L1ExportSuffix);
    } else if exportName == other + L2ExportSuffix {
      SameLengthSuffixesSameStem(stackName, other, ownSuffix, L2ExportSuffix);
    }
  }

  lemma SameLengthSuffixesSameStem(a: string, b: string, s: string, t: string)
    requires |s| == |t| && a + s == b + t
    ensures a == b
  {
    assert a == (a + s)[..|a|];
    assert b == (b + t)[..|b|];
  }

  /**
   * The handler, asked about a deployed stack, discovers exactly its two
   * services and issues only the DescribeStacks call.  The stack's outputs
   * as the provider lists them are assumed to be exactly `StackOutputs`, in
   * declaration order.
   */
  lemma DeployedStackDiscovery(w: World, stackName: string, l2ServiceArn: string, l1ServiceArn: string)
    requires stackName in w.stacks && w.stacks[stackName] == StackOutputs(stackName, l2ServiceArn, l1ServiceArn)
    requires DescribeStacksCall(stackName) !in w.failing
    ensures DiscoveryOutcome(w, stackName) == (Ok([l2ServiceArn, l1ServiceArn]), Record(w, DescribeStacksCall(stackName)))
  {
    DiscoveryFindsBothServices(stackName, l2ServiceArn, l1ServiceArn);
  }
}
