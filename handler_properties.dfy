/**
 * What the custom-resource handler guarantees, stated over the provider's
 * state and over the calls it issues: the parser's verdicts, the calls each
 * request type makes and in which order, what the detach step does to the
 * stack's services, and how the poller decides.
 */
module HandlerProperties {
  import opened Wrappers
  import opened Strconv
  import opened Domain
  import opened CloudApi
  import opened Custom

  // ---------------------------------------------------------------------------
  // Calls issued

  /** The calls issued between two states of the provider. */
  function NewCalls(w: World, w': World): seq<Call>
    requires Extends(w, w')
  {
    w'.log[|w.log|..]
  }

  lemma NewCallsSplit(w: World, w1: World, w2: World)
    requires Extends(w, w1) && Extends(w1, w2)
    ensures Extends(w, w2)
    ensures NewCalls(w, w2) == NewCalls(w, w1) + NewCalls(w1, w2)
  {
    assert w2.log[..|w.log|] == w2.log[..|w1.log|][..|w.log|];
  }

  /** A call that changes the provider's configurations or services. */
  predicate IsMutating(c: Call) {
    c.CreateConfigCall? || c.DeleteConfigCall? || c.UpdateServiceCall?
  }

  /** The mutating calls among `calls`, in order. */
  function Mutations(calls: seq<Call>): (m: seq<Call>)
    ensures forall c :: c in m <==> c in calls && IsMutating(c)
  {
    if calls == [] then []
    else (if IsMutating(calls[0]) then [calls[0]] else []) + Mutations(calls[1..])
  }

  lemma {:induction false} MutationsAppend(a: seq<Call>, b: seq<Call>)
    ensures Mutations(a + b) == Mutations(a) + Mutations(b)
  {
    if a == [] {
      assert a + b == b;
    } else {
      assert (a + b)[1..] == a[1..] + b;
      MutationsAppend(a[1..], b);
    }
  }

  /** One UpdateService call per service, in order, each to `configArn`. */
  function RetargetAll(serviceArns: seq<string>, configArn: string): (cs: seq<Call>)
    ensures |cs| == |serviceArns|
    ensures forall i :: 0 <= i < |cs| ==> cs[i] == UpdateServiceCall(serviceArns[i], configArn)
  {
    if serviceArns == [] then []
    else [UpdateServiceCall(serviceArns[0], configArn)] + RetargetAll(serviceArns[1..], configArn)
  }

  predicate IsPrefix(a: seq<Call>, b: seq<Call>) {
    |a| <= |b| && b[..|a|] == a
  }

  // ---------------------------------------------------------------------------
  // Parser (convertInputParameters)

  /** Validity of all fields is validity of each field of the fixed list. */
  lemma AllFieldsValidMeansEachField(bag: map<string, Value>)
    ensures AllFieldsValid(bag) <==> forall k :: k in Fields ==> FieldValid(bag, k)
  {
    if forall k :: k in Fields ==> FieldValid(bag, k) {
      assert Fields[0] in Fields && Fields[1] in Fields && Fields[2] in Fields;
      assert Fields[3] in Fields && Fields[4] in Fields;
    }
  }

  /** The fields are examined in order: every field before the reported one is valid. */
  lemma ParseReportsFirstInvalidField(bag: map<string, Value>, i: nat)
    requires ConvertInputParameters(bag).Err?
    requires i < |Fields| && Fields[i] == ConvertInputParameters(bag).error.field
    ensures !FieldValid(bag, Fields[i])
    ensures forall j :: 0 <= j < i ==> FieldValid(bag, Fields[j])
  {
  }

  /** The as-written name check reports the value under the key "AutoScaling", not the name's own value. */
  lemma AsWrittenNameErrorShowsWrongKey()
    ensures ConvertInputParametersAsWritten(map["AutoScalingConfigurationName" := Int(7)])
            == Err(AssertionError("AutoScalingConfigurationName", Nil))
    ensures ConvertInputParameters(map["AutoScalingConfigurationName" := Int(7)])
            == Err(AssertionError("AutoScalingConfigurationName", Int(7)))
  {
  }

  /** The as-written conversion check reports 0, the int Atoi returned, instead of the rejected text. */
  lemma AsWrittenConvertErrorShowsAtoiResult()
    ensures ConvertInputParametersAsWritten(map["AutoScalingConfigurationName" := Str("app"), "MaxConcurrency" := Str("fifty")])
            == Err(ConvertError("MaxConcurrency", Int(0)))
    ensures ConvertInputParameters(map["AutoScalingConfigurationName" := Str("app"), "MaxConcurrency" := Str("fifty")])
            == Err(ConvertError("MaxConcurrency", Str("fifty")))
  {
    assert DigitPrefixLen("fifty") == 0;
  }

  // ---------------------------------------------------------------------------
  // HandleRequest: parse, create, delete, anything else

  /**
   * A bag the parser rejects ends the request before the configuration is
   * loaded or any call is made, with the error the parser as written gives:
   * it names the first invalid field.
   */
  lemma ParseFailureMakesNoCall(w: World, requestType: string, bag: map<string, Value>, configLoaded: bool)
    requires !AllFieldsValid(bag)
    ensures RequestOutcome(w, requestType, bag, configLoaded) == (Err(ConvertInputParametersAsWritten(bag).error), w)
    ensures RequestOutcome(w, requestType, bag, configLoaded).0.error.field == FirstInvalid(bag)
  {
  }

  /** A bag the parser accepts is dispatched with the same record either parser gives. */
  lemma ParsedRequestIsDispatched(w: World, requestType: string, bag: map<string, Value>, configLoaded: bool)
    requires AllFieldsValid(bag) && configLoaded
    ensures RequestOutcome(w, requestType, bag, configLoaded)
            == Dispatch(w, KindOf(requestType), ConvertInputParameters(bag).value)
  {
    AsWrittenDiffersOnlyInShownValue(bag);
  }

  /** A request type other than "Create", "Update" and "Delete" succeeds with no data and no call. */
  lemma OtherRequestTypeChangesNothing(w: World, requestType: string, props: InputProps)
    requires requestType != "Create" && requestType != "Update" && requestType != "Delete"
    ensures Dispatch(w, KindOf(requestType), props) == (Ok((PhysicalResourceId, map[])), w)
  {
  }

  /** The create call with the parsed name and the bounds narrowed to int32. */
  function CreateCallFor(props: InputProps): Call {
    CreateConfigCall(props.autoScalingConfigurationName, ToInt32(props.maxConcurrency),
                     ToInt32(props.maxSize), ToInt32(props.minSize))
  }

  /**
   * Create issues exactly one call, the create; on success it answers the
   * fixed physical id and data holding only the new, previously unused ARN,
   * which the provider now lists last.
   */
  lemma CreateMakesOneCall(w: World, props: InputProps)
    requires WorldValid(w)
    ensures var (r, w') := Dispatch(w, CreateRequest, props);
            && NewCalls(w, w') == [CreateCallFor(props)]
            && (r.Ok? <==> CreateCallFor(props) !in w.failing)
            && (r.Ok? ==> r.value.0 == PhysicalResourceId && r.value.1.Keys == {ArnKey})
            && (r.Ok? ==> !HasArn(w.configs, r.value.1[ArnKey]))
            && (r.Ok? ==> w'.configs == w.configs + [Config(r.value.1[ArnKey], props.autoScalingConfigurationName,
                                                            ToInt32(props.maxConcurrency), ToInt32(props.maxSize),
                                                            ToInt32(props.minSize))])
            && (r.Err? ==> w'.configs == w.configs)
  {
    CreatePreservesValid(w, props.autoScalingConfigurationName, ToInt32(props.maxConcurrency),
                         ToInt32(props.maxSize), ToInt32(props.minSize));
  }

  /** Delete with no configuration under the name succeeds with no data after the lookup alone. */
  lemma DeleteWithoutMatchIsNoOp(w: World, props: InputProps)
    requires ListConfigsCall(props.autoScalingConfigurationName) !in w.failing
    requires Named(w.configs, props.autoScalingConfigurationName) == []
    ensures Dispatch(w, DeleteRequest, props)
            == (Ok((PhysicalResourceId, map[])), Record(w, ListConfigsCall(props.autoScalingConfigurationName)))
  {
  }

  /**
   * Delete with configurations under the name removes only the first of
   * them, by its ARN, and leaves every other configuration in place.
   */
  lemma DeleteRemovesOnlyFirstMatch(w: World, props: InputProps)
    requires WorldValid(w)
    requires ListConfigsCall(props.autoScalingConfigurationName) !in w.failing
    requires Named(w.configs, props.autoScalingConfigurationName) != []
    ensures var name := props.autoScalingConfigurationName;
            var first := Named(w.configs, name)[0];
            var (r, w') := Dispatch(w, DeleteRequest, props);
            && NewCalls(w, w') == [ListConfigsCall(name), DeleteConfigCall(first.arn)]
            && (r.Ok? <==> DeleteConfigCall(first.arn) !in w.failing)
            && (r.Ok? ==> r.value == (PhysicalResourceId, map[]))
            && (r.Ok? ==> exists i :: 0 <= i < |w.configs| && w.configs[i] == first
                            && (forall j :: 0 <= j < i ==> w.configs[j].name != name)
                            && w'.configs == w.configs[..i] + w.configs[i + 1..])
            && (r.Err? ==> w'.configs == w.configs)
  {
    var name := props.autoScalingConfigurationName;
    var i := NamedHeadIsFirstMatch(w.configs, name);
    WithoutArnRemovesOne(w.configs, i);
    var (r, w') := Dispatch(w, DeleteRequest, props);
    assert w'.log == w.log + [ListConfigsCall(name), DeleteConfigCall(w.configs[i].arn)];
  }

  // ---------------------------------------------------------------------------
  // waitOperation

  /** An entry that settles the awaited operation. */
  predicate Decisive(operationId: string, op: OperationSummary) {
    op.id == operationId && !InProgress(op.status)
  }

  /**
   * One reply decides exactly when it holds a settled entry for the
   * operation, and then the first such entry decides: SUCCEEDED is done,
   * any other status a failure carrying it.
   */
  lemma {:induction false} DecideMeaning(operationId: string, ops: seq<OperationSummary>)
    ensures Decide(operationId, ops) == Undecided <==> forall i :: 0 <= i < |ops| ==> !Decisive(operationId, ops[i])
    ensures Decide(operationId, ops) != Undecided ==>
              exists i :: 0 <= i < |ops| && Decisive(operationId, ops[i])
                && (forall j :: 0 <= j < i ==> !Decisive(operationId, ops[j]))
                && Decide(operationId, ops) == (if ops[i].status == Succeeded then Done else Failed(ops[i].status))
  {
    if ops != [] && !Decisive(operationId, ops[0]) {
      DecideMeaning(operationId, ops[1..]);
      if Decide(operationId, ops) != Undecided {
        var k :| 0 <= k < |ops| - 1 && Decisive(operationId, ops[1..][k])
                 && (forall j :: 0 <= j < k ==> !Decisive(operationId, ops[1..][j]))
                 && Decide(operationId, ops[1..]) == (if ops[1..][k].status == Succeeded then Done else Failed(ops[1..][k].status));
        assert Decisive(operationId, ops[k + 1]);
        forall j | 0 <= j < k + 1 ensures !Decisive(operationId, ops[j]) {
          if j > 0 { assert ops[j] == ops[1..][j - 1]; }
        }
      } else {
        forall i | 0 <= i < |ops| ensures !Decisive(operationId, ops[i]) {
          if i > 0 { assert ops[i] == ops[1..][i - 1]; }
        }
      }
    }
  }

  /** An empty operation id fails before any poll. */
  lemma WaitWithoutOperationIdPollsNothing(w: World, serviceArn: string)
    ensures WaitOutcome(w, "", serviceArn) == (Err(OperationIdEmpty), w)
  {
  }

  /**
   * One poll: a failed call or an empty list ends the wait with an error, a
   * deciding reply ends it with its verdict, and an undecided reply (the
   * id absent, or only pending entries for it) polls again.
   */
  lemma PollStep(w: World, operationId: string, serviceArn: string)
    requires operationId != ""
    ensures var (r, w1) := ListOperationsStep(w, serviceArn);
            var res := WaitOutcome(w, operationId, serviceArn);
            && (r.Err? ==> res == (Err(r.error), w1))
            && (r.Ok? && r.value == [] ==> res == (Err(OperationListEmpty), w1))
            && (r.Ok? && r.value != [] && Decide(operationId, r.value) == Done ==> res == (Ok(()), w1))
            && (r.Ok? && r.value != [] && Decide(operationId, r.value).Failed? ==>
                  res == (Err(OperationFailed(Decide(operationId, r.value).status)), w1))
            && (r.Ok? && r.value != [] && Decide(operationId, r.value) == Undecided ==>
                  res == WaitOutcome(w1, operationId, serviceArn))
  {
  }

  /** The only calls the poller makes are ListOperations calls for its service. */
  lemma {:induction false} PollOnlyLists(w: World, operationId: string, serviceArn: string)
    ensures var w' := PollOutcome(w, operationId, serviceArn).1;
            forall c :: c in NewCalls(w, w') ==> c == ListOperationsCall(serviceArn)
    decreases RepliesLeft(w, serviceArn)
  {
    var (r, w1) := ListOperationsStep(w, serviceArn);
    assert NewCalls(w, w1) == [ListOperationsCall(serviceArn)];
    if r.Ok? && |r.value| > 0 && Decide(operationId, r.value) == Undecided {
      assert PollOutcome(w, operationId, serviceArn) == PollOutcome(w1, operationId, serviceArn);
      PollOnlyLists(w1, operationId, serviceArn);
      NewCallsSplit(w, w1, PollOutcome(w1, operationId, serviceArn).1);
    }
  }

  lemma WaitMutatesNothing(w: World, operationId: string, serviceArn: string)
    ensures Mutations(NewCalls(w, WaitOutcome(w, operationId, serviceArn).1)) == []
  {
    var w' := WaitOutcome(w, operationId, serviceArn).1;
    if operationId != "" {
      assert w' == PollOutcome(w, operationId, serviceArn).1;
      PollOnlyLists(w, operationId, serviceArn);
    } else {
      assert NewCalls(w, w) == [];
    }
    NoMutationsAmong(NewCalls(w, w'));
  }

  lemma NoMutationsAmong(calls: seq<Call>)
    requires forall c :: c in calls ==> !IsMutating(c)
    ensures Mutations(calls) == []
  {
  }

  /** Three replies — PENDING, IN_PROGRESS, SUCCEEDED — end the wait successfully after exactly three polls. */
  lemma PollUntilSucceeded(w: World, s: string)
    requires s in w.services && ListOperationsCall(s) !in w.failing
    requires s in w.replies
    requires w.replies[s] == [Some([OperationSummary("op", "PENDING")]),
                          Some([OperationSummary("other", "FAILED"), OperationSummary("op", "IN_PROGRESS")]),
                          Some([OperationSummary("op", "SUCCEEDED")])]
    ensures var (r, w') := WaitOutcome(w, "op", s);
            r == Ok(()) && w'.log == w.log + [ListOperationsCall(s), ListOperationsCall(s), ListOperationsCall(s)]
  {
    var replies := w.replies[s];
    var (r1, w1) := ListOperationsStep(w, s);
    assert r1 == Ok(replies[0].value) && Decide("op", replies[0].value) == Undecided;
    assert PollOutcome(w, "op", s) == PollOutcome(w1, "op", s);
    assert w1.replies[s] == replies[1..];
    var (r2, w2) := ListOperationsStep(w1, s);
    assert r2 == Ok(replies[1].value) && Decide("op", replies[1].value) == Undecided;
    assert PollOutcome(w1, "op", s) == PollOutcome(w2, "op", s);
    assert w2.replies[s] == replies[2..];
    var (r3, w3) := ListOperationsStep(w2, s);
    assert r3 == Ok(replies[2].value) && Decide("op", replies[2].value) == Done;
    assert PollOutcome(w2, "op", s) == (Ok(()), w3);
  }

  // ---------------------------------------------------------------------------
  // Fan-out, discovery and the detach step

  /**
   * The fan-out retargets the services in order and stops at the first
   * error: its mutations are a prefix of one UpdateService per service, and
   * all of them on success.  The order is that of the sequential model of
   * the errgroup, in which the goroutines run one after another.
   */
  lemma {:induction false} FanOutRetargetsInOrder(w: World, serviceArns: seq<string>, configArn: string)
    ensures var (r, w') := FanOutOutcome(w, serviceArns, configArn);
            && IsPrefix(Mutations(NewCalls(w, w')), RetargetAll(serviceArns, configArn))
            && (r.Ok? ==> Mutations(NewCalls(w, w')) == RetargetAll(serviceArns, configArn))
    decreases |serviceArns|
  {
    if serviceArns == [] {
      assert NewCalls(w, w) == [];
    } else {
      var s0 := serviceArns[0];
      var w2 := UpdateAndWait(w, s0, configArn).1;
      TurnRetargetsOnce(w, s0, configArn);
      assert RetargetAll(serviceArns, configArn)
          == [UpdateServiceCall(s0, configArn)] + RetargetAll(serviceArns[1..], configArn);
      if Settled(w, s0, configArn) {
        FanOutAfterSettled(w, serviceArns, configArn);
        var w3 := FanOutOutcome(w2, serviceArns[1..], configArn).1;
        FanOutRetargetsInOrder(w2, serviceArns[1..], configArn);
        NewCallsSplit(w, w2, w3);
        MutationsAppend(NewCalls(w, w2), NewCalls(w2, w3));
        PrefixCons(UpdateServiceCall(s0, configArn), Mutations(NewCalls(w2, w3)), RetargetAll(serviceArns[1..], configArn));
      } else {
        FanOutFirstUnsettled(w, serviceArns, configArn);
      }
    }
  }

  lemma PrefixCons(c: Call, a: seq<Call>, b: seq<Call>)
    requires IsPrefix(a, b)
    ensures IsPrefix([c] + a, [c] + b)
  {
    assert ([c] + b)[..|[c] + a|] == [c] + b[..|a|];
  }

  /** One service's turn changes the provider by exactly one UpdateService call, whatever the wait does. */
  lemma TurnRetargetsOnce(w: World, serviceArn: string, configArn: string)
    ensures Extends(w, UpdateAndWait(w, serviceArn, configArn).1)
    ensures Mutations(NewCalls(w, UpdateAndWait(w, serviceArn, configArn).1)) == [UpdateServiceCall(serviceArn, configArn)]
  {
    var (u, w1) := UpdateServiceStep(w, serviceArn, configArn);
    assert NewCalls(w, w1) == [UpdateServiceCall(serviceArn, configArn)];
    assert Mutations([UpdateServiceCall(serviceArn, configArn)]) == [UpdateServiceCall(serviceArn, configArn)];
    if u.Ok? {
      var w2 := WaitOutcome(w1, u.value, serviceArn).1;
      WaitMutatesNothing(w1, u.value, serviceArn);
      NewCallsSplit(w, w1, w2);
      MutationsAppend(NewCalls(w, w1), NewCalls(w1, w2));
    }
  }

  /**
   * On success every listed service is attached to `configArn`; a service
   * not listed keeps its configuration, and no service appears or vanishes.
   */
  lemma {:induction false} FanOutAttachesListedServices(w: World, serviceArns: seq<string>, configArn: string)
    ensures var (r, w') := FanOutOutcome(w, serviceArns, configArn);
            && w'.services.Keys == w.services.Keys
            && (r.Ok? ==> forall s :: s in serviceArns ==> s in w'.services && w'.services[s].configArn == configArn)
            && (forall s :: s in w.services && s !in serviceArns ==> w'.services[s].configArn == w.services[s].configArn)
    decreases |serviceArns|
  {
    if serviceArns != [] {
      var s0 := serviceArns[0];
      var (u, w1) := UpdateServiceStep(w, s0, configArn);
      if u.Ok? {
        var (waited, w2) := WaitOutcome(w1, u.value, s0);
        if waited.Ok? {
          var (r, w3) := FanOutOutcome(w2, serviceArns[1..], configArn);
          assert FanOutOutcome(w, serviceArns, configArn) == (r, w3);
          FanOutAttachesListedServices(w2, serviceArns[1..], configArn);
          forall s | s in w.services && s !in serviceArns
            ensures w3.services[s].configArn == w.services[s].configArn
          {
            assert s !in serviceArns[1..];
          }
          if r.Ok? {
            forall s | s in serviceArns
              ensures s in w3.services && w3.services[s].configArn == configArn
            {
              if s !in serviceArns[1..] {
                assert s == s0;
              }
            }
          }
        }
      }
    }
  }

  /** The service's update was accepted and the wait for the operation it started ended in success. */
  predicate Settled(w: World, serviceArn: string, configArn: string) {
    var (u, w1) := UpdateServiceStep(w, serviceArn, configArn);
    u.Ok? && WaitOutcome(w1, u.value, serviceArn).0.Ok?
  }

  /** Service `j` settles in the state the fan-out over the services before it left. */
  predicate SettledAt(w: World, serviceArns: seq<string>, configArn: string, j: nat)
    requires j < |serviceArns|
  {
    Settled(FanOutOutcome(w, serviceArns[..j], configArn).1, serviceArns[j], configArn)
  }

  /** A turn settles exactly when its update and its wait both succeed. */
  lemma SettledMeansTurnSucceeds(w: World, serviceArn: string, configArn: string)
    ensures Settled(w, serviceArn, configArn) <==> UpdateAndWait(w, serviceArn, configArn).0.Ok?
  {
  }

  /** After a first service that settles, the fan-out goes on with the rest from the state that turn left. */
  lemma FanOutAfterSettled(w: World, serviceArns: seq<string>, configArn: string)
    requires serviceArns != [] && Settled(w, serviceArns[0], configArn)
    ensures FanOutOutcome(w, serviceArns, configArn)
            == FanOutOutcome(UpdateAndWait(w, serviceArns[0], configArn).1, serviceArns[1..], configArn)
  {
  }

  /** A first service whose turn does not settle ends the fan-out with that turn's error and state. */
  lemma FanOutFirstUnsettled(w: World, serviceArns: seq<string>, configArn: string)
    requires serviceArns != [] && !Settled(w, serviceArns[0], configArn)
    ensures FanOutOutcome(w, serviceArns, configArn) == UpdateAndWait(w, serviceArns[0], configArn)
    ensures FanOutOutcome(w, serviceArns, configArn).0.Err?
  {
  }

  /**
   * The fan-out over `a + b` is the fan-out over `a`, then, if that
   * succeeded, the fan-out over `b` from the state it left.
   */
  lemma {:induction false} FanOutAppend(w: World, a: seq<string>, b: seq<string>, configArn: string)
    ensures var (r, w1) := FanOutOutcome(w, a, configArn);
            FanOutOutcome(w, a + b, configArn) == if r.Err? then (r, w1) else FanOutOutcome(w1, b, configArn)
    decreases |a|
  {
    if a == [] {
      assert a + b == b;
    } else {
      assert (a + b)[0] == a[0] && (a + b)[1..] == a[1..] + b;
      if Settled(w, a[0], configArn) {
        FanOutAfterSettled(w, a, configArn);
        FanOutAfterSettled(w, a + b, configArn);
        FanOutAppend(UpdateAndWait(w, a[0], configArn).1, a[1..], b, configArn);
      } else {
        FanOutFirstUnsettled(w, a, configArn);
        FanOutFirstUnsettled(w, a + b, configArn);
      }
    }
  }

  /** The fan-out over one service is that service's turn. */
  lemma FanOutOne(w: World, serviceArn: string, configArn: string)
    ensures FanOutOutcome(w, [serviceArn], configArn) == UpdateAndWait(w, serviceArn, configArn)
  {
    var t := UpdateAndWait(w, serviceArn, configArn);
    if Settled(w, serviceArn, configArn) {
      FanOutAfterSettled(w, [serviceArn], configArn);
      assert [serviceArn][1..] == [];
      assert FanOutOutcome(t.1, [], configArn) == (Ok(()), t.1);
      SettledMeansTurnSucceeds(w, serviceArn, configArn);
      assert t.0.Ok? && t.0.value == ();
    } else {
      FanOutFirstUnsettled(w, [serviceArn], configArn);
    }
  }

  /** One more service: the longer prefix succeeds exactly when the shorter one did and the next service settles. */
  lemma FanOutExtendPrefix(w: World, serviceArns: seq<string>, configArn: string, k: nat)
    requires k < |serviceArns|
    ensures FanOutOutcome(w, serviceArns[..k + 1], configArn).0.Ok?
            <==> FanOutOutcome(w, serviceArns[..k], configArn).0.Ok? && SettledAt(w, serviceArns, configArn, k)
  {
    var wk := FanOutOutcome(w, serviceArns[..k], configArn).1;
    assert serviceArns[..k + 1] == serviceArns[..k] + [serviceArns[k]];
    FanOutAppend(w, serviceArns[..k], [serviceArns[k]], configArn);
    FanOutOne(wk, serviceArns[k], configArn);
    SettledMeansTurnSucceeds(wk, serviceArns[k], configArn);
  }

  lemma SettledUpToStep(w: World, serviceArns: seq<string>, configArn: string, k: nat)
    requires k < |serviceArns|
    ensures (forall j :: 0 <= j < k + 1 ==> SettledAt(w, serviceArns, configArn, j))
            <==> (forall j :: 0 <= j < k ==> SettledAt(w, serviceArns, configArn, j)) && SettledAt(w, serviceArns, configArn, k)
  {
  }

  /**
   * The fan-out over the first `i` services succeeds exactly when each of
   * them, in turn, settles: its update is accepted and the wait for its
   * operation succeeds, in the state the services before it left.
   */
  lemma {:induction false} FanOutPrefixSucceedsIffEveryWaitSucceeds(w: World, serviceArns: seq<string>, configArn: string, i: nat)
    requires i <= |serviceArns|
    ensures FanOutOutcome(w, serviceArns[..i], configArn).0.Ok? <==>
              forall j :: 0 <= j < i ==> SettledAt(w, serviceArns, configArn, j)
    decreases i
  {
    if i == 0 {
      assert serviceArns[..0] == [];
    } else {
      var k := i - 1;
      FanOutPrefixSucceedsIffEveryWaitSucceeds(w, serviceArns, configArn, k);
      FanOutExtendPrefix(w, serviceArns, configArn, k);
      SettledUpToStep(w, serviceArns, configArn, k);
    }
  }

  /**
   * The fan-out succeeds exactly when, for every listed service in turn,
   * the update is accepted and the wait for its operation succeeds.
   */
  lemma FanOutSucceedsIffEveryWaitSucceeds(w: World, serviceArns: seq<string>, configArn: string)
    ensures FanOutOutcome(w, serviceArns, configArn).0.Ok? <==>
              forall i :: 0 <= i < |serviceArns| ==> SettledAt(w, serviceArns, configArn, i)
  {
    FanOutPrefixSucceedsIffEveryWaitSucceeds(w, serviceArns, configArn, |serviceArns|);
    assert serviceArns[..|serviceArns|] == serviceArns;
  }

  /**
   * The first service whose turn does not settle decides the fan-out: when
   * the services before it went through, its turn's error (a refused
   * update, or a failed wait, for instance with the status of an operation
   * that ended other than SUCCEEDED) is the fan-out's, and no later service
   * is touched.  This holds of the sequential model of the errgroup, in which
   * the goroutines run one after another.
   */
  lemma FanOutStopsAtFirstFailure(w: World, serviceArns: seq<string>, configArn: string, i: nat)
    requires i < |serviceArns|
    requires FanOutOutcome(w, serviceArns[..i], configArn).0.Ok?
    requires !Settled(FanOutOutcome(w, serviceArns[..i], configArn).1, serviceArns[i], configArn)
    ensures FanOutOutcome(w, serviceArns, configArn)
            == UpdateAndWait(FanOutOutcome(w, serviceArns[..i], configArn).1, serviceArns[i], configArn)
    ensures FanOutOutcome(w, serviceArns, configArn).0.Err?
  {
    assert serviceArns == serviceArns[..i] + serviceArns[i..];
    FanOutAppend(w, serviceArns[..i], serviceArns[i..], configArn);
    FanOutFirstUnsettled(FanOutOutcome(w, serviceArns[..i], configArn).1, serviceArns[i..], configArn);
  }

  /** Discovery over concatenated outputs concatenates the findings: the values keep their output order. */
  lemma {:induction false} ServiceArnsAppend(a: seq<Output>, b: seq<Output>, stackName: string)
    ensures ServiceArns(a + b, stackName) == ServiceArns(a, stackName) + ServiceArns(b, stackName)
    decreases |b|
  {
    if b == [] {
      assert a + b == a;
    } else {
      assert (a + b)[..|a + b| - 1] == a + b[..|b| - 1];
      ServiceArnsAppend(a, b[..|b| - 1], stackName);
    }
  }

  /** A value is discovered exactly when some output carrying it has one of the two service export names. */
  lemma {:induction false} ServiceArnsAreMatchingValues(outputs: seq<Output>, stackName: string, v: string)
    ensures v in ServiceArns(outputs, stackName) <==>
              exists i :: 0 <= i < |outputs| && IsServiceExport(outputs[i].exportName, stackName) && outputs[i].outputValue == v
    decreases |outputs|
  {
    if outputs != [] {
      var init := outputs[..|outputs| - 1];
      ServiceArnsAreMatchingValues(init, stackName, v);
      if exists i :: 0 <= i < |init| && IsServiceExport(init[i].exportName, stackName) && init[i].outputValue == v {
        var i :| 0 <= i < |init| && IsServiceExport(init[i].exportName, stackName) && init[i].outputValue == v;
        assert outputs[i] == init[i];
      }
      if exists i :: 0 <= i < |outputs| && IsServiceExport(outputs[i].exportName, stackName) && outputs[i].outputValue == v {
        var i :| 0 <= i < |outputs| && IsServiceExport(outputs[i].exportName, stackName) && outputs[i].outputValue == v;
        if i < |init| {
          assert init[i] == outputs[i];
        }
      }
    }
  }

  /** The services a stack's outputs name, or none when the stack is unknown. */
  function Discovered(w: World, stackName: string): seq<string> {
    if stackName in w.stacks then ServiceArns(w.stacks[stackName], stackName) else []
  }

  /**
   * Retargeting a stack's services: with none discovered it fails with
   * "Service Arns not found" and touches nothing; otherwise it is the
   * fan-out over the discovered services.
   */
  lemma ServiceUpdateEffect(w: World, stackName: string, configArn: string)
    ensures var (r, w') := ServiceUpdateOutcome(w, stackName, configArn);
            var arns := Discovered(w, stackName);
            var m := Mutations(NewCalls(w, w'));
            && IsPrefix(m, RetargetAll(arns, configArn))
            && (r.Ok? ==> |arns| > 0 && m == RetargetAll(arns, configArn))
            && (r.Ok? ==> forall s :: s in arns ==> s in w'.services && w'.services[s].configArn == configArn)
            && (forall s :: s in w.services && s !in arns ==> s in w'.services && w'.services[s].configArn == w.services[s].configArn)
            && (DescribeStacksCall(stackName) !in w.failing && stackName in w.stacks && arns == [] ==>
                  (r, w') == (Err(ServiceArnsNotFound), Record(w, DescribeStacksCall(stackName))))
  {
    var (found, w1) := DiscoveryOutcome(w, stackName);
    if found.Ok? && |found.value| > 0 {
      var w2 := FanOutOutcome(w1, found.value, configArn).1;
      FanOutRetargetsInOrder(w1, found.value, configArn);
      FanOutAttachesListedServices(w1, found.value, configArn);
      ListThenMutations(w, w1, w2, DescribeStacksCall(stackName));
    } else {
      ListThenMutations(w, w1, w1, DescribeStacksCall(stackName));
    }
  }

  /**
   * The detach step: without a configuration named "DefaultConfiguration"
   * it touches no service (and succeeds when the lookup does); with one, it
   * only ever attaches the stack's discovered services to the first such
   * configuration, and on success has attached all of them.
   */
  lemma DetachEffect(w: World, stackName: string)
    ensures var (r, w') := DetachOutcome(w, stackName);
            var defaults := Named(w.configs, DefaultConfigurationName);
            var m := Mutations(NewCalls(w, w'));
            && (defaults == [] ==> m == [] && w'.services == w.services)
            && (defaults == [] && ListConfigsCall(DefaultConfigurationName) !in w.failing ==> r.Ok?)
            && (defaults != [] ==> IsPrefix(m, RetargetAll(Discovered(w, stackName), defaults[0].arn)))
            && (r.Ok? && defaults != [] ==>
                  && |Discovered(w, stackName)| > 0
                  && m == RetargetAll(Discovered(w, stackName), defaults[0].arn)
                  && forall s :: s in Discovered(w, stackName) ==>
                       s in w'.services && w'.services[s].configArn == defaults[0].arn)
  {
    var (d, w1) := ListConfigurationsStep(w, DefaultConfigurationName);
    assert NewCalls(w, w1) == [ListConfigsCall(DefaultConfigurationName)];
    if d.Ok? && |d.value| > 0 {
      var w2 := ServiceUpdateOutcome(w1, stackName, d.value[0].arn).1;
      ServiceUpdateEffect(w1, stackName, d.value[0].arn);
      NewCallsSplit(w, w1, w2);
      MutationsAppend(NewCalls(w, w1), NewCalls(w1, w2));
      assert Discovered(w1, stackName) == Discovered(w, stackName);
    }
  }

  // ---------------------------------------------------------------------------
  // HandleRequest: update

  /**
   * The changes an Update makes, in order: with no configuration under the
   * name, only the create; otherwise the replace step's changes (below),
   * then the create only if the replace step succeeded.
   */
  lemma UpdateOrdering(w: World, props: InputProps)
    ensures var name := props.autoScalingConfigurationName;
            var w1 := Record(w, ListConfigsCall(name));
            var (r, w') := Dispatch(w, UpdateRequest, props);
            var m := Mutations(NewCalls(w, w'));
            && (ListConfigsCall(name) in w.failing ==> m == [] && r.Err?)
            && (ListConfigsCall(name) !in w.failing && Named(w.configs, name) == [] ==> m == [CreateCallFor(props)])
            && (ListConfigsCall(name) !in w.failing && Named(w.configs, name) != [] ==>
                  var replaced := ReplaceOutcome(w1, props.stackName, Named(w.configs, name)[0].arn);
                  m == Mutations(NewCalls(w1, replaced.1)) + (if replaced.0.Ok? then [CreateCallFor(props)] else []))
  {
    var name := props.autoScalingConfigurationName;
    if ListConfigsCall(name) in w.failing {
      assert Dispatch(w, UpdateRequest, props).1 == Record(w, ListConfigsCall(name));
      assert NewCalls(w, Record(w, ListConfigsCall(name))) == [ListConfigsCall(name)];
      assert Mutations([ListConfigsCall(name)]) == [];
    } else if Named(w.configs, name) == [] {
      UpdateWithoutMatch(w, props);
    } else {
      UpdateWithMatch(w, props);
    }
  }

  lemma UpdateWithoutMatch(w: World, props: InputProps)
    requires ListConfigsCall(props.autoScalingConfigurationName) !in w.failing
    requires Named(w.configs, props.autoScalingConfigurationName) == []
    ensures Mutations(NewCalls(w, Dispatch(w, UpdateRequest, props).1)) == [CreateCallFor(props)]
  {
    var w1 := Record(w, ListConfigsCall(props.autoScalingConfigurationName));
    UpdateAfterReplace(w, w1, props);
    assert NewCalls(w, w1) == [ListConfigsCall(props.autoScalingConfigurationName)];
    assert Mutations([ListConfigsCall(props.autoScalingConfigurationName)]) == [];
  }

  lemma UpdateWithMatch(w: World, props: InputProps)
    requires ListConfigsCall(props.autoScalingConfigurationName) !in w.failing
    requires Named(w.configs, props.autoScalingConfigurationName) != []
    ensures var w1 := Record(w, ListConfigsCall(props.autoScalingConfigurationName));
            var replaced := ReplaceOutcome(w1, props.stackName, Named(w.configs, props.autoScalingConfigurationName)[0].arn);
            Mutations(NewCalls(w, Dispatch(w, UpdateRequest, props).1))
              == Mutations(NewCalls(w1, replaced.1)) + (if replaced.0.Ok? then [CreateCallFor(props)] else [])
  {
    var name := props.autoScalingConfigurationName;
    var w1 := Record(w, ListConfigsCall(name));
    var (rep, w3) := ReplaceOutcome(w1, props.stackName, Named(w.configs, name)[0].arn);
    ListThenMutations(w, w1, w3, ListConfigsCall(name));
    if rep.Ok? {
      UpdateAfterReplace(w, w3, props);
    } else {
      UpdateStopsAtFailedReplace(w, props);
    }
  }

  /** A leading lookup adds no mutation: the mutations after it are all there are. */
  lemma ListThenMutations(w: World, w1: World, w3: World, lookup: Call)
    requires w1 == Record(w, lookup) && !IsMutating(lookup)
    requires Extends(w1, w3)
    ensures Extends(w, w3)
    ensures Mutations(NewCalls(w, w3)) == Mutations(NewCalls(w1, w3))
  {
    ExtendsTransitive(w, w1, w3);
    assert NewCalls(w, w1) == [lookup];
    assert Mutations([lookup]) == [];
    NewCallsSplit(w, w1, w3);
    MutationsAppend(NewCalls(w, w1), NewCalls(w1, w3));
  }

  /** An Update whose replace step fails ends right there. */
  lemma UpdateStopsAtFailedReplace(w: World, props: InputProps)
    requires ListConfigsCall(props.autoScalingConfigurationName) !in w.failing
    requires Named(w.configs, props.autoScalingConfigurationName) != []
    requires var w1 := Record(w, ListConfigsCall(props.autoScalingConfigurationName));
             ReplaceOutcome(w1, props.stackName, Named(w.configs, props.autoScalingConfigurationName)[0].arn).0.Err?
    ensures var w1 := Record(w, ListConfigsCall(props.autoScalingConfigurationName));
            Dispatch(w, UpdateRequest, props).1
              == ReplaceOutcome(w1, props.stackName, Named(w.configs, props.autoScalingConfigurationName)[0].arn).1
  {
  }

  /**
   * An Update whose detach step fails returns that error, and neither
   * deletes the old configuration nor creates the new one: the only
   * changes it made are the detach step's service updates.
   */
  lemma FailedDetachAbortsUpdate(w: World, props: InputProps)
    requires ListConfigsCall(props.autoScalingConfigurationName) !in w.failing
    requires Named(w.configs, props.autoScalingConfigurationName) != []
    requires DetachOutcome(Record(w, ListConfigsCall(props.autoScalingConfigurationName)), props.stackName).0.Err?
    ensures var w1 := Record(w, ListConfigsCall(props.autoScalingConfigurationName));
            var (r, w') := Dispatch(w, UpdateRequest, props);
            && r == Err(DetachOutcome(w1, props.stackName).0.error)
            && forall c :: c in Mutations(NewCalls(w, w')) ==> c.UpdateServiceCall?
  {
    var w1 := Record(w, ListConfigsCall(props.autoScalingConfigurationName));
    var (d, w2) := DetachOutcome(w1, props.stackName);
    assert Dispatch(w, UpdateRequest, props) == (Err(d.error), w2);
    ListThenMutations(w, w1, w2, ListConfigsCall(props.autoScalingConfigurationName));
    DetachEffect(w1, props.stackName);
    var m := Mutations(NewCalls(w1, w2));
    if Named(w1.configs, DefaultConfigurationName) != [] {
      var all := RetargetAll(Discovered(w1, props.stackName), Named(w1.configs, DefaultConfigurationName)[0].arn);
      forall c | c in m ensures c.UpdateServiceCall? {
        var k :| 0 <= k < |m| && m[k] == c;
        assert c == all[k];
      }
    }
  }

  /**
   * When the operation of one of the stack's services, the earlier ones
   * having settled, ends in a status other than SUCCEEDED, an Update
   * returns that status as its error, deletes nothing and creates nothing.
   */
  lemma FailedOperationAbortsUpdate(w: World, props: InputProps, i: nat, status: string)
    requires var name := props.autoScalingConfigurationName;
             && ListConfigsCall(name) !in w.failing && Named(w.configs, name) != []
             && ListConfigsCall(DefaultConfigurationName) !in w.failing && Named(w.configs, DefaultConfigurationName) != []
             && DescribeStacksCall(props.stackName) !in w.failing && props.stackName in w.stacks
    requires var name := props.autoScalingConfigurationName;
             var target := Named(w.configs, DefaultConfigurationName)[0].arn;
             var arns := Discovered(w, props.stackName);
             var w3 := Record(Record(Record(w, ListConfigsCall(name)), ListConfigsCall(DefaultConfigurationName)),
                              DescribeStacksCall(props.stackName));
             && i < |arns|
             && FanOutOutcome(w3, arns[..i], target).0.Ok?
             && var (u, w4) := UpdateServiceStep(FanOutOutcome(w3, arns[..i], target).1, arns[i], target);
                u.Ok? && WaitOutcome(w4, u.value, arns[i]).0 == Err(OperationFailed(status))
    ensures var (r, w') := Dispatch(w, UpdateRequest, props);
            && r == Err(OperationFailed(status))
            && forall c :: c in Mutations(NewCalls(w, w')) ==> !c.DeleteConfigCall? && !c.CreateConfigCall?
  {
    var name := props.autoScalingConfigurationName;
    var target := Named(w.configs, DefaultConfigurationName)[0].arn;
    var arns := Discovered(w, props.stackName);
    var w1 := Record(w, ListConfigsCall(name));
    var w2 := Record(w1, ListConfigsCall(DefaultConfigurationName));
    var w3 := Record(w2, DescribeStacksCall(props.stackName));
    FanOutStopsAtFirstFailure(w3, arns, target, i);
    assert ServiceUpdateOutcome(w2, props.stackName, target) == FanOutOutcome(w3, arns, target);
    assert DetachOutcome(w1, props.stackName) == ServiceUpdateOutcome(w2, props.stackName, target);
    FailedDetachAbortsUpdate(w, props);
  }

  /** Once the old configuration is out of the way, Update only creates. */
  lemma UpdateAfterReplace(w: World, w3: World, props: InputProps)
    requires var name := props.autoScalingConfigurationName;
             var w1 := Record(w, ListConfigsCall(name));
             && ListConfigsCall(name) !in w.failing
             && (if Named(w.configs, name) == [] then w3 == w1
                 else ReplaceOutcome(w1, props.stackName, Named(w.configs, name)[0].arn) == (Ok(()), w3))
    ensures Extends(w, w3)
    ensures Mutations(NewCalls(w, Dispatch(w, UpdateRequest, props).1)) == Mutations(NewCalls(w, w3)) + [CreateCallFor(props)]
  {
    var w4 := CreateRequestOutcome(w3, props).1;
    ExtendsTransitive(w, Record(w, ListConfigsCall(props.autoScalingConfigurationName)), w3);
    assert Dispatch(w, UpdateRequest, props).1 == w4;
    assert NewCalls(w3, w4) == [CreateCallFor(props)];
    assert Mutations([CreateCallFor(props)]) == [CreateCallFor(props)];
    NewCallsSplit(w, w3, w4);
    MutationsAppend(NewCalls(w, w3), NewCalls(w3, w4));
  }

  /**
   * The replace step: the detach step's changes, then the delete of the old
   * configuration only if the detach step succeeded; it succeeds exactly
   * when both did.
   */
  lemma ReplaceCalls(w: World, stackName: string, oldArn: string)
    requires HasArn(w.configs, oldArn)
    ensures var (d, w2) := DetachOutcome(w, stackName);
            var (r, w') := ReplaceOutcome(w, stackName, oldArn);
            && (r.Ok? <==> d.Ok? && DeleteConfigCall(oldArn) !in w.failing)
            && (d.Err? ==> Mutations(NewCalls(w, w')) == Mutations(NewCalls(w, w2)))
            && (d.Ok? ==> Mutations(NewCalls(w, w')) == Mutations(NewCalls(w, w2)) + [DeleteConfigCall(oldArn)])
  {
    var (d, w2) := DetachOutcome(w, stackName);
    if d.Ok? {
      var w3 := DeleteConfigurationStep(w2, oldArn).1;
      assert NewCalls(w2, w3) == [DeleteConfigCall(oldArn)];
      assert Mutations([DeleteConfigCall(oldArn)]) == [DeleteConfigCall(oldArn)];
      NewCallsSplit(w, w2, w3);
      MutationsAppend(NewCalls(w, w2), NewCalls(w2, w3));
    }
  }

  /**
   * Without a configuration named "DefaultConfiguration", an Update that
   * finds the old configuration still deletes it, while the stack's
   * services stay attached to its now unknown ARN.
   */
  lemma UpdateWithoutDefaultOrphansServices(w: World, props: InputProps)
    requires WorldValid(w)
    requires var name := props.autoScalingConfigurationName;
             && Named(w.configs, name) != [] && Named(w.configs, DefaultConfigurationName) == []
             && ListConfigsCall(name) !in w.failing && ListConfigsCall(DefaultConfigurationName) !in w.failing
             && DeleteConfigCall(Named(w.configs, name)[0].arn) !in w.failing
             && CreateCallFor(props) !in w.failing
    ensures var oldArn := Named(w.configs, props.autoScalingConfigurationName)[0].arn;
            var (r, w') := Dispatch(w, UpdateRequest, props);
            && r.Ok? && HasArn(w.configs, oldArn) && !HasArn(w'.configs, oldArn)
            && w'.services == w.services
  {
    var name := props.autoScalingConfigurationName;
    var i := NamedHeadIsFirstMatch(w.configs, name);
    var oldArn := w.configs[i].arn;
    var w1 := Record(w, ListConfigsCall(name));
    var w2 := DetachOutcome(w1, props.stackName).1;
    assert w2 == Record(w1, ListConfigsCall(DefaultConfigurationName));
    var w3 := DeleteConfigurationStep(w2, oldArn).1;
    WithoutArnRemovesOne(w.configs, i);
    assert !HasArn(w3.configs, oldArn) by {
      forall k | 0 <= k < |w3.configs| ensures w3.configs[k].arn != oldArn {
        var j := if k < i then k else k + 1;
        assert w3.configs[k] == w.configs[j];
      }
    }
    var w4 := CreateRequestOutcome(w3, props).1;
    assert w4.configs == w3.configs + [Config(Arn(w.serial), name, ToInt32(props.maxConcurrency),
                                              ToInt32(props.maxSize), ToInt32(props.minSize))];
    assert Arn(w.serial) != oldArn;
    forall k | 0 <= k < |w4.configs| ensures w4.configs[k].arn != oldArn {
      if k < |w3.configs| { assert w4.configs[k] == w3.configs[k]; }
    }
  }

  /** Every request leaves the provider's configurations with distinct ARNs and unused future ARNs. */
  lemma DispatchPreservesValid(w: World, kind: RequestKind, props: InputProps)
    requires WorldValid(w)
    ensures WorldValid(Dispatch(w, kind, props).1)
  {
    var name := props.autoScalingConfigurationName;
    var w1 := Record(w, ListConfigsCall(name));
    assert WorldValid(w1);
    CreatePreservesValid(w, name, ToInt32(props.maxConcurrency), ToInt32(props.maxSize), ToInt32(props.minSize));
    if kind == UpdateRequest {
      var (ex, _) := ListConfigurationsStep(w, name);
      var w3 := w1;
      if ex.Ok? && |ex.value| > 0 {
        var (d, w2) := DetachOutcome(w1, props.stackName);
        assert WorldValid(w2);
        if d.Ok? {
          DeletePreservesValid(w2, ex.value[0].arn);
          w3 := DeleteConfigurationStep(w2, ex.value[0].arn).1;
        }
      }
      CreatePreservesValid(w3, name, ToInt32(props.maxConcurrency), ToInt32(props.maxSize), ToInt32(props.minSize));
    } else if kind == DeleteRequest {
      var (ex, _) := ListConfigurationsStep(w, name);
      if ex.Ok? && |ex.value| > 0 {
        DeletePreservesValid(w1, ex.value[0].arn);
      }
    }
  }

  lemma RequestPreservesValid(w: World, requestType: string, bag: map<string, Value>, configLoaded: bool)
    requires WorldValid(w)
    ensures WorldValid(RequestOutcome(w, requestType, bag, configLoaded).1)
  {
    if AllFieldsValid(bag) && configLoaded {
      DispatchPreservesValid(w, KindOf(requestType), ConvertInputParametersAsWritten(bag).value);
    }
  }
}
