/**
 * The GitHub connection step of cdk/go-cdk-go-managed-apprunner.go: the
 * yes/no prompt (`getYesNo`), the loop that waits for the user to confirm
 * the handshake (`confirmCompleteHandshake`) and the lookup-or-create
 * decision of `createConnection`.  Standard input is a `Terminal` holding
 * the lines still to be read; reading past its end yields "", as
 * `ReadString` does at end of input.
 */
module Connection {
  import opened Wrappers
  import opened Strconv

  // ---------------------------------------------------------------------------
  // Classifying one answer

  /** Go's `unicode.IsSpace`. */
  predicate IsSpace(c: char) {
    || c == ' ' || c == '\t' || c == '\n' || c == '\r' || c == '\U{0B}' || c == '\U{0C}'
    || c == '\U{85}' || c == '\U{A0}' || c == '\U{1680}'
    || ('\U{2000}' <= c <= '\U{200A}')
    || c == '\U{2028}' || c == '\U{2029}' || c == '\U{202F}' || c == '\U{205F}' || c == '\U{3000}'
  }

  /** The number of white-space characters `s` starts with. */
  function LeadingSpaces(s: string): (n: nat)
    ensures n <= |s|
    ensures forall k :: 0 <= k < n ==> IsSpace(s[k])
    ensures n < |s| ==> !IsSpace(s[n])
  {
    if s == [] || !IsSpace(s[0]) then 0 else 1 + LeadingSpaces(s[1..])
  }

  /** The number of white-space characters `s` ends with. */
  function TrailingSpaces(s: string): (n: nat)
    ensures n <= |s|
    ensures forall k :: |s| - n <= k < |s| ==> IsSpace(s[k])
    ensures n < |s| ==> !IsSpace(s[|s| - n - 1])
  {
    if s == [] || !IsSpace(s[|s| - 1]) then 0 else 1 + TrailingSpaces(s[..|s| - 1])
  }

  /** `strings.TrimSpace`: `s` without its leading and trailing white space. */
  function TrimSpace(s: string): (t: string)
    ensures |t| <= |s|
    ensures t == [] || (!IsSpace(t[0]) && !IsSpace(t[|t| - 1]))
  {
    var i := LeadingSpaces(s);
    var rest := s[i..];
    rest[..|rest| - TrailingSpaces(rest)]
  }

  /** `s` is `s[i..j]` with white space, and only white space, cut off around it. */
  predicate TrimmedAt(s: string, i: nat, j: nat) {
    && i <= j <= |s|
    && (forall k :: 0 <= k < i ==> IsSpace(s[k]))
    && (forall k :: j <= k < |s| ==> IsSpace(s[k]))
    && (i < j ==> !IsSpace(s[i]) && !IsSpace(s[j - 1]))
  }

  /** TrimSpace cuts exactly the white space around the text, whichever way that is described. */
  lemma TrimSpaceIsTheTrim(s: string, i: nat, j: nat)
    requires TrimmedAt(s, i, j)
    ensures TrimSpace(s) == s[i..j]
  {
    var lead := LeadingSpaces(s);
    var rest := s[lead..];
    var trail := TrailingSpaces(rest);
    if i < j {
      assert lead == i;
      assert trail == |s| - j;
      assert rest[..|rest| - trail] == s[i..j];
    } else {
      assert forall k :: 0 <= k < |s| ==> IsSpace(s[k]);
      assert lead == |s|;
    }
  }

  /** Go's `strings.ToLower` on one character, for the letters A to Z. */
  function LowerChar(c: char): char {
    if 'A' <= c <= 'Z' then (c as int - 'A' as int + 'a' as int) as char else c
  }

  function ToLower(s: string): string {
    seq(|s|, i requires 0 <= i < |s| => LowerChar(s[i]))
  }

  /** What an answer means to `getYesNo`. */
  datatype Answer = Yes | No | Unrecognized

  /**
   * One line of input as `getYesNo` reads it: white space trimmed, an empty
   * answer is yes, then "y"/"yes" and "n"/"no" in any letter case.
   */
  function Classify(line: string): (a: Answer)
    ensures TrimSpace(line) == "" ==> a == Yes
    ensures a != Unrecognized ==> |TrimSpace(line)| <= 3
    ensures a == No ==> TrimSpace(line)[0] == 'n' || TrimSpace(line)[0] == 'N'
  {
    var s := TrimSpace(line);
    if s == "" then Yes
    else
      var lower := ToLower(s);
      assert lower[0] == LowerChar(s[0]);
      if lower == "y" || lower == "yes" then Yes
      else if lower == "n" || lower == "no" then No
      else Unrecognized
  }

  /** `s` spells the lower-case `word` with each letter in either case. */
  predicate SpelledAs(s: string, word: string) {
    |s| == |word| && forall k :: 0 <= k < |s| ==> s[k] == word[k] || s[k] as int == word[k] as int - 32
  }

  lemma LowerIsSpelled(s: string, word: string)
    requires forall k :: 0 <= k < |word| ==> 'a' <= word[k] <= 'z'
    ensures ToLower(s) == word <==> SpelledAs(s, word)
  {
    if ToLower(s) == word {
      forall k | 0 <= k < |s| ensures s[k] == word[k] || s[k] as int == word[k] as int - 32 {
        assert LowerChar(s[k]) == word[k];
      }
    }
    if SpelledAs(s, word) {
      assert forall k :: 0 <= k < |s| ==> LowerChar(s[k]) == word[k];
      assert ToLower(s) == word;
    }
  }

  /** A yes is an empty answer, or "y" or "yes" in any letter case, around which only white space stands. */
  lemma ClassifyYes(line: string)
    ensures var s := TrimSpace(line);
            Classify(line) == Yes <==> s == "" || SpelledAs(s, "y") || SpelledAs(s, "yes")
  {
    LowerIsSpelled(TrimSpace(line), "y");
    LowerIsSpelled(TrimSpace(line), "yes");
  }

  /** A no is "n" or "no" in any letter case, around which only white space stands. */
  lemma ClassifyNo(line: string)
    ensures var s := TrimSpace(line);
            Classify(line) == No <==> SpelledAs(s, "n") || SpelledAs(s, "no")
  {
    var s := TrimSpace(line);
    LowerIsSpelled(s, "y");
    LowerIsSpelled(s, "yes");
    LowerIsSpelled(s, "n");
    LowerIsSpelled(s, "no");
    if SpelledAs(s, "n") || SpelledAs(s, "no") {
      assert s != "" && !SpelledAs(s, "y") && !SpelledAs(s, "yes");
    }
  }

  /** A line that is only white space (the end of input included) is a yes. */
  lemma BlankIsYes(line: string)
    requires forall k :: 0 <= k < |line| ==> IsSpace(line[k])
    ensures Classify(line) == Yes
  {
    TrimSpaceIsTheTrim(line, 0, 0);
  }

  // ---------------------------------------------------------------------------
  // Reading answers

  /** What `ReadString('\n')` returns and what is left; past the end it returns "". */
  function NextLine(input: seq<string>): (string, seq<string>) {
    if input == [] then ("", []) else (input[0], input[1..])
  }

  /** `getYesNo`: the first yes or no answer, and the lines left after it. */
  function YesNoOutcome(input: seq<string>): (res: (bool, seq<string>))
    ensures |res.1| <= |input| && res.1 == input[|input| - |res.1|..]
    ensures !res.0 ==> |res.1| < |input|
    decreases |input|
  {
    var (line, rest) := NextLine(input);
    match Classify(line)
    case Yes => (true, rest)
    case No => (false, rest)
    case Unrecognized =>
      assert input != [] by { if input == [] { BlankIsYes(""); } }
      var res := YesNoOutcome(rest);
      assert rest[|rest| - |res.1|..] == input[|input| - |res.1|..];
      res
  }

  /** The index of the first yes or no line, or |input| if there is none. */
  function FirstAnswered(input: seq<string>): (i: nat)
    ensures i <= |input|
    ensures forall j :: 0 <= j < i ==> Classify(input[j]) == Unrecognized
    ensures i < |input| ==> Classify(input[i]) != Unrecognized
  {
    if input == [] || Classify(input[0]) != Unrecognized then 0
    else
      var i := FirstAnswered(input[1..]);
      assert forall j :: 1 <= j <= i ==> input[j] == input[1..][j - 1];
      1 + i
  }

  /**
   * `getYesNo` skips every unrecognised line and answers with the first
   * yes or no, consuming the lines up to it; with none, it reaches the end
   * of input and answers yes.
   */
  lemma {:induction false} YesNoAnswersFirstAnsweredLine(input: seq<string>)
    ensures var i := FirstAnswered(input);
            YesNoOutcome(input) == if i < |input| then (Classify(input[i]) == Yes, input[i + 1..]) else (true, [])
    decreases |input|
  {
    if input == [] {
      BlankIsYes("");
    } else if Classify(input[0]) == Unrecognized {
      YesNoAnswersFirstAnsweredLine(input[1..]);
      var i := FirstAnswered(input[1..]);
      if i < |input[1..]| {
        assert input[1..][i + 1..] == input[i + 2..];
      }
    }
  }

  /** `confirmCompleteHandshake`: ask until the answer is yes; the lines left after it. */
  function HandshakeOutcome(input: seq<string>): (rest: seq<string>)
    ensures |rest| <= |input| && rest == input[|input| - |rest|..]
    decreases |input|
  {
    var (ok, rest) := YesNoOutcome(input);
    if ok then rest else HandshakeOutcome(rest)
  }

  /** One line of the handshake: a yes ends it, anything else moves on to the next line. */
  lemma HandshakeStep(input: seq<string>)
    ensures HandshakeOutcome(input) ==
              if input == [] then []
              else if Classify(input[0]) == Yes then input[1..]
              else HandshakeOutcome(input[1..])
  {
    if input == [] {
      BlankIsYes("");
    }
  }

  /** The index of the first yes line, or |input| if there is none. */
  function FirstYes(input: seq<string>): (i: nat)
    ensures i <= |input|
    ensures forall j :: 0 <= j < i ==> Classify(input[j]) != Yes
    ensures i < |input| ==> Classify(input[i]) == Yes
  {
    if input == [] || Classify(input[0]) == Yes then 0 else 1 + FirstYes(input[1..])
  }

  /**
   * The handshake returns only after a yes: it consumes the lines up to
   * and including the first yes, and without one it reads to the end of
   * input, where the empty answer counts as yes.
   */
  lemma {:induction false} HandshakeEndsAtFirstYes(input: seq<string>)
    ensures var i := FirstYes(input);
            HandshakeOutcome(input) == if i < |input| then input[i + 1..] else []
    decreases |input|
  {
    HandshakeStep(input);
    if input != [] && Classify(input[0]) != Yes {
      HandshakeEndsAtFirstYes(input[1..]);
      var i := FirstYes(input[1..]);
      if i < |input[1..]| {
        assert input[1..][i + 1..] == input[i + 2..];
      }
    }
  }

  /** Standard input: the lines still to be read. */
  class Terminal {
    var input: seq<string>

    constructor (lines: seq<string>)
      ensures input == lines
    {
      input := lines;
    }

    /** `ReadString('\n')`: the next line, or "" at the end of input. */
    method ReadString() returns (line: string)
      modifies this
      ensures (line, input) == NextLine(old(input))
    {
      if input == [] {
        line := "";
      } else {
        line := input[0];
        input := input[1..];
      }
    }
  }

  /** Prompt until a yes or no is read (the prompt itself is not modelled). */
  method GetYesNo(t: Terminal) returns (ok: bool)
    modifies t
    ensures (ok, t.input) == YesNoOutcome(old(t.input))
  {
    while true
      invariant YesNoOutcome(t.input) == YesNoOutcome(old(t.input))
      decreases |t.input|
    {
      ghost var before := t.input;
      var s := t.ReadString();
      ghost var line := s;
      s := TrimSpace(s);
      if s == "" {
        return true;
      }
      s := ToLower(s);
      if s == "y" || s == "yes" {
        return true;
      }
      if s == "n" || s == "no" {
        return false;
      }
      assert Classify(line) == Unrecognized;
      assert before != [] by { if before == [] { BlankIsYes(""); } }
    }
  }

  /** Ask until the user confirms the handshake. */
  method ConfirmCompleteHandshake(t: Terminal)
    modifies t
    ensures t.input == HandshakeOutcome(old(t.input))
  {
    while true
      invariant HandshakeOutcome(t.input) == HandshakeOutcome(old(t.input))
      decreases |t.input|
    {
      var ok := GetYesNo(t);
      if ok {
        return;
      }
    }
  }

  // ---------------------------------------------------------------------------
  // Looking up or creating the connection (createConnection)

  const PendingHandshake: string := "PENDING_HANDSHAKE"
  const GitHub: string := "GITHUB"

  /** One App Runner connection. */
  datatype ConnectionSummary = ConnectionSummary(connectionName: string, connectionArn: string, status: string, providerType: string)

  datatype ConnectionCall =
    | ListConnectionsCall(connectionName: string)
    | CreateConnectionCall(connectionName: string, providerType: string)

  datatype ConnectionError =
      /** Loading the SDK configuration for the region failed. */
    | LoadConfigFailed
      /** A provider call returned an error, passed on verbatim. */
    | CallFailed(call: ConnectionCall)

  /**
   * The account's connections.  A call fails when it is in `failing`;
   * `serial` numbers the next connection created.
   */
  datatype Account = Account(connections: seq<ConnectionSummary>, failing: set<ConnectionCall>, serial: nat, log: seq<ConnectionCall>)

  /** The ARN the provider gives its `serial`-th connection. */
  function ConnectionArnFor(serial: nat): string {
    "arn:aws:apprunner:connection/" + NatToString(serial)
  }

  /** The connections under `name`, in the order they are listed. */
  function Listed(connections: seq<ConnectionSummary>, name: string): (r: seq<ConnectionSummary>)
    ensures forall c :: c in r <==> c in connections && c.connectionName == name
  {
    if connections == [] then []
    else (if connections[0].connectionName == name then [connections[0]] else []) + Listed(connections[1..], name)
  }

  function ListConnectionsStep(a: Account, name: string): (res: (Result<seq<ConnectionSummary>, ConnectionError>, Account))
    ensures res.1 == a.(log := a.log + [ListConnectionsCall(name)])
    ensures res.0.Ok? <==> ListConnectionsCall(name) !in a.failing
    ensures res.0.Ok? ==> res.0.value == Listed(a.connections, name)
  {
    var c := ListConnectionsCall(name);
    (if c in a.failing then Err(CallFailed(c)) else Ok(Listed(a.connections, name)), a.(log := a.log + [c]))
  }

  /** CreateConnection: a new connection, waiting for its handshake. */
  function CreateConnectionStep(a: Account, name: string, providerType: string): (res: (Result<string, ConnectionError>, Account))
    ensures res.1.log == a.log + [CreateConnectionCall(name, providerType)]
    ensures res.0.Ok? <==> CreateConnectionCall(name, providerType) !in a.failing
    ensures res.0.Ok? ==> res.1.connections == a.connections + [ConnectionSummary(name, res.0.value, PendingHandshake, providerType)]
    ensures res.0.Err? ==> res.1.connections == a.connections
  {
    var c := CreateConnectionCall(name, providerType);
    if c in a.failing then (Err(CallFailed(c)), a.(log := a.log + [c]))
    else
      var arn := ConnectionArnFor(a.serial);
      (Ok(arn), a.(connections := a.connections + [ConnectionSummary(name, arn, PendingHandshake, providerType)],
                   serial := a.serial + 1, log := a.log + [c]))
  }

  /**
   * `createConnection`: the first connection listed under the name, after
   * confirming its handshake if that is still pending; otherwise a new
   * GitHub connection, whose handshake is always confirmed.  The result,
   * the account afterwards, and the input lines left.
   */
  function ConnectionOutcome(a: Account, input: seq<string>, name: string, configLoaded: bool)
    : (res: (Result<string, ConnectionError>, Account, seq<string>))
    ensures |res.2| <= |input| && res.2 == input[|input| - |res.2|..]
    ensures |a.connections| <= |res.1.connections| <= |a.connections| + 1
    ensures res.1.connections[..|a.connections|] == a.connections
    ensures res.0.Ok? ==> exists k :: 0 <= k < |res.1.connections| && res.1.connections[k].connectionName == name
                                      && res.1.connections[k].connectionArn == res.0.value
  {
    if !configLoaded then (Err(LoadConfigFailed), a, input)
    else
      var (listed, a1) := ListConnectionsStep(a, name);
      if listed.Err? then (Err(listed.error), a1, input)
      else if |listed.value| > 0 then
        var first := listed.value[0];
        (Ok(first.connectionArn), a1, if first.status == PendingHandshake then HandshakeOutcome(input) else input)
      else
        var (created, a2) := CreateConnectionStep(a1, name, GitHub);
        if created.Err? then (Err(created.error), a2, input)
        else
          assert a2.connections[|a2.connections| - 1].connectionArn == created.value;
          (Ok(created.value), a2, HandshakeOutcome(input))
  }

  /** The App Runner connections client, with the calls it received. */
  class ConnectionClient {
    var connections: seq<ConnectionSummary>
    const failing: set<ConnectionCall>
    var serial: nat
    ghost var log: seq<ConnectionCall>

    ghost function State(): Account
      reads this
    {
      Account(connections, failing, serial, log)
    }

    constructor (a: Account)
      ensures State() == a
    {
      connections, failing, serial := a.connections, a.failing, a.serial;
      log := a.log;
    }

    method ListConnections(name: string) returns (r: Result<seq<ConnectionSummary>, ConnectionError>)
      modifies this
      ensures (r, State()) == ListConnectionsStep(old(State()), name)
    {
      var c := ListConnectionsCall(name);
      log := log + [c];
      if c in failing {
        r := Err(CallFailed(c));
      } else {
        var found: seq<ConnectionSummary> := [];
        var i := 0;
        while i < |connections|
          invariant 0 <= i <= |connections|
          invariant found + Listed(connections[i..], name) == Listed(connections, name)
        {
          assert connections[i..][1..] == connections[i + 1..];
          if connections[i].connectionName == name {
            found := found + [connections[i]];
          }
          i := i + 1;
        }
        assert connections[i..] == [];
        assert found + [] == found;
        r := Ok(found);
      }
    }

    method CreateConnection(name: string, providerType: string) returns (r: Result<string, ConnectionError>)
      modifies this
      ensures (r, State()) == CreateConnectionStep(old(State()), name, providerType)
    {
      var c := CreateConnectionCall(name, providerType);
      log := log + [c];
      if c in failing {
        r := Err(CallFailed(c));
      } else {
        var arn := ConnectionArnFor(serial);
        connections := connections + [ConnectionSummary(name, arn, PendingHandshake, providerType)];
        serial := serial + 1;
        r := Ok(arn);
      }
    }
  }

  method CreateConnection(client: ConnectionClient, t: Terminal, connectionName: string, configLoaded: bool)
    returns (r: Result<string, ConnectionError>)
    modifies client, t
    ensures (r, client.State(), t.input) == ConnectionOutcome(old(client.State()), old(t.input), connectionName, configLoaded)
  {
    if !configLoaded {
      return Err(LoadConfigFailed);
    }
    var listed := client.ListConnections(connectionName);
    if listed.Err? {
      return Err(listed.error);
    }
    if |listed.value| > 0 {
      if listed.value[0].status == PendingHandshake {
        ConfirmCompleteHandshake(t);
      }
      return Ok(listed.value[0].connectionArn);
    }
    var created := client.CreateConnection(connectionName, GitHub);
    if created.Err? {
      return Err(created.error);
    }
    ConfirmCompleteHandshake(t);
    return Ok(created.value);
  }

  /**
   * An existing connection is reused: its ARN is returned, nothing is
   * created, and the user is asked to confirm only when its handshake is
   * still pending.
   */
  lemma ExistingConnectionIsReused(a: Account, input: seq<string>, name: string)
    requires ListConnectionsCall(name) !in a.failing
    requires Listed(a.connections, name) != []
    ensures var first := Listed(a.connections, name)[0];
            var (r, a', rest) := ConnectionOutcome(a, input, name, true);
            && r == Ok(first.connectionArn)
            && first in a.connections && first.connectionName == name
            && a'.log == a.log + [ListConnectionsCall(name)] && a'.connections == a.connections
            && (first.status == PendingHandshake ==> rest == HandshakeOutcome(input))
            && (first.status != PendingHandshake ==> rest == input)
  {
    var first := Listed(a.connections, name)[0];
    assert first in Listed(a.connections, name);
  }

  /**
   * With no connection under the name, exactly one GitHub connection is
   * created under it; on success its ARN is returned after the handshake
   * has been confirmed.
   */
  lemma MissingConnectionIsCreated(a: Account, input: seq<string>, name: string)
    requires ListConnectionsCall(name) !in a.failing
    requires Listed(a.connections, name) == []
    ensures var (r, a', rest) := ConnectionOutcome(a, input, name, true);
            && a'.log == a.log + [ListConnectionsCall(name), CreateConnectionCall(name, GitHub)]
            && (r.Ok? <==> CreateConnectionCall(name, GitHub) !in a.failing)
            && (r.Ok? ==> && a'.connections == a.connections + [ConnectionSummary(name, r.value, PendingHandshake, GitHub)]
                          && rest == HandshakeOutcome(input))
            && (r.Err? ==> a'.connections == a.connections && rest == input)
  {
  }

  /** Every created connection is a GitHub connection named as asked, and only an empty lookup leads to one. */
  lemma CreatesOnlyWhenNoneListed(a: Account, input: seq<string>, name: string, configLoaded: bool)
    ensures var (r, a', rest) := ConnectionOutcome(a, input, name, configLoaded);
            && |a'.log| >= |a.log| && a'.log[..|a.log|] == a.log
            && (forall k :: |a.log| <= k < |a'.log| && a'.log[k].CreateConnectionCall? ==>
                  a'.log[k] == CreateConnectionCall(name, GitHub) && Listed(a.connections, name) == [])
  {
    var (r, a', rest) := ConnectionOutcome(a, input, name, configLoaded);
    assert a'.log[..|a.log|] == a.log;
  }
}
