/**
 * The agent-deployment wizard: the agent configuration it edits, the
 * capability toggle, the agent-type presets, the ordered validation rules,
 * the name slug used for the contract address and NEAR wallet, and the
 * four-step state machine (basic info, agent type, location and funding,
 * deployed).
 *
 * Rendering is not modelled. Every button exists only on the step that
 * renders it, so each wizard operation requires that step.
 */
module AgentDeployment {
  import opened Wrappers
  import Js

  datatype AgentType = Basic | Weather | Crypto | Defi | Custom

  /** The id under which each type is stored and offered. */
  function TypeId(t: AgentType): string {
    match t
    case Basic => "basic"
    case Weather => "weather"
    case Crypto => "crypto"
    case Defi => "defi"
    case Custom => "custom"
  }

  datatype AgentConfig = AgentConfig(
    name: string,
    latitude: real,
    longitude: real,
    agentType: AgentType,
    capabilities: seq<string>,
    description: string,
    initialFunding: real,
    spendingLimit: real,
    isPublic: bool)

  /** The configuration the wizard opens with and returns to on reset. */
  const DefaultConfig := AgentConfig("", 40.7128, -74.0060, Basic, ["chat"], "", 1.0, 0.5, true)

  /** The ids of the capabilities the wizard offers, in display order. */
  const CapabilityIds: seq<string> :=
    ["chat", "weather", "crypto_prices", "blockchain_tx", "defi_operations", "location_services", "ai_analysis"]

  datatype Preset = Preset(kind: AgentType, capabilities: seq<string>)

  /** The agent types offered on step 2, each with its capability preset. */
  const AgentTypes: seq<Preset> := [
    Preset(Basic, ["chat", "location_services"]),
    Preset(Weather, ["chat", "weather", "location_services"]),
    Preset(Crypto, ["chat", "crypto_prices", "blockchain_tx"]),
    Preset(Defi, ["chat", "crypto_prices", "defi_operations", "blockchain_tx"])]

  predicate NoDuplicates<T(==)>(s: seq<T>) {
    forall i, j :: 0 <= i < j < |s| ==> s[i] != s[j]
  }

  /** A capability list the wizard can hold: no repeats, only offered ids. */
  predicate WellFormedCapabilities(caps: seq<string>) {
    NoDuplicates(caps) && forall c :: c in caps ==> c in CapabilityIds
  }

  /** Every preset, and the default list, is non-empty, well formed and includes chat. */
  lemma PresetsWellFormed()
    ensures forall p :: p in AgentTypes ==> WellFormedCapabilities(p.capabilities) && "chat" in p.capabilities
    ensures WellFormedCapabilities(DefaultConfig.capabilities)
    ensures forall i, j :: 0 <= i < j < |AgentTypes| ==> TypeId(AgentTypes[i].kind) != TypeId(AgentTypes[j].kind)
  {
    forall i | 0 <= i < |AgentTypes|
      ensures WellFormedCapabilities(AgentTypes[i].capabilities) && "chat" in AgentTypes[i].capabilities
    {
      PresetWellFormed(i);
    }
    DefaultCapabilitiesWellFormed();
    PresetIdsDistinct();
  }

  lemma PresetWellFormed(i: nat)
    requires i < |AgentTypes|
    ensures WellFormedCapabilities(AgentTypes[i].capabilities) && "chat" in AgentTypes[i].capabilities
  {
  }

  lemma DefaultCapabilitiesWellFormed()
    ensures WellFormedCapabilities(DefaultConfig.capabilities)
  {
  }

  lemma PresetIdsDistinct()
    ensures forall i, j :: 0 <= i < j < |AgentTypes| ==> TypeId(AgentTypes[i].kind) != TypeId(AgentTypes[j].kind)
  {
  }

  // ------------------------------------------------------- agent-type choice

  /** `agentTypes.find(t => t.id === id)`: the first preset with that id. */
  function FindPreset(presets: seq<Preset>, id: string): (r: Option<Preset>)
    ensures r.Some? ==> r.value in presets && TypeId(r.value.kind) == id
    ensures r.Some? ==> exists k :: 0 <= k < |presets| && presets[k] == r.value &&
                          forall j :: 0 <= j < k ==> TypeId(presets[j].kind) != id
    ensures r.None? <==> forall p :: p in presets ==> TypeId(p.kind) != id
    decreases |presets|
  {
    if presets == [] then None
    else if TypeId(presets[0].kind) == id then Some(presets[0])
    else FindPreset(presets[1..], id)
  }

  /**
   * `handleAgentTypeChange`: a known id sets the type and replaces the
   * capabilities with its preset; an unknown one, such as `custom`, changes nothing.
   */
  function SelectAgentType(config: AgentConfig, id: string): (r: AgentConfig)
    ensures forall i :: 0 <= i < |AgentTypes| && TypeId(AgentTypes[i].kind) == id ==>
              r == config.(agentType := AgentTypes[i].kind, capabilities := AgentTypes[i].capabilities)
    ensures (forall p :: p in AgentTypes ==> TypeId(p.kind) != id) ==> r == config
  {
    PresetsWellFormed();
    match FindPreset(AgentTypes, id)
    case None => config
    case Some(p) => config.(agentType := p.kind, capabilities := p.capabilities)
  }

  /** `custom` has no preset, so choosing it keeps the current type and capabilities. */
  lemma CustomChangesNothing(config: AgentConfig)
    ensures SelectAgentType(config, TypeId(Custom)) == config
  {
    assert forall p :: p in AgentTypes ==> TypeId(p.kind) != "custom";
  }

  // ------------------------------------------------------ capability toggle

  /** `caps.filter(x => x !== c)`. */
  function Without(caps: seq<string>, c: string): (r: seq<string>)
    ensures forall x :: x in r <==> x in caps && x != c
    ensures |r| <= |caps|
    decreases |caps|
  {
    if caps == [] then []
    else if caps[0] == c then Without(caps[1..], c)
    else [caps[0]] + Without(caps[1..], c)
  }

  /** Filtering works piecewise, so the elements that remain keep their relative order. */
  lemma {:induction false} WithoutAppend(a: seq<string>, b: seq<string>, c: string)
    ensures Without(a + b, c) == Without(a, c) + Without(b, c)
    decreases |a|
  {
    if a == [] {
      assert a + b == b;
    } else {
      assert (a + b)[1..] == a[1..] + b;
      WithoutAppend(a[1..], b, c);
    }
  }

  /** Filtering out an absent element changes nothing. */
  lemma {:induction false} WithoutAbsent(caps: seq<string>, c: string)
    requires c !in caps
    ensures Without(caps, c) == caps
    decreases |caps|
  {
    if caps != [] {
      WithoutAbsent(caps[1..], c);
    }
  }

  /** Filtering keeps a list free of repeats. */
  lemma {:induction false} WithoutNoDuplicates(caps: seq<string>, c: string)
    requires NoDuplicates(caps)
    ensures NoDuplicates(Without(caps, c))
    decreases |caps|
  {
    if caps != [] {
      WithoutNoDuplicates(caps[1..], c);
      var rest := Without(caps[1..], c);
      if caps[0] != c {
        assert caps[0] !in rest;
        assert Without(caps, c) == [caps[0]] + rest;
      }
    }
  }

  /**
   * `handleCapabilityToggle`: a present capability is removed, every
   * occurrence of it; an absent one is appended at the end.
   */
  function Toggle(caps: seq<string>, c: string): (r: seq<string>)
    ensures c in caps ==> c !in r && forall x :: x != c ==> (x in r <==> x in caps)
    ensures c !in caps ==> |r| == |caps| + 1 && r[..|caps|] == caps && r[|caps|] == c
  {
    if c in caps then Without(caps, c) else caps + [c]
  }

  /** Toggling an absent capability on and off again restores the list exactly. */
  lemma ToggleTwiceRestores(caps: seq<string>, c: string)
    requires c !in caps
    ensures Toggle(Toggle(caps, c), c) == caps
  {
    WithoutAppend(caps, [c], c);
    WithoutAbsent(caps, c);
    assert Without([c], c) == [];
  }

  /** Toggling keeps the capability list free of repeats and within the offered ids. */
  lemma ToggleKeepsWellFormed(caps: seq<string>, c: string)
    requires WellFormedCapabilities(caps) && c in CapabilityIds
    ensures WellFormedCapabilities(Toggle(caps, c))
  {
    if c in caps {
      WithoutNoDuplicates(caps, c);
    }
  }

  // -------------------------------------------------------------- strings

  /** The characters `trim()` removes and `\s` matches: ECMAScript white space and line terminators. */
  predicate IsWhitespace(ch: char) {
    ('\t' <= ch <= '\r') || ch == ' ' || ch == '\U{00A0}' || ch == '\U{1680}' ||
    ('\U{2000}' <= ch <= '\U{200A}') || ch == '\U{2028}' || ch == '\U{2029}' ||
    ch == '\U{202F}' || ch == '\U{205F}' || ch == '\U{3000}' || ch == '\U{FEFF}'
  }

  predicate Blank(s: string) {
    forall i :: 0 <= i < |s| ==> IsWhitespace(s[i])
  }

  function TrimStart(s: string): (r: string)
    ensures |r| <= |s| && r == s[|s| - |r|..]
    ensures r != [] ==> !IsWhitespace(r[0])
    ensures Blank(s[..|s| - |r|])
    decreases |s|
  {
    if s != [] && IsWhitespace(s[0]) then
      var r := TrimStart(s[1..]);
      assert s[1..][..|s| - 1 - |r|] == s[1..|s| - |r|];
      r
    else s
  }

  function TrimEnd(s: string): (r: string)
    ensures |r| <= |s| && r == s[..|r|]
    ensures r != [] ==> !IsWhitespace(r[|r| - 1])
    ensures Blank(s[|r|..])
    decreases |s|
  {
    if s != [] && IsWhitespace(s[|s| - 1]) then
      var r := TrimEnd(s[..|s| - 1]);
      assert s[|r|..] == s[..|s| - 1][|r|..] + [s[|s| - 1]];
      r
    else s
  }

  /**
   * `String.prototype.trim`: no white space is left at either end, and the
   * result is empty, so falsy, exactly when the text is blank.
   */
  function Trim(s: string): (r: string)
    ensures |r| <= |s|
    ensures r != [] ==> !IsWhitespace(r[0]) && !IsWhitespace(r[|r| - 1])
    ensures r == [] <==> Blank(s)
  {
    TrimmedEmptyIffBlank(s);
    var t := TrimStart(s);
    var r := TrimEnd(t);
    assert r != [] ==> r[0] == t[0];
    r
  }

  lemma TrimmedEmptyIffBlank(s: string)
    ensures TrimEnd(TrimStart(s)) == [] <==> Blank(s)
  {
    var t := TrimStart(s);
    if TrimEnd(t) == [] {
      assert Blank(t[0..]);
      assert s == s[..|s| - |t|] + t;
    }
  }

  /** ASCII `toLowerCase`: each capital becomes its lower-case letter, everything else stays. */
  function ToLower(s: string): (r: string)
    ensures |r| == |s|
    ensures forall i :: 0 <= i < |s| ==> r[i] == (if 'A' <= s[i] <= 'Z' then (s[i] as int + 32) as char else s[i])
    ensures forall i :: 0 <= i < |s| ==> !('A' <= r[i] <= 'Z')
    decreases |s|
  {
    if s == [] then []
    else [if 'A' <= s[0] <= 'Z' then (s[0] as int + 32) as char else s[0]] + ToLower(s[1..])
  }

  /** `replace(/\s+/g, '-')`: every maximal run of white space becomes one `-`. */
  function ReplaceWhitespaceRuns(s: string): (r: string)
    ensures forall i :: 0 <= i < |r| ==> !IsWhitespace(r[i])
    ensures |r| <= |s|
    ensures r == "" <==> s == ""
    decreases |s|
  {
    if s == [] then []
    else if IsWhitespace(s[0]) then
      var rest := ReplaceWhitespaceRuns(TrimStart(s[1..]));
      assert !IsWhitespace('-');
      ['-'] + rest
    else
      var rest := ReplaceWhitespaceRuns(s[1..]);
      [s[0]] + rest
  }

  /** Every character of the result is a `-` or a character of the input. */
  lemma {:induction false} ReplaceKeepsCharacters(s: string)
    ensures forall i :: 0 <= i < |ReplaceWhitespaceRuns(s)| ==>
              ReplaceWhitespaceRuns(s)[i] == '-' || ReplaceWhitespaceRuns(s)[i] in s
    decreases |s|
  {
    if s != [] {
      if IsWhitespace(s[0]) {
        ReplaceKeepsCharacters(TrimStart(s[1..]));
      } else {
        ReplaceKeepsCharacters(s[1..]);
      }
    }
  }

  /** The slug of an agent name: lower-cased, white-space runs turned into `-`. */
  function Slug(name: string): (r: string)
    ensures forall i :: 0 <= i < |r| ==> !IsWhitespace(r[i]) && !('A' <= r[i] <= 'Z')
    ensures forall i :: 0 <= i < |r| ==> r[i] == '-' || r[i] in ToLower(name)
    ensures |r| <= |name|
    ensures r == "" <==> name == ""
  {
    ReplaceKeepsCharacters(ToLower(name));
    ReplaceWhitespaceRuns(ToLower(name))
  }

  /** Text without white space passes through unchanged. */
  lemma {:induction false} NoWhitespaceUnchanged(s: string)
    requires forall i :: 0 <= i < |s| ==> !IsWhitespace(s[i])
    ensures ReplaceWhitespaceRuns(s) == s
    decreases |s|
  {
    if s != [] {
      NoWhitespaceUnchanged(s[1..]);
    }
  }

  /** A word, a run of white space, and the rest: the run becomes a single `-`. */
  lemma {:induction false} RunCollapses(word: string, run: string, rest: string)
    requires forall i :: 0 <= i < |word| ==> !IsWhitespace(word[i])
    requires run != [] && Blank(run)
    requires rest == [] || !IsWhitespace(rest[0])
    ensures ReplaceWhitespaceRuns(word + run + rest) == word + "-" + ReplaceWhitespaceRuns(rest)
    decreases |word|
  {
    var s := word + run + rest;
    if word == [] {
      assert s == run + rest && IsWhitespace(s[0]);
      assert s[1..] == run[1..] + rest;
      calc {
        ReplaceWhitespaceRuns(s);
        ['-'] + ReplaceWhitespaceRuns(TrimStart(s[1..]));
        { DropRun(run[1..], rest); }
        ['-'] + ReplaceWhitespaceRuns(rest);
        { assert word + "-" == ['-']; }
        word + "-" + ReplaceWhitespaceRuns(rest);
      }
    } else {
      assert s[0] == word[0] && !IsWhitespace(s[0]);
      assert s[1..] == word[1..] + run + rest;
      calc {
        ReplaceWhitespaceRuns(s);
        [word[0]] + ReplaceWhitespaceRuns(s[1..]);
        { RunCollapses(word[1..], run, rest); }
        [word[0]] + (word[1..] + "-" + ReplaceWhitespaceRuns(rest));
        { assert [word[0]] + word[1..] == word; }
        word + "-" + ReplaceWhitespaceRuns(rest);
      }
    }
  }

  lemma {:induction false} DropRun(run: string, rest: string)
    requires Blank(run)
    requires rest == [] || !IsWhitespace(rest[0])
    ensures TrimStart(run + rest) == rest
    decreases |run|
  {
    if run != [] {
      assert (run + rest)[1..] == run[1..] + rest;
      DropRun(run[1..], rest);
    } else {
      assert run + rest == rest;
    }
  }

  lemma SlugExample()
    ensures Slug("My Agent") == "my-agent"
  {
    calc {
      Slug("My Agent");
      ReplaceWhitespaceRuns(ToLower("My Agent"));
      { LowerExample(); }
      ReplaceWhitespaceRuns("my" + " " + "agent");
      { ExampleWords(); RunCollapses("my", " ", "agent"); }
      "my" + "-" + ReplaceWhitespaceRuns("agent");
      { ExampleWords(); NoWhitespaceUnchanged("agent"); }
      "my" + "-" + "agent";
      { assert "my" + "-" + "agent" == "my-agent"; }
      "my-agent";
    }
  }

  /**
   * Helper of `SlugExample`: the two words of the example name hold no
   * white space, and the gap between them is one character of it.
   */
  lemma ExampleWords()
    ensures forall i :: 0 <= i < |"my"| ==> !IsWhitespace("my"[i])
    ensures forall i :: 0 <= i < |"agent"| ==> !IsWhitespace("agent"[i])
    ensures Blank(" ") && !IsWhitespace("agent"[0])
  {
  }

  /** Helper of `SlugExample`: the example name lower-cased. */
  lemma LowerExample()
    ensures ToLower("My Agent") == "my" + " " + "agent"
  {
    calc {
      ToLower("My Agent");
      { assert "My Agent" == "M" + ("y " + ("A" + "gent")); }
      ToLower("M" + ("y " + ("A" + "gent")));
      { ToLowerAppend("M", "y " + ("A" + "gent")); }
      ToLower("M") + ToLower("y " + ("A" + "gent"));
      { ToLowerAppend("y ", "A" + "gent"); }
      ToLower("M") + (ToLower("y ") + ToLower("A" + "gent"));
      { ToLowerAppend("A", "gent"); }
      ToLower("M") + (ToLower("y ") + (ToLower("A") + ToLower("gent")));
      { NoCapitalsUnchanged("y "); NoCapitalsUnchanged("gent"); }
      ToLower("M") + ("y " + (ToLower("A") + "gent"));
      { assert ToLower("M") == "m"; assert ToLower("A") == "a"; }
      "m" + ("y " + ("a" + "gent"));
      { assert "m" + ("y " + ("a" + "gent")) == "my agent"; }
      "my agent";
      { assert "my" + " " + "agent" == "my agent"; }
      "my" + " " + "agent";
    }
  }

  /** Lower-casing works character by character. */
  lemma {:induction false} ToLowerAppend(a: string, b: string)
    ensures ToLower(a + b) == ToLower(a) + ToLower(b)
    decreases |a|
  {
    if a == [] {
      assert a + b == b;
    } else {
      assert (a + b)[1..] == a[1..] + b;
      ToLowerAppend(a[1..], b);
    }
  }

  /** Text without ASCII capitals is left as it is. */
  lemma {:induction false} NoCapitalsUnchanged(s: string)
    requires forall i :: 0 <= i < |s| ==> !('A' <= s[i] <= 'Z')
    ensures ToLower(s) == s
    decreases |s|
  {
    if s != [] {
      NoCapitalsUnchanged(s[1..]);
    }
  }

  /** `${slug}.${accountId}`: a missing account id renders as `null`. */
  function ContractAddress(name: string, accountId: Option<string>): (r: string)
    ensures |r| > |Slug(name)| && r[..|Slug(name)|] == Slug(name) && r[|Slug(name)|] == '.'
    ensures r[|Slug(name)| + 1..] == (if accountId.Some? then accountId.value else "null")
  {
    Slug(name) + "." + (match accountId case Some(a) => a case None => "null")
  }

  /** The NEAR wallet of a deployed agent: the slug on the `-near.testnet` suffix, with no white space or capital. */
  function NearWallet(name: string): (r: string)
    ensures |r| == |Slug(name)| + 13 && r[..|Slug(name)|] == Slug(name) && r[|Slug(name)|..] == "-near.testnet"
    ensures forall i :: 0 <= i < |r| ==> !IsWhitespace(r[i]) && !('A' <= r[i] <= 'Z')
  {
    Slug(name) + "-near.testnet"
  }

  // ------------------------------------------------------------ validation

  datatype ValidationError =
    | NameRequired
    | NoCapabilities
    | NonPositiveFunding
    | InsufficientBalance(balance: real, needed: real)

  /** The first rule `validateConfig` finds broken, checked in the order the wizard checks them. */
  function FirstViolation(config: AgentConfig, balance: real): (r: Option<ValidationError>)
    ensures r.None? <==> !Blank(config.name) && config.capabilities != [] &&
                         config.initialFunding > 0.0 && balance >= config.initialFunding
    ensures r == Some(NameRequired) <==> Blank(config.name)
    ensures r == Some(NoCapabilities) <==> !Blank(config.name) && config.capabilities == []
    ensures r == Some(NonPositiveFunding) <==>
              !Blank(config.name) && config.capabilities != [] && config.initialFunding <= 0.0
    ensures r.Some? && r.value.InsufficientBalance? ==> r.value == InsufficientBalance(balance, config.initialFunding)
  {
    if Trim(config.name) == "" then Some(NameRequired)
    else if |config.capabilities| == 0 then Some(NoCapabilities)
    else if config.initialFunding <= 0.0 then Some(NonPositiveFunding)
    else if balance < config.initialFunding then Some(InsufficientBalance(balance, config.initialFunding))
    else None
  }

  // ------------------------------------------------------------ deployment

  datatype DeploymentResult = DeploymentResult(
    agentId: string,
    contractAddress: string,
    nearWallet: string,
    ethereumWallet: string,
    bitcoinWallet: string,
    deploymentTx: string,
    status: string)

  /**
   * The simulated deployment record. The clock reading and the three random
   * digit strings are inputs.
   */
  function Deployment(config: AgentConfig, accountId: Option<string>, clock: nat,
                      ethDigits: string, btcDigits: string, txDigits: string): (d: DeploymentResult)
    ensures |d.agentId| > 6 && d.agentId[..6] == "agent_" && d.agentId[6..] == Js.NatToString(clock)
    ensures d.contractAddress == ContractAddress(config.name, accountId)
    ensures d.nearWallet == NearWallet(config.name)
    ensures |d.ethereumWallet| >= 2 && d.ethereumWallet[..2] == "0x"
    ensures |d.bitcoinWallet| >= 3 && d.bitcoinWallet[..3] == "bc1"
    ensures d.status == "active"
  {
    DeploymentResult("agent_" + Js.NatToString(clock), ContractAddress(config.name, accountId),
                     NearWallet(config.name), "0x" + ethDigits, "bc1" + btcDigits, txDigits, "active")
  }

  /** Two deployments at different clock readings get different agent ids. */
  lemma AgentIdsDistinct(config: AgentConfig, accountId: Option<string>, c1: nat, c2: nat,
                         e1: string, b1: string, t1: string, e2: string, b2: string, t2: string)
    requires c1 != c2
    ensures Deployment(config, accountId, c1, e1, b1, t1).agentId != Deployment(config, accountId, c2, e2, b2, t2).agentId
  {
    var p := "agent_";
    var s1 := Js.NatToString(c1);
    var s2 := Js.NatToString(c2);
    if p + s1 == p + s2 {
      assert s1 == (p + s1)[|p|..];
      assert s2 == (p + s2)[|p|..];
      Js.NatToStringRoundTrip(c1);
      Js.NatToStringRoundTrip(c2);
    }
  }

  // --------------------------------------------------------------- wizard

  /** A field edit made on the form; each field lives on one step. */
  datatype FieldEdit =
    | SetName(name: string)
    | SetDescription(description: string)
    | SetPublic(isPublic: bool)
    | SetLatitude(latitude: real)
    | SetLongitude(longitude: real)
    | SetInitialFunding(initialFunding: real)
    | SetSpendingLimit(spendingLimit: real)

  /** The step whose form holds the field. */
  function EditStep(e: FieldEdit): int {
    match e
    case SetName(_) => 1
    case SetDescription(_) => 1
    case SetPublic(_) => 1
    case _ => 3
  }

  function ApplyEdit(config: AgentConfig, e: FieldEdit): (r: AgentConfig)
    ensures r.capabilities == config.capabilities && r.agentType == config.agentType
    ensures !e.SetName? ==> r.name == config.name
  {
    match e
    case SetName(v) => config.(name := v)
    case SetDescription(v) => config.(description := v)
    case SetPublic(v) => config.(isPublic := v)
    case SetLatitude(v) => config.(latitude := v)
    case SetLongitude(v) => config.(longitude := v)
    case SetInitialFunding(v) => config.(initialFunding := v)
    case SetSpendingLimit(v) => config.(spendingLimit := v)
  }

  datatype WizardError =
    | Invalid(violation: ValidationError)
    | LocationUnavailable       // the browser could not report a position
    | GeolocationUnsupported    // the browser has no geolocation

  /** What the browser's geolocation answers: unsupported, a failure, or a position. */
  datatype LocationReply = Unsupported | PositionError | Position(latitude: real, longitude: real)

  /** The component state of the deployment dialog. */
  class Wizard {
    var step: int
    var config: AgentConfig
    var error: Option<WizardError>
    var deployment: Option<DeploymentResult>

    /**
     * The step is one of the four; the last is shown exactly when a deployment
     * exists; only a non-blank name gets past step 1; the capability list is
     * well formed; and a deployment's NEAR wallet is the slug of the name.
     */
    ghost predicate Valid()
      reads this
    {
      && 1 <= step <= 4
      && (step == 4 <==> deployment.Some?)
      && (step >= 2 ==> !Blank(config.name))
      && WellFormedCapabilities(config.capabilities)
      && (deployment.Some? ==> deployment.value.nearWallet == NearWallet(config.name))
    }

    constructor ()
      ensures Valid()
      ensures step == 1 && config == DefaultConfig && error.None? && deployment.None?
    {
      step, config, error, deployment := 1, DefaultConfig, None, None;
      PresetsWellFormed();
    }

    /** Typing into a field of the current step's form. */
    method Edit(e: FieldEdit)
      requires Valid() && step == EditStep(e)
      modifies this
      ensures Valid()
      ensures config == ApplyEdit(old(config), e)
      ensures step == old(step) && error == old(error) && deployment == old(deployment)
    {
      config := ApplyEdit(config, e);
    }

    /** Step 1's Next button: disabled, so without effect, while the trimmed name is empty. */
    method NextFromBasicInfo()
      requires Valid() && step == 1
      modifies this
      ensures Valid()
      ensures step == (if Blank(config.name) then 1 else 2)
      ensures config == old(config) && error == old(error) && deployment == old(deployment)
    {
      if Trim(config.name) != "" {
        step := 2;
      }
    }

    /** Step 2's Back button. */
    method BackToBasicInfo()
      requires Valid() && step == 2
      modifies this
      ensures Valid()
      ensures step == 1 && config == old(config) && error == old(error) && deployment == old(deployment)
    {
      step := 1;
    }

    /** Step 2's Next button, always enabled. */
    method NextToFunding()
      requires Valid() && step == 2
      modifies this
      ensures Valid()
      ensures step == 3 && config == old(config) && error == old(error) && deployment == old(deployment)
    {
      step := 3;
    }

    /** Step 3's Back button. */
    method BackToAgentType()
      requires Valid() && step == 3
      modifies this
      ensures Valid()
      ensures step == 2 && config == old(config) && error == old(error) && deployment == old(deployment)
    {
      step := 2;
    }

    /** Clicking an agent type on step 2. */
    method ChooseAgentType(id: string)
      requires Valid() && step == 2
      modifies this
      ensures Valid()
      ensures config == SelectAgentType(old(config), id)
      ensures step == old(step) && error == old(error) && deployment == old(deployment)
    {
      PresetsWellFormed();
      config := SelectAgentType(config, id);
    }

    /** Clicking one of the offered capabilities on step 2. */
    method ToggleCapability(c: string)
      requires Valid() && step == 2 && c in CapabilityIds
      modifies this
      ensures Valid()
      ensures config == old(config).(capabilities := Toggle(old(config).capabilities, c))
      ensures step == old(step) && error == old(error) && deployment == old(deployment)
    {
      ToggleKeepsWellFormed(config.capabilities, c);
      config := config.(capabilities := Toggle(config.capabilities, c));
    }

    /** Step 3's location button, with the browser's answer as input. */
    method UseDeviceLocation(reply: LocationReply)
      requires Valid() && step == 3
      modifies this
      ensures Valid()
      ensures reply.Position? ==> config == old(config).(latitude := reply.latitude, longitude := reply.longitude) && error == old(error)
      ensures reply.PositionError? ==> config == old(config) && error == Some(LocationUnavailable)
      ensures reply.Unsupported? ==> config == old(config) && error == Some(GeolocationUnsupported)
      ensures step == old(step) && deployment == old(deployment)
    {
      match reply
      case Unsupported => error := Some(GeolocationUnsupported);
      case PositionError => error := Some(LocationUnavailable);
      case Position(lat, lon) => config := config.(latitude := lat, longitude := lon);
    }

    /** `validateConfig`: records the first broken rule, or clears the error, and reports success. */
    method Validate(balance: real) returns (ok: bool)
      requires Valid()
      modifies this
      ensures Valid()
      ensures ok <==> FirstViolation(config, balance).None?
      ensures error == (if ok then None else Some(Invalid(FirstViolation(config, balance).value)))
      ensures step == old(step) && config == old(config) && deployment == old(deployment)
    {
      var v := FirstViolation(config, balance);
      ok := v.None?;
      ShowError(if ok then None else Some(Invalid(v.value)));
    }

    /** Sets the message shown under the form; nothing else changes. */
    method ShowError(e: Option<WizardError>)
      requires Valid()
      modifies this
      ensures Valid()
      ensures error == e && step == old(step) && config == old(config) && deployment == old(deployment)
    {
      error := e;
    }

    /**
     * Step 3's Deploy button: stops at a broken rule with its error shown;
     * otherwise records the simulated deployment and moves to step 4. The
     * name rule never fires here, since step 1 let only a non-blank name through.
     */
    method Deploy(balance: real, accountId: Option<string>, clock: nat, ethDigits: string, btcDigits: string, txDigits: string)
      requires Valid() && step == 3
      modifies this
      ensures Valid()
      ensures config == old(config)
      ensures FirstViolation(config, balance).Some? ==>
                step == 3 && deployment.None? && error == Some(Invalid(FirstViolation(config, balance).value))
      ensures FirstViolation(config, balance).None? ==>
                step == 4 && error.None? && deployment == Some(Deployment(config, accountId, clock, ethDigits, btcDigits, txDigits))
      ensures error != Some(Invalid(NameRequired))
    {
      var ok := Validate(balance);
      if ok {
        Record(Deployment(config, accountId, clock, ethDigits, btcDigits, txDigits));
      }
    }

    /** The successful end of a deployment: the record is shown on step 4. */
    method Record(d: DeploymentResult)
      requires Valid() && step == 3 && d.nearWallet == NearWallet(config.name)
      modifies this
      ensures Valid()
      ensures step == 4 && config == old(config) && error.None? && deployment == Some(d)
    {
      error, deployment, step := None, Some(d), 4;
    }

    /** `resetForm`, run by the Deploy Another Agent button: back to step 1 with the defaults. */
    method Reset()
      requires Valid()
      modifies this
      ensures Valid()
      ensures step == 1 && config == DefaultConfig && error.None? && deployment.None?
    {
      PresetsWellFormed();
      step, config, error, deployment := 1, DefaultConfig, None, None;
    }
  }
}
