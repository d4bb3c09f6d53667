/**
 * The integration registry: a name-to-client map filled by `initializeAll`
 * from a configuration object, with lookup, availability and snapshot queries.
 *
 * Client construction is not modelled: a registered client is an opaque handle
 * recording which client class was built from which configuration value. Whether
 * the NEAR client's asynchronous `initialize()` succeeds is an input.
 */
module Registry {
  import opened Wrappers
  import Js
  import IntegrationConfig

  datatype IntegrationKind = SecuredFinance | Filecoin | AnthropicMCP | WeatherXM | CheckerNetwork | NearShade

  /** The configuration key, and registry name, of each client. */
  function KeyOf(kind: IntegrationKind): string {
    match kind
    case SecuredFinance => "securedFinance"
    case Filecoin => "filecoin"
    case AnthropicMCP => "anthropicMCP"
    case WeatherXM => "weatherXM"
    case CheckerNetwork => "checkerNetwork"
    case NearShade => "nearShade"
  }

  /** Different clients have different keys. */
  lemma KeyOfInjective(a: IntegrationKind, b: IntegrationKind)
    ensures KeyOf(a) == KeyOf(b) <==> a == b
  {
    if a != b {
      assert KeyOf(a)[0] != KeyOf(b)[0];
    }
  }

  /** The class `initializeAll` instantiates for each client. */
  function ClassName(kind: IntegrationKind): string {
    match kind
    case SecuredFinance => "SecuredFinanceIntegration"
    case Filecoin => "FilecoinIntegration"
    case AnthropicMCP => "AnthropicMCPIntegration"
    case WeatherXM => "WeatherXMIntegration"
    case CheckerNetwork => "CheckerNetworkIntegration"
    case NearShade => "NearShadeIntegration"
  }

  /** The clients in the order `initializeAll` considers them. */
  const Kinds: seq<IntegrationKind> := [SecuredFinance, Filecoin, AnthropicMCP, WeatherXM, CheckerNetwork, NearShade]

  predicate IsKnownKey(name: string) {
    exists kind :: KeyOf(kind) == name
  }

  /** A registered value: a client built by `initializeAll`, or any other value a caller registers. */
  datatype Handle = Client(kind: IntegrationKind, config: Js.Value) | Token(id: nat)

  /** A JavaScript `Map`: its entries, and their names in the order each name was first set. */
  datatype OrderedMap = OrderedMap(entries: map<string, Handle>, order: seq<string>) {

    predicate Valid() {
      && (forall i, j :: 0 <= i < j < |order| ==> order[i] != order[j])
      && (forall n :: n in order ==> n in entries)
      && (forall n :: n in entries ==> n in order)
    }

    /** `Map.prototype.set`: the name now maps to `h`; a new name joins the end of the order. */
    function Set(name: string, h: Handle): (m: OrderedMap)
      ensures Valid() ==> m.Valid()
      ensures name in m.entries && m.entries[name] == h
      ensures forall n :: n != name ==> (n in m.entries <==> n in entries)
      ensures forall n :: n != name && n in entries ==> m.entries[n] == entries[n]
      ensures |order| <= |m.order| && m.order[..|order|] == order
      ensures name in entries ==> m.order == order
    {
      if name in entries then OrderedMap(entries[name := h], order)
      else OrderedMap(entries[name := h], order + [name])
    }

    /** The map after setting each registration in turn. */
    function SetAll(regs: seq<(string, Handle)>): OrderedMap
      decreases |regs|
    {
      if regs == [] then this else SetAll(regs[..|regs| - 1]).Set(regs[|regs| - 1].0, regs[|regs| - 1].1)
    }
  }

  /** Some registration in `regs` is for `name`. */
  predicate HasName(regs: seq<(string, Handle)>, name: string) {
    exists i :: 0 <= i < |regs| && regs[i].0 == name
  }

  predicate DistinctNames(regs: seq<(string, Handle)>) {
    forall i, j :: 0 <= i < j < |regs| ==> regs[i].0 != regs[j].0
  }

  lemma {:induction false} SetAllValid(m: OrderedMap, regs: seq<(string, Handle)>)
    requires m.Valid()
    ensures m.SetAll(regs).Valid()
    decreases |regs|
  {
    if regs != [] {
      SetAllValid(m, regs[..|regs| - 1]);
    }
  }

  /** A name no registration mentions keeps its entry, or its absence. */
  lemma {:induction false} SetAllUntouched(m: OrderedMap, regs: seq<(string, Handle)>, n: string)
    requires !HasName(regs, n)
    ensures n in m.SetAll(regs).entries <==> n in m.entries
    ensures n in m.entries ==> m.SetAll(regs).entries[n] == m.entries[n]
    decreases |regs|
  {
    if regs != [] {
      var init := regs[..|regs| - 1];
      assert regs[|regs| - 1].0 != n;
      SetAllUntouched(m, init, n);
    }
  }

  /** With distinct names, every registration is what its name ends up holding. */
  lemma {:induction false} SetAllLands(m: OrderedMap, regs: seq<(string, Handle)>, i: nat)
    requires DistinctNames(regs) && i < |regs|
    ensures regs[i].0 in m.SetAll(regs).entries && m.SetAll(regs).entries[regs[i].0] == regs[i].1
    decreases |regs|
  {
    if i < |regs| - 1 {
      SetAllLands(m, regs[..|regs| - 1], i);
    }
  }

  /** Registering never removes an entry. */
  lemma {:induction false} SetAllKeepsKeys(m: OrderedMap, regs: seq<(string, Handle)>)
    ensures m.entries.Keys <= m.SetAll(regs).entries.Keys
    decreases |regs|
  {
    if regs != [] {
      SetAllKeepsKeys(m, regs[..|regs| - 1]);
    }
  }

  /** Setting `a` and then `b` is setting `a + b`. */
  lemma {:induction false} SetAllAppend(m: OrderedMap, a: seq<(string, Handle)>, b: seq<(string, Handle)>)
    ensures m.SetAll(a).SetAll(b) == m.SetAll(a + b)
    decreases |b|
  {
    if b == [] {
      assert a + b == a;
    } else {
      var init := b[..|b| - 1];
      var last := b[|b| - 1];
      SetAllAppend(m, a, init);
      assert (a + b)[..|a + b| - 1] == a + init;
      assert (a + b)[|a + b| - 1] == last;
      calc {
        m.SetAll(a).SetAll(b);
        m.SetAll(a).SetAll(init).Set(last.0, last.1);
        m.SetAll(a + init).Set(last.0, last.1);
        m.SetAll(a + b);
      }
    }
  }

  // --------------------------------------------------------- initializeAll

  datatype InitError =
    | NearShadeInitFailed            // the NEAR client's `initialize()` threw
    | ReferenceError(name: string)   // an unbound class name was used

  /** The registrations `initializeAll` performs, in order, and the error it throws, if any. */
  datatype InitRun = InitRun(registrations: seq<(string, Handle)>, error: Option<InitError>)

  /** `configs.<key>` on the configuration record. */
  function Lookup(configs: map<string, Js.Value>, key: string): Js.Value {
    Js.OptMember(Js.Obj(configs), key)
  }

  /** One `if (configs.<key>) { register(<key>, new <Class>(configs.<key>)) }` block. */
  function Registration(configs: map<string, Js.Value>, kind: IntegrationKind): seq<(string, Handle)> {
    var v := Lookup(configs, KeyOf(kind));
    if Js.Truthy(v) then [(KeyOf(kind), Client(kind, v))] else []
  }

  /** The blocks for `kinds`, one after the other. */
  function RegistrationsOf(configs: map<string, Js.Value>, kinds: seq<IntegrationKind>): seq<(string, Handle)>
    decreases |kinds|
  {
    if kinds == [] then [] else RegistrationsOf(configs, kinds[..|kinds| - 1]) + Registration(configs, kinds[|kinds| - 1])
  }

  /**
   * `initializeAll` with the client classes in scope: the first five blocks,
   * then the NEAR client, registered only once its `initialize()` succeeded.
   * The `promises` array stays empty, so the final `Promise.all` adds nothing.
   */
  function InitPlan(configs: map<string, Js.Value>, nearShadeReady: bool): (r: InitRun)
    ensures r.error == Some(NearShadeInitFailed) <==> Js.Truthy(Lookup(configs, "nearShade")) && !nearShadeReady
    ensures r.error.None? <==> !(Js.Truthy(Lookup(configs, "nearShade")) && !nearShadeReady)
  {
    if !Js.Truthy(Lookup(configs, "nearShade")) then InitRun(RegistrationsOf(configs, Kinds[..5]), None)
    else if !nearShadeReady then InitRun(RegistrationsOf(configs, Kinds[..5]), Some(NearShadeInitFailed))
    else InitRun(RegistrationsOf(configs, Kinds), None)
  }

  /** Whether `initializeAll` registers the client of this kind. */
  predicate Registers(configs: map<string, Js.Value>, nearShadeReady: bool, kind: IntegrationKind) {
    Js.Truthy(Lookup(configs, KeyOf(kind))) && (kind == NearShade ==> nearShadeReady)
  }

  /** A registration made by a block: the client class for the name, built from its truthy configuration. */
  predicate Built(configs: map<string, Js.Value>, entry: (string, Handle)) {
    entry.1.Client? && entry.0 == KeyOf(entry.1.kind) && entry.1.config == Lookup(configs, entry.0)
    && Js.Truthy(entry.1.config)
  }

  /** Each block registers its own client from its truthy configuration. */
  lemma {:induction false} RegistrationsBuilt(configs: map<string, Js.Value>, kinds: seq<IntegrationKind>)
    ensures forall i :: 0 <= i < |RegistrationsOf(configs, kinds)| ==>
              Built(configs, RegistrationsOf(configs, kinds)[i]) && RegistrationsOf(configs, kinds)[i].1.kind in kinds
    decreases |kinds|
  {
    if kinds != [] {
      var init := kinds[..|kinds| - 1];
      RegistrationsBuilt(configs, init);
      assert RegistrationsOf(configs, kinds) == RegistrationsOf(configs, init) + Registration(configs, kinds[|kinds| - 1]);
    }
  }

  /** A name is registered exactly when its block is run and its configuration is truthy. */
  lemma RegistrationsNames(configs: map<string, Js.Value>, kinds: seq<IntegrationKind>)
    ensures forall kind :: HasName(RegistrationsOf(configs, kinds), KeyOf(kind)) <==>
              kind in kinds && Js.Truthy(Lookup(configs, KeyOf(kind)))
  {
    forall kind ensures HasName(RegistrationsOf(configs, kinds), KeyOf(kind)) <==>
                        kind in kinds && Js.Truthy(Lookup(configs, KeyOf(kind))) {
      RegistrationsName(configs, kinds, kind);
    }
  }

  lemma RegistrationsName(configs: map<string, Js.Value>, kinds: seq<IntegrationKind>, kind: IntegrationKind)
    ensures HasName(RegistrationsOf(configs, kinds), KeyOf(kind)) <==>
              kind in kinds && Js.Truthy(Lookup(configs, KeyOf(kind)))
  {
    if HasName(RegistrationsOf(configs, kinds), KeyOf(kind)) {
      RegisteredNameWasRun(configs, kinds, kind);
    }
    if kind in kinds && Js.Truthy(Lookup(configs, KeyOf(kind))) {
      RunNameIsRegistered(configs, kinds, kind);
    }
  }

  /** Only a block that was run, with a truthy configuration, registers a name. */
  lemma {:induction false} RegisteredNameWasRun(configs: map<string, Js.Value>, kinds: seq<IntegrationKind>, kind: IntegrationKind)
    requires HasName(RegistrationsOf(configs, kinds), KeyOf(kind))
    ensures kind in kinds && Js.Truthy(Lookup(configs, KeyOf(kind)))
    decreases |kinds|
  {
    var init := kinds[..|kinds| - 1];
    var last := kinds[|kinds| - 1];
    var regs := RegistrationsOf(configs, kinds);
    var prev := RegistrationsOf(configs, init);
    var here := Registration(configs, last);
    assert regs == prev + here;
    var i :| 0 <= i < |regs| && regs[i].0 == KeyOf(kind);
    if i < |prev| {
      assert prev[i] == regs[i];
      RegisteredNameWasRun(configs, init, kind);
      assert kind in init;
    } else {
      assert here[i - |prev|].0 == KeyOf(kind);
      KeyOfInjective(kind, last);
    }
  }

  /** A block that is run with a truthy configuration registers its name. */
  lemma {:induction false} RunNameIsRegistered(configs: map<string, Js.Value>, kinds: seq<IntegrationKind>, kind: IntegrationKind)
    requires kind in kinds && Js.Truthy(Lookup(configs, KeyOf(kind)))
    ensures HasName(RegistrationsOf(configs, kinds), KeyOf(kind))
    decreases |kinds|
  {
    var init := kinds[..|kinds| - 1];
    var last := kinds[|kinds| - 1];
    var regs := RegistrationsOf(configs, kinds);
    var prev := RegistrationsOf(configs, init);
    var here := Registration(configs, last);
    assert regs == prev + here;
    if kind == last {
      assert regs[|prev|] == here[0];
    } else {
      assert kinds == init + [last];
      RunNameIsRegistered(configs, init, kind);
      var i :| 0 <= i < |prev| && prev[i].0 == KeyOf(kind);
      assert regs[i] == prev[i];
    }
  }

  /** Blocks for different clients register different names. */
  lemma {:induction false} RegistrationsDistinct(configs: map<string, Js.Value>, kinds: seq<IntegrationKind>)
    requires forall i, j :: 0 <= i < j < |kinds| ==> kinds[i] != kinds[j]
    ensures DistinctNames(RegistrationsOf(configs, kinds))
    decreases |kinds|
  {
    if kinds != [] {
      var init := kinds[..|kinds| - 1];
      var last := kinds[|kinds| - 1];
      RegistrationsDistinct(configs, init);
      RegistrationsBuilt(configs, init);
      var regs := RegistrationsOf(configs, kinds);
      var prev := RegistrationsOf(configs, init);
      assert regs == prev + Registration(configs, last);
      assert last !in init;
      forall i, j | 0 <= i < j < |regs| ensures regs[i].0 != regs[j].0 {
        if j >= |prev| && i < |prev| {
          assert regs[i].1.kind in init;
        }
      }
    }
  }

  lemma RegistrationsOfShape(configs: map<string, Js.Value>, kinds: seq<IntegrationKind>)
    ensures forall i :: 0 <= i < |RegistrationsOf(configs, kinds)| ==>
              Built(configs, RegistrationsOf(configs, kinds)[i]) && RegistrationsOf(configs, kinds)[i].1.kind in kinds
    ensures forall kind :: HasName(RegistrationsOf(configs, kinds), KeyOf(kind)) <==>
              kind in kinds && Js.Truthy(Lookup(configs, KeyOf(kind)))
    ensures (forall i, j :: 0 <= i < j < |kinds| ==> kinds[i] != kinds[j]) ==> DistinctNames(RegistrationsOf(configs, kinds))
  {
    RegistrationsBuilt(configs, kinds);
    RegistrationsNames(configs, kinds);
    if forall i, j :: 0 <= i < j < |kinds| ==> kinds[i] != kinds[j] {
      RegistrationsDistinct(configs, kinds);
    }
  }

  /** The plan registers each known client at most once, built from its own configuration value. */
  lemma InitPlanShape(configs: map<string, Js.Value>, nearShadeReady: bool)
    ensures DistinctNames(InitPlan(configs, nearShadeReady).registrations)
    ensures forall kind :: Registers(configs, nearShadeReady, kind) <==>
                           HasName(InitPlan(configs, nearShadeReady).registrations, KeyOf(kind))
    ensures forall i :: 0 <= i < |InitPlan(configs, nearShadeReady).registrations| ==>
                        Built(configs, InitPlan(configs, nearShadeReady).registrations[i])
  {
    var first := Kinds[..5];
    KindsDistinct();
    RegistrationsOfShape(configs, first);
    RegistrationsOfShape(configs, Kinds);
    var plan := InitPlan(configs, nearShadeReady);
    if Js.Truthy(Lookup(configs, "nearShade")) && nearShadeReady {
      assert plan.registrations == RegistrationsOf(configs, Kinds);
      forall kind ensures Registers(configs, nearShadeReady, kind) <==> HasName(plan.registrations, KeyOf(kind)) {
        assert kind in Kinds;
      }
    } else {
      assert plan.registrations == RegistrationsOf(configs, first);
      forall kind ensures Registers(configs, nearShadeReady, kind) <==> HasName(plan.registrations, KeyOf(kind)) {
        if kind != NearShade {
          assert kind in first;
        }
      }
    }
  }

  /** The six clients are distinct, and the NEAR one comes last. */
  lemma KindsDistinct()
    ensures forall i, j :: 0 <= i < j < |Kinds| ==> Kinds[i] != Kinds[j]
    ensures forall i, j :: 0 <= i < j < |Kinds[..5]| ==> Kinds[..5][i] != Kinds[..5][j]
    ensures NearShade !in Kinds[..5]
    ensures forall kind :: kind in Kinds
    ensures forall kind :: kind != NearShade ==> kind in Kinds[..5]
  {
    FirstFive();
    forall kind ensures kind in Kinds {
      match kind
      case SecuredFinance => assert Kinds[0] == kind;
      case Filecoin => assert Kinds[1] == kind;
      case AnthropicMCP => assert Kinds[2] == kind;
      case WeatherXM => assert Kinds[3] == kind;
      case CheckerNetwork => assert Kinds[4] == kind;
      case NearShade => assert Kinds[5] == kind;
    }
  }

  lemma FirstFive()
    ensures Kinds[..5] == [SecuredFinance, Filecoin, AnthropicMCP, WeatherXM, CheckerNetwork]
    ensures Kinds == Kinds[..5] + [NearShade]
  {
  }

  /** `initializeAll` keeps the registry well formed and never removes an entry. */
  lemma InitializeAllKeeps(m: OrderedMap, configs: map<string, Js.Value>, nearShadeReady: bool)
    requires m.Valid()
    ensures m.SetAll(InitPlan(configs, nearShadeReady).registrations).Valid()
    ensures m.entries.Keys <= m.SetAll(InitPlan(configs, nearShadeReady).registrations).entries.Keys
  {
    SetAllValid(m, InitPlan(configs, nearShadeReady).registrations);
    SetAllKeepsKeys(m, InitPlan(configs, nearShadeReady).registrations);
  }

  /**
   * After `initializeAll`, each known client whose configuration is truthy (the
   * NEAR one only if its initialisation succeeded) is registered under its key,
   * built from that configuration, whatever was registered there before.
   */
  lemma InitializeAllRegisters(m: OrderedMap, configs: map<string, Js.Value>, nearShadeReady: bool, kind: IntegrationKind)
    requires Registers(configs, nearShadeReady, kind)
    ensures KeyOf(kind) in m.SetAll(InitPlan(configs, nearShadeReady).registrations).entries
    ensures m.SetAll(InitPlan(configs, nearShadeReady).registrations).entries[KeyOf(kind)] ==
              Client(kind, Lookup(configs, KeyOf(kind)))
  {
    var regs := InitPlan(configs, nearShadeReady).registrations;
    InitPlanShape(configs, nearShadeReady);
    assert HasName(regs, KeyOf(kind));
    var i :| 0 <= i < |regs| && regs[i].0 == KeyOf(kind);
    assert Built(configs, regs[i]);
    SetAllLands(m, regs, i);
    assert regs[i].1.kind == kind by { KeyOfInjective(regs[i].1.kind, kind); }
  }

  /** Every name `initializeAll` does not register keeps its entry, or its absence. */
  lemma InitializeAllLeavesOthers(m: OrderedMap, configs: map<string, Js.Value>, nearShadeReady: bool, n: string)
    requires forall kind :: KeyOf(kind) == n ==> !Registers(configs, nearShadeReady, kind)
    ensures n in m.SetAll(InitPlan(configs, nearShadeReady).registrations).entries <==> n in m.entries
    ensures n in m.entries ==> m.SetAll(InitPlan(configs, nearShadeReady).registrations).entries[n] == m.entries[n]
  {
    InitPlanShape(configs, nearShadeReady);
    SetAllUntouched(m, InitPlan(configs, nearShadeReady).registrations, n);
  }

  /** Keys other than the six known ones play no part in `initializeAll`. */
  lemma {:induction false} UnknownKeysIgnored(configs: map<string, Js.Value>, kinds: seq<IntegrationKind>, key: string, v: Js.Value)
    requires !IsKnownKey(key)
    ensures RegistrationsOf(configs[key := v], kinds) == RegistrationsOf(configs, kinds)
    ensures Lookup(configs[key := v], "nearShade") == Lookup(configs, "nearShade")
    decreases |kinds|
  {
    assert KeyOf(NearShade) != key;
    if kinds != [] {
      UnknownKeysIgnored(configs, kinds[..|kinds| - 1], key, v);
      assert KeyOf(kinds[|kinds| - 1]) != key;
    }
  }

  /**
   * `initializeAll` as the file is written: the client classes are only
   * re-exported (`export { default as X } from ...`), which binds no local name,
   * so the first `new` reached throws a ReferenceError before anything is registered.
   */
  function InitPlanAsWritten(configs: map<string, Js.Value>): (r: InitRun)
    ensures r.registrations == []
    ensures r.error.Some? <==> exists kind :: Js.Truthy(Lookup(configs, KeyOf(kind)))
  {
    KindsDistinct();
    FirstConstruction(configs, Kinds)
  }

  /**
   * The blocks for `kinds` as written: nothing is ever registered, and the
   * first block whose configuration is truthy throws, naming its class.
   */
  function FirstConstruction(configs: map<string, Js.Value>, kinds: seq<IntegrationKind>): (r: InitRun)
    ensures r.registrations == []
    ensures r.error.Some? <==> exists i :: 0 <= i < |kinds| && Js.Truthy(Lookup(configs, KeyOf(kinds[i])))
    ensures r.error.Some? ==> exists i :: 0 <= i < |kinds| && Js.Truthy(Lookup(configs, KeyOf(kinds[i]))) &&
                                         r.error.value == ReferenceError(ClassName(kinds[i])) &&
                                         forall j :: 0 <= j < i ==> !Js.Truthy(Lookup(configs, KeyOf(kinds[j])))
    decreases |kinds|
  {
    if kinds == [] then InitRun([], None)
    else if Js.Truthy(Lookup(configs, KeyOf(kinds[0]))) then InitRun([], Some(ReferenceError(ClassName(kinds[0]))))
    else
      var rest := kinds[1..];
      assert forall i :: 1 <= i < |kinds| ==> kinds[i] == rest[i - 1];
      FirstConstruction(configs, rest)
  }

  /**
   * The discrepancy on the shipped development configuration: as written,
   * `initializeAll` throws `ReferenceError` at `SecuredFinanceIntegration` with an
   * empty registry, while the intended behaviour registers all six clients.
   */
  lemma ShippedConfigAsWrittenFails(env: IntegrationConfig.Env)
    ensures InitPlanAsWritten(IntegrationConfig.DevelopmentConfig(env).props) ==
              InitRun([], Some(ReferenceError("SecuredFinanceIntegration")))
    ensures forall kind :: Registers(IntegrationConfig.DevelopmentConfig(env).props, true, kind)
  {
    var configs := IntegrationConfig.DevelopmentConfig(env).props;
    DevelopmentEntriesTruthy(env);
    assert Registers(configs, true, SecuredFinance);
    FirstBlockThrows(configs);
  }

  /** As written, a truthy `securedFinance` entry makes the very first block throw. */
  lemma FirstBlockThrows(configs: map<string, Js.Value>)
    requires Js.Truthy(Lookup(configs, KeyOf(SecuredFinance)))
    ensures InitPlanAsWritten(configs) == InitRun([], Some(ReferenceError("SecuredFinanceIntegration")))
  {
  }

  /** Every client has a truthy entry in the development configuration. */
  lemma DevelopmentEntriesTruthy(env: IntegrationConfig.Env)
    ensures forall kind :: Registers(IntegrationConfig.DevelopmentConfig(env).props, true, kind)
  {
    var configs := IntegrationConfig.ConfigFor(env, false).props;
    assert IntegrationConfig.DevelopmentConfig(env).props == configs;
    forall kind ensures Registers(configs, true, kind) {
      assert Lookup(configs, KeyOf(kind)).Obj?;
    }
  }

  /** Running the block for `kind` after those for `done` is running the blocks for `done + [kind]`. */
  lemma BlockStep(m: OrderedMap, configs: map<string, Js.Value>, done: seq<IntegrationKind>, kind: IntegrationKind)
    ensures m.SetAll(RegistrationsOf(configs, done)).SetAll(Registration(configs, kind))
            == m.SetAll(RegistrationsOf(configs, done + [kind]))
  {
    assert (done + [kind])[..|done|] == done;
    SetAllAppend(m, RegistrationsOf(configs, done), Registration(configs, kind));
  }

  /** The first five blocks, one after the other, run the first five registrations of the plan. */
  lemma FiveBlocks(m: OrderedMap, configs: map<string, Js.Value>)
    ensures m.SetAll(Registration(configs, SecuredFinance)).SetAll(Registration(configs, Filecoin))
             .SetAll(Registration(configs, AnthropicMCP)).SetAll(Registration(configs, WeatherXM))
             .SetAll(Registration(configs, CheckerNetwork))
            == m.SetAll(RegistrationsOf(configs, Kinds[..5]))
  {
    var k1: seq<IntegrationKind> := [SecuredFinance];
    var k2: seq<IntegrationKind> := [SecuredFinance, Filecoin];
    var k3: seq<IntegrationKind> := [SecuredFinance, Filecoin, AnthropicMCP];
    var k4: seq<IntegrationKind> := [SecuredFinance, Filecoin, AnthropicMCP, WeatherXM];
    var k5: seq<IntegrationKind> := [SecuredFinance, Filecoin, AnthropicMCP, WeatherXM, CheckerNetwork];
    assert k2 == k1 + [Filecoin];
    assert k3 == k2 + [AnthropicMCP];
    assert k4 == k3 + [WeatherXM];
    assert k5 == k4 + [CheckerNetwork];
    var m0 := m.SetAll(RegistrationsOf(configs, []));
    assert m0 == m by { assert RegistrationsOf(configs, []) == []; }
    assert [] + [SecuredFinance] == k1;
    BlockStep(m, configs, [], SecuredFinance);
    var m1 := m.SetAll(RegistrationsOf(configs, k1));
    assert m.SetAll(Registration(configs, SecuredFinance)) == m1;
    BlockStep(m, configs, k1, Filecoin);
    var m2 := m.SetAll(RegistrationsOf(configs, k2));
    assert m1.SetAll(Registration(configs, Filecoin)) == m2;
    BlockStep(m, configs, k2, AnthropicMCP);
    var m3 := m.SetAll(RegistrationsOf(configs, k3));
    assert m2.SetAll(Registration(configs, AnthropicMCP)) == m3;
    BlockStep(m, configs, k3, WeatherXM);
    var m4 := m.SetAll(RegistrationsOf(configs, k4));
    assert m3.SetAll(Registration(configs, WeatherXM)) == m4;
    BlockStep(m, configs, k4, CheckerNetwork);
    assert m4.SetAll(Registration(configs, CheckerNetwork)) == m.SetAll(RegistrationsOf(configs, k5));
    FirstFive();
  }

  /** The NEAR block after the first five runs the whole plan. */
  lemma SixBlocks(m: OrderedMap, configs: map<string, Js.Value>)
    ensures m.SetAll(RegistrationsOf(configs, Kinds[..5])).SetAll(Registration(configs, NearShade))
            == m.SetAll(RegistrationsOf(configs, Kinds))
  {
    FirstFive();
    BlockStep(m, configs, Kinds[..5], NearShade);
  }

  // ------------------------------------------------------------- the class

  /** `IntegrationManager`: the `integrations` Map and the operations on it. */
  class IntegrationManager {
    var integrations: OrderedMap

    ghost predicate Valid()
      reads this
    {
      integrations.Valid()
    }

    constructor ()
      ensures Valid() && integrations == OrderedMap(map[], [])
    {
      integrations := OrderedMap(map[], []);
    }

    /** `get`: the handle registered under `name`, `None` for `undefined`. */
    function Get(name: string): (r: Option<Handle>)
      reads this
      ensures r.Some? <==> name in integrations.entries
      ensures r.Some? ==> r.value == integrations.entries[name]
    {
      if name in integrations.entries then Some(integrations.entries[name]) else None
    }

    /** `isAvailable`: `Map.prototype.has`, true iff `get` finds a handle. */
    function IsAvailable(name: string): (r: bool)
      reads this
      ensures r <==> Get(name).Some?
    {
      name in integrations.entries
    }

    /** `register`: overwrites any earlier handle for `name` and leaves every other name alone. */
    method Register(name: string, integration: Handle)
      requires Valid()
      modifies this
      ensures Valid()
      ensures integrations == old(integrations).Set(name, integration)
      ensures Get(name) == Some(integration)
      ensures forall n :: n != name ==> Get(n) == old(Get(n))
    {
      integrations := integrations.Set(name, integration);
    }

    /**
     * `initializeAll`, with the client classes in scope: six conditional
     * registrations in a fixed order; when the NEAR client's `initialize()`
     * throws, the error propagates after the first five.
     */
    method InitializeAll(configs: map<string, Js.Value>, nearShadeReady: bool) returns (error: Option<InitError>)
      requires Valid()
      modifies this
      ensures Valid()
      ensures integrations == old(integrations).SetAll(InitPlan(configs, nearShadeReady).registrations)
      ensures error == InitPlan(configs, nearShadeReady).error
    {
      ghost var start := integrations;
      RegisterIfPresent(configs, SecuredFinance);
      RegisterIfPresent(configs, Filecoin);
      RegisterIfPresent(configs, AnthropicMCP);
      RegisterIfPresent(configs, WeatherXM);
      RegisterIfPresent(configs, CheckerNetwork);
      FiveBlocks(start, configs);
      if Js.Truthy(Lookup(configs, "nearShade")) {
        if !nearShadeReady {
          return Some(NearShadeInitFailed);
        }
        RegisterIfPresent(configs, NearShade);
        SixBlocks(start, configs);
      }
      error := None;
    }

    /** One `if (configs.<key>) { ... this.register(<key>, integration) }` block. */
    method RegisterIfPresent(configs: map<string, Js.Value>, kind: IntegrationKind)
      requires Valid()
      modifies this
      ensures Valid()
      ensures integrations == old(integrations).SetAll(Registration(configs, kind))
    {
      var v := Lookup(configs, KeyOf(kind));
      if Js.Truthy(v) {
        Register(KeyOf(kind), Client(kind, v));
        assert [(KeyOf(kind), Client(kind, v))][..0] == [];
      }
    }

    /**
     * `getAll`: a fresh record with every registered name mapped to its handle;
     * `keys` is the record's key order, the Map's insertion order.
     */
    method GetAll() returns (result: map<string, Handle>, keys: seq<string>)
      requires Valid()
      ensures result == integrations.entries
      ensures keys == integrations.order
    {
      result, keys := map[], [];
      var i := 0;
      while i < |integrations.order|
        invariant 0 <= i <= |integrations.order|
        invariant keys == integrations.order[..i]
        invariant forall n :: n in result <==> n in keys
        invariant forall n :: n in result ==> n in integrations.entries && result[n] == integrations.entries[n]
      {
        var name := integrations.order[i];
        result := result[name := integrations.entries[name]];
        keys := keys + [name];
        i := i + 1;
      }
      assert keys == integrations.order;
    }
  }
}
