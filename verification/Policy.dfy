/**
 The policy decision of a skill and what a mission's dry run says of its steps (src/voxera/policy.py,
 src/voxera/core/capability_semantics.py, src/voxera/core/missions.py).
 */
module Policy {
  import opened Decisions
  import opened Text
  import opened Values
  import opened Wrappers

  // ----- capabilities

  datatype PolicyField = NetworkChanges | Installs | FileDelete | OpenApps | SystemSettings

  datatype PolicyApprovals = PolicyApprovals(networkChanges: Decision, installs: Decision, fileDelete: Decision,
                                             openApps: Decision, systemSettings: Decision)
  {
    function At(field: PolicyField): Decision
    {
      match field
      case NetworkChanges => networkChanges
      case Installs => installs
      case FileDelete => fileDelete
      case OpenApps => openApps
      case SystemSettings => systemSettings
    }
  }

  datatype Intent = ReadOnly | Mutating | Destructive
  {
    function Rank(): nat
    {
      match this
      case ReadOnly => 0
      case Mutating => 1
      case Destructive => 2
    }
  }

  datatype Boundaries = Boundaries(filesystem: bool, network: bool, secrets: bool, system: bool)
  {
    function Or(b: Boundaries): Boundaries
    {
      Boundaries(filesystem || b.filesystem, network || b.network, secrets || b.secrets, system || b.system)
    }
  }

  const NO_BOUNDARY := Boundaries(false, false, false, false)
  const FILESYSTEM := NO_BOUNDARY.(filesystem := true)
  const NETWORK := NO_BOUNDARY.(network := true)
  const SYSTEM := NO_BOUNDARY.(system := true)

  datatype Semantic = Semantic(intent: Intent, field: Option<PolicyField>, boundaries: Boundaries)

  function CapabilitySemantic(cap: string): Option<Semantic>
  {
    match cap
    case "apps.open" => Some(Semantic(Mutating, Some(OpenApps), SYSTEM))
    case "network.change" => Some(Semantic(Mutating, Some(NetworkChanges), NETWORK))
    case "install.packages" => Some(Semantic(Mutating, Some(Installs), SYSTEM.Or(NETWORK)))
    case "file.delete" => Some(Semantic(Destructive, Some(FileDelete), FILESYSTEM))
    case "system.settings" => Some(Semantic(Mutating, Some(SystemSettings), SYSTEM))
    case "state.read" => Some(Semantic(ReadOnly, None, SYSTEM))
    case "files.read" => Some(Semantic(ReadOnly, None, FILESYSTEM))
    case "files.write" => Some(Semantic(Mutating, None, FILESYSTEM))
    case "clipboard.read" => Some(Semantic(ReadOnly, None, SYSTEM))
    case "clipboard.write" => Some(Semantic(Mutating, None, SYSTEM))
    case "window.read" => Some(Semantic(ReadOnly, None, SYSTEM))
    case "sandbox.exec" => Some(Semantic(Mutating, None, SYSTEM.Or(FILESYSTEM)))
    case _ => None
  }

  datatype FsScope = WorkspaceOnly | ReadOnlyScope | Broader

  datatype Manifest = Manifest(capabilities: seq<string>, highRisk: bool, sandbox: bool, needsNetwork: bool, fsScope: FsScope)

  // ----- semantics of a manifest

  function MaxIntent(a: Intent, b: Intent): Intent
  {
    if b.Rank() > a.Rank() then b else a
  }

  function CapIntent(cap: string): Intent
  {
    match CapabilitySemantic(cap)
    case Some(s) => s.intent
    case None => ReadOnly
  }

  function CapBoundaries(cap: string): Boundaries
  {
    match CapabilitySemantic(cap)
    case Some(s) => s.boundaries
    case None => NO_BOUNDARY
  }

  function JoinIntents(caps: seq<string>): Intent
  {
    if caps == [] then ReadOnly else MaxIntent(JoinIntents(caps[..|caps| - 1]), CapIntent(caps[|caps| - 1]))
  }

  function JoinBoundaries(caps: seq<string>): Boundaries
  {
    if caps == [] then NO_BOUNDARY else JoinBoundaries(caps[..|caps| - 1]).Or(CapBoundaries(caps[|caps| - 1]))
  }

  datatype Projection = Projection(intent: Intent, boundaries: Boundaries)

  function Project(m: Manifest): Projection
  {
    var intent := JoinIntents(m.capabilities);
    Projection(if m.fsScope == Broader && intent == ReadOnly then Mutating else intent,
               JoinBoundaries(m.capabilities).Or(NO_BOUNDARY.(network := m.needsNetwork)))
  }

  method ManifestCapabilitySemantics(m: Manifest) returns (p: Projection)
    ensures p == Project(m)
  {
    var intent, boundaries := ReadOnly, NO_BOUNDARY;
    for i := 0 to |m.capabilities|
      invariant intent == JoinIntents(m.capabilities[..i]) && boundaries == JoinBoundaries(m.capabilities[..i])
    {
      assert m.capabilities[..i + 1][..i] == m.capabilities[..i];
      var semantic := CapabilitySemantic(m.capabilities[i]);
      if semantic.Some? {
        boundaries := boundaries.Or(semantic.value.boundaries);
        if semantic.value.intent.Rank() > intent.Rank() {
          intent := semantic.value.intent;
        }
      }
    }
    assert m.capabilities[..|m.capabilities|] == m.capabilities;
    if m.fsScope == Broader && intent == ReadOnly {
      intent := Mutating;
    }
    p := Projection(intent, boundaries.(network := boundaries.network || m.needsNetwork));
  }

  // ----- the decision

  function CapDecision(cap: string, policy: PolicyApprovals): Decision
  {
    match CapabilitySemantic(cap)
    case None => Ask
    case Some(s) => if s.field.Some? then policy.At(s.field.value) else Allow
  }

  function JoinDecisions(caps: seq<string>, policy: PolicyApprovals): Decision
  {
    if caps == [] then Allow else Join(JoinDecisions(caps[..|caps| - 1], policy), CapDecision(caps[|caps| - 1], policy))
  }

  /** The reasons, other than a capability's own policy, to ask. */
  predicate Escalates(m: Manifest, networkArg: bool)
  {
    Project(m).boundaries.network || m.fsScope == Broader || m.highRisk || (m.sandbox && networkArg)
  }

  function Decided(m: Manifest, policy: PolicyApprovals, networkArg: bool): Decision
  {
    Join(JoinDecisions(m.capabilities, policy), if Escalates(m, networkArg) then Ask else Allow)
  }

  /** `networkArg` is the truth of the argument `network`. */
  method Decide(m: Manifest, policy: PolicyApprovals, networkArg: bool) returns (decision: Decision)
    ensures decision == Decided(m, policy, networkArg)
  {
    hide CapabilitySemantic;
    decision := Allow;
    var semantics := ManifestCapabilitySemantics(m);
    for i := 0 to |m.capabilities|
      invariant decision == JoinDecisions(m.capabilities[..i], policy)
    {
      assert m.capabilities[..i + 1][..i] == m.capabilities[..i];
      var semantic := CapabilitySemantic(m.capabilities[i]);
      var capDecision := Ask;
      if semantic.Some? {
        capDecision := if semantic.value.field.Some? then policy.At(semantic.value.field.value) else Allow;
      }
      if capDecision == Deny {
        decision := Deny;
      } else if capDecision == Ask && decision != Deny {
        decision := Ask;
      }
    }
    assert m.capabilities[..|m.capabilities|] == m.capabilities;
    if semantics.boundaries.network && decision == Allow { decision := Ask; }
    if m.fsScope == Broader && decision == Allow { decision := Ask; }
    if m.highRisk && decision == Allow { decision := Ask; }
    if m.sandbox {
      if networkArg && decision == Allow { decision := Ask; }
    }
  }

  /** The least decision that is at or above that of every capability. */
  lemma {:induction false} JoinIsLeastUpperBound(caps: seq<string>, policy: PolicyApprovals, d: Decision)
    ensures Leq(JoinDecisions(caps, policy), d) <==> forall cap :: cap in caps ==> Leq(CapDecision(cap, policy), d)
  {
    hide CapDecision;
    if caps != [] {
      var n := |caps| - 1;
      JoinIsLeastUpperBound(caps[..n], policy, d);
      assert caps == caps[..n] + [caps[n]];
    }
  }

  lemma {:induction false} BoundariesAreAnyOf(caps: seq<string>)
    ensures JoinBoundaries(caps).network <==> exists cap :: cap in caps && CapBoundaries(cap).network
    ensures JoinBoundaries(caps).filesystem <==> exists cap :: cap in caps && CapBoundaries(cap).filesystem
    ensures JoinBoundaries(caps).system <==> exists cap :: cap in caps && CapBoundaries(cap).system
    ensures JoinBoundaries(caps).secrets <==> exists cap :: cap in caps && CapBoundaries(cap).secrets
  {
    hide CapBoundaries;
    if caps != [] {
      var n := |caps| - 1;
      BoundariesAreAnyOf(caps[..n]);
      assert caps == caps[..n] + [caps[n]];
    }
  }

  /** Nothing in the manifest, but what its capabilities bring, makes it ask. */
  predicate Plain(m: Manifest, networkArg: bool)
  {
    !m.needsNetwork && m.fsScope != Broader && !m.highRisk && !(m.sandbox && networkArg)
  }

  /** Denied exactly when a capability is; allowed exactly when every capability is, none reaches the network, and nothing else asks. */
  lemma DecisionMeans(m: Manifest, policy: PolicyApprovals, networkArg: bool)
    ensures Decided(m, policy, networkArg) == Deny <==> exists cap :: cap in m.capabilities && CapDecision(cap, policy) == Deny
    ensures Decided(m, policy, networkArg) == Allow <==>
              Plain(m, networkArg) &&
              forall cap :: cap in m.capabilities ==> CapDecision(cap, policy) == Allow && !CapBoundaries(cap).network
  {
    hide CapDecision, CapBoundaries;
    JoinIsLeastUpperBound(m.capabilities, policy, Ask);
    JoinIsLeastUpperBound(m.capabilities, policy, Allow);
    BoundariesAreAnyOf(m.capabilities);
  }

  const KNOWN_CAPABILITIES: set<string> :=
    {"apps.open", "network.change", "install.packages", "file.delete", "system.settings", "state.read", "files.read",
     "files.write", "clipboard.read", "clipboard.write", "window.read", "sandbox.exec"}

  /** A capability that the manifest declares is denied by the field of the policy that governs it. */
  predicate RefusedByField(caps: seq<string>, policy: PolicyApprovals)
  {
    || ("apps.open" in caps && policy.openApps == Deny)
    || ("network.change" in caps && policy.networkChanges == Deny)
    || ("install.packages" in caps && policy.installs == Deny)
    || ("file.delete" in caps && policy.fileDelete == Deny)
    || ("system.settings" in caps && policy.systemSettings == Deny)
  }

  /** The capability is known, does not reach the network, and its own field, if it has one, allows it. */
  predicate AllowedByField(cap: string, policy: PolicyApprovals)
  {
    && cap in KNOWN_CAPABILITIES && cap !in ["network.change", "install.packages"]
    && (cap == "apps.open" ==> policy.openApps == Allow)
    && (cap == "file.delete" ==> policy.fileDelete == Allow)
    && (cap == "system.settings" ==> policy.systemSettings == Allow)
  }

  /**
   The decision in terms of the policy's fields. Denied: a declared capability is denied by its own field. Allowed: only
   known capabilities are declared, no network change and no installation among them, the fields of the others allow
   them, and nothing else in the manifest or the arguments asks. All else asks.
   */
  lemma DecisionInPolicyFields(m: Manifest, policy: PolicyApprovals, networkArg: bool)
    ensures Decided(m, policy, networkArg) == Deny <==> RefusedByField(m.capabilities, policy)
    ensures Decided(m, policy, networkArg) == Allow <==>
              && (forall cap :: cap in m.capabilities ==> AllowedByField(cap, policy))
              && !m.needsNetwork && m.fsScope != Broader && !m.highRisk && !(m.sandbox && networkArg)
  {
    hide Decided, CapDecision, CapBoundaries, KNOWN_CAPABILITIES;
    DecisionMeans(m, policy, networkArg);
    forall cap
      ensures CapDecision(cap, policy) == Deny <==> RefusedByField([cap], policy)
      ensures CapDecision(cap, policy) == Allow && !CapBoundaries(cap).network <==> AllowedByField(cap, policy)
    {
      CapabilityAnswers(cap, policy);
    }
  }

  lemma CapabilityAnswers(cap: string, policy: PolicyApprovals)
    ensures CapDecision(cap, policy) == Deny <==> RefusedByField([cap], policy)
    ensures CapDecision(cap, policy) == Allow && !CapBoundaries(cap).network <==> AllowedByField(cap, policy)
  {
  }

  lemma {:induction false} IntentsAreGreatest(caps: seq<string>)
    ensures JoinIntents(caps) == Destructive <==> exists cap :: cap in caps && CapIntent(cap) == Destructive
    ensures JoinIntents(caps) == ReadOnly <==> forall cap :: cap in caps ==> CapIntent(cap) == ReadOnly
  {
    hide CapIntent;
    if caps != [] {
      var n := |caps| - 1;
      IntentsAreGreatest(caps[..n]);
      assert caps == caps[..n] + [caps[n]];
    }
  }

  const MUTATING: seq<string> :=
    ["file.delete", "apps.open", "network.change", "install.packages", "system.settings", "files.write", "clipboard.write",
     "sandbox.exec"]

  const ON_FILES: seq<string> := ["file.delete", "files.read", "files.write", "sandbox.exec"]

  const ON_SYSTEM: seq<string> :=
    ["apps.open", "install.packages", "system.settings", "state.read", "clipboard.read", "clipboard.write", "window.read",
     "sandbox.exec"]

  /** What a manifest projects, in terms of the capabilities it declares; unknown ones add nothing. */
  lemma ProjectionInCapabilities(m: Manifest)
    ensures var p, caps := Project(m), m.capabilities;
            && (p.intent == Destructive <==> "file.delete" in caps)
            && (p.intent == ReadOnly <==> m.fsScope != Broader && forall cap :: cap in caps ==> cap !in MUTATING)
            && (p.boundaries.filesystem <==> exists cap :: cap in caps && cap in ON_FILES)
            && (p.boundaries.network <==> m.needsNetwork || "network.change" in caps || "install.packages" in caps)
            && (p.boundaries.system <==> exists cap :: cap in caps && cap in ON_SYSTEM)
            && !p.boundaries.secrets
  {
    hide CapIntent, CapBoundaries, JoinIntents, JoinBoundaries;
    IntentsAreGreatest(m.capabilities);
    BoundariesAreAnyOf(m.capabilities);
    forall cap
      ensures CapIntent(cap) == Destructive <==> cap == "file.delete"
      ensures CapIntent(cap) == ReadOnly <==> cap !in MUTATING
      ensures CapBoundaries(cap).filesystem <==> cap in ON_FILES
      ensures CapBoundaries(cap).network <==> cap in ["network.change", "install.packages"]
      ensures CapBoundaries(cap).system <==> cap in ON_SYSTEM
      ensures !CapBoundaries(cap).secrets
    {
      CapabilityProjects(cap);
    }
  }

  lemma CapabilityProjects(cap: string)
    ensures CapIntent(cap) == Destructive <==> cap == "file.delete"
    ensures CapIntent(cap) == ReadOnly <==> cap !in MUTATING
    ensures CapBoundaries(cap).filesystem <==> cap in ON_FILES
    ensures CapBoundaries(cap).network <==> cap in ["network.change", "install.packages"]
    ensures CapBoundaries(cap).system <==> cap in ON_SYSTEM
    ensures !CapBoundaries(cap).secrets
  {
  }

  predicate Tighter(p: PolicyApprovals, q: PolicyApprovals)
  {
    forall field: PolicyField :: Leq(p.At(field), q.At(field))
  }

  /** At least as demanding in every respect, whatever the order or repetition of the capabilities. */
  ghost predicate Asks(m: Manifest, n: Manifest)
  {
    && (forall cap :: cap in m.capabilities ==> cap in n.capabilities)
    && (m.highRisk ==> n.highRisk) && (m.sandbox ==> n.sandbox) && (m.needsNetwork ==> n.needsNetwork)
    && (m.fsScope == Broader ==> n.fsScope == Broader)
  }

  /** Adding a capability or a demand, or tightening a policy field, never loosens the decision. */
  lemma DecisionIsMonotone(m: Manifest, n: Manifest, p: PolicyApprovals, q: PolicyApprovals, a: bool, b: bool)
    requires Asks(m, n) && Tighter(p, q) && (a ==> b)
    ensures Leq(Decided(m, p, a), Decided(n, q, b))
  {
    hide CapBoundaries, CapabilitySemantic;
    var d := JoinDecisions(n.capabilities, q);
    JoinIsLeastUpperBound(m.capabilities, p, d);
    JoinIsLeastUpperBound(n.capabilities, q, d);
    forall cap | cap in m.capabilities ensures Leq(CapDecision(cap, p), d) {
      assert Leq(CapDecision(cap, q), d);
      assert CapabilitySemantic(cap).Some? && CapabilitySemantic(cap).value.field.Some? ==>
          Leq(p.At(CapabilitySemantic(cap).value.field.value), q.At(CapabilitySemantic(cap).value.field.value));
    }
    BoundariesAreAnyOf(m.capabilities);
    BoundariesAreAnyOf(n.capabilities);
  }

  lemma OrderDoesNotMatter(m: Manifest, caps: seq<string>, policy: PolicyApprovals, networkArg: bool)
    requires forall cap :: cap in caps <==> cap in m.capabilities
    ensures Decided(m.(capabilities := caps), policy, networkArg) == Decided(m, policy, networkArg)
  {
    hide Decided;
    DecisionIsMonotone(m, m.(capabilities := caps), policy, policy, networkArg, networkArg);
    DecisionIsMonotone(m.(capabilities := caps), m, policy, policy, networkArg, networkArg);
  }

  /** Even a policy that allows everything asks for network changes and installs: they reach the network. */
  lemma AllowingNetworkChangesStillAsks(m: Manifest, policy: PolicyApprovals, networkArg: bool)
    requires "network.change" in m.capabilities || "install.packages" in m.capabilities
    ensures Decided(m, policy, networkArg) != Allow
  {
    DecisionMeans(m, policy, networkArg);
    assert CapBoundaries("network.change").network && CapBoundaries("install.packages").network;
  }

  // ----- the verdict at run time

  /** A network argument that asks for the network: true, or one of four words. */
  predicate Requested(network: Value)
  {
    network == Flag(true) || (network.Words? && Lower(Strip(network.s)) in ["1", "true", "yes", "on"])
  }

  /** At least one capability; all of them, stripped, known and different. */
  predicate WellDeclared(caps: seq<string>)
  {
    && caps != []
    && (forall k :: 0 <= k < |caps| ==> Strip(caps[k]) != [] && CapabilitySemantic(Strip(caps[k])).Some?)
    && (forall j, k :: 0 <= j < k < |caps| ==> Strip(caps[j]) != Strip(caps[k]))
  }

  /** Runtime arguments that exceed the declared network scope. */
  predicate Oversteps(m: Manifest, network: Value)
  {
    !m.needsNetwork && Requested(network)
  }

  function Enforced(m: Manifest, policy: PolicyApprovals, network: Value): Decision
  {
    if !WellDeclared(m.capabilities) || Oversteps(m, network) then Deny else Decided(m, policy, Truthy(network))
  }

  function Members(xs: seq<string>): set<string>
  {
    set x | x in xs
  }

  lemma {:induction false} DistinctIffAsManyMembers(xs: seq<string>)
    ensures |Members(xs)| <= |xs|
    ensures |Members(xs)| == |xs| <==> forall j, k :: 0 <= j < k < |xs| ==> xs[j] != xs[k]
  {
    if xs != [] {
      var n := |xs| - 1;
      var front := xs[..n];
      DistinctIffAsManyMembers(front);
      var before, all := Members(front), Members(xs);
      assert all == before + {xs[n]};
      if xs[n] in front {
        var j :| 0 <= j < n && front[j] == xs[n];
        assert all == before && xs[j] == xs[n];
      } else {
        assert |all| == |before| + 1;
        forall j | 0 <= j < n ensures xs[j] != xs[n] {
          assert front[j] in front;
        }
        assert forall j, k :: 0 <= j < k < n ==> (front[j] != front[k] <==> xs[j] != xs[k]);
      }
    }
  }

  /** The checks in the order in which they are made; the policy is asked last. */
  method EnforceRuntimeCapabilities(m: Manifest, policy: PolicyApprovals, network: Value) returns (decision: Decision)
    ensures decision == Enforced(m, policy, network)
  {
    hide CapabilitySemantic, Decided, Strip, Requested;
    var caps := m.capabilities;
    if caps == [] {
      return Deny;
    }
    var normalized: seq<string> := [];
    for i := 0 to |caps|
      invariant |normalized| == i
      invariant forall k :: 0 <= k < i ==> normalized[k] == Strip(caps[k]) && normalized[k] != []
    {
      if Strip(caps[i]) == [] {
        return Deny;
      }
      normalized := normalized + [Strip(caps[i])];
    }
    DistinctIffAsManyMembers(normalized);
    if |Members(normalized)| != |normalized| {
      return Deny;
    }
    for i := 0 to |normalized|
      invariant forall k :: 0 <= k < i ==> CapabilitySemantic(Strip(caps[k])).Some?
    {
      if CapabilitySemantic(normalized[i]).None? {
        return Deny;
      }
    }
    if !m.needsNetwork && Requested(network) {
      return Deny;
    }
    decision := Decide(m, policy, Truthy(network));
  }

  /** Some capability is declared; stripped, all are known and different. */
  predicate PassesTheChecks(caps: seq<string>)
  {
    && caps != []
    && (forall k :: 0 <= k < |caps| ==> Strip(caps[k]) in KNOWN_CAPABILITIES)
    && (forall j, k :: 0 <= j < k < |caps| ==> Strip(caps[j]) != Strip(caps[k]))
  }

  /** The run never loosens the dry run's verdict, and changes it exactly by denying what the dry run does not. */
  lemma VerdictsAgreeIff(m: Manifest, policy: PolicyApprovals, network: Value)
    ensures Leq(Decided(m, policy, Truthy(network)), Enforced(m, policy, network))
    ensures Enforced(m, policy, network) == Decided(m, policy, Truthy(network)) <==>
              RefusedByField(m.capabilities, policy) ||
              (PassesTheChecks(m.capabilities) &&
               (m.needsNetwork ||
                !(network == Flag(true) || (network.Words? && Lower(Strip(network.s)) in {"1", "true", "yes", "on"}))))
  {
    hide CapabilitySemantic, Decided, Strip, Lower, RefusedByField;
    DecisionInPolicyFields(m, policy, Truthy(network));
    forall cap ensures CapabilitySemantic(cap).Some? <==> cap in KNOWN_CAPABILITIES {
      KnownHaveSemantics(cap);
    }
  }

  lemma KnownHaveSemantics(cap: string)
    ensures CapabilitySemantic(cap).Some? <==> cap in KNOWN_CAPABILITIES
  {
  }

  // ----- the dry run of a mission

  /** `network` is the argument of that name. */
  datatype Step = Step(manifest: Manifest, network: Value)

  datatype DryRun = DryRun(projection: Projection, approvalsRequired: nat, blocked: bool)

  function Simulated(steps: seq<Step>, policy: PolicyApprovals): DryRun
  {
    if steps == [] then DryRun(Projection(ReadOnly, NO_BOUNDARY), 0, false)
    else
      var n := |steps| - 1;
      var front := Simulated(steps[..n], policy);
      var p := Project(steps[n].manifest);
      var d := Decided(steps[n].manifest, policy, Truthy(steps[n].network));
      DryRun(Projection(MaxIntent(front.projection.intent, p.intent), front.projection.boundaries.Or(p.boundaries)),
             front.approvalsRequired + if d == Ask then 1 else 0, front.blocked || d == Deny)
  }

  method Simulate(steps: seq<Step>, policy: PolicyApprovals) returns (r: DryRun)
    ensures r == Simulated(steps, policy)
  {
    hide Decided, Project;
    var intent, boundaries := ReadOnly, NO_BOUNDARY;
    var approvalsRequired, blocked := 0, false;
    for i := 0 to |steps|
      invariant DryRun(Projection(intent, boundaries), approvalsRequired, blocked) == Simulated(steps[..i], policy)
    {
      assert steps[..i + 1][..i] == steps[..i];
      var semantics := ManifestCapabilitySemantics(steps[i].manifest);
      boundaries := boundaries.Or(semantics.boundaries);
      if semantics.intent.Rank() > intent.Rank() {
        intent := semantics.intent;
      }
      var decision := Decide(steps[i].manifest, policy, Truthy(steps[i].network));
      approvalsRequired := approvalsRequired + if decision == Ask then 1 else 0;
      blocked := blocked || decision == Deny;
    }
    assert steps[..|steps|] == steps;
    r := DryRun(Projection(intent, boundaries), approvalsRequired, blocked);
  }

  /** One manifest with the capabilities and demands of all steps. */
  function Merged(steps: seq<Step>): Manifest
  {
    if steps == [] then Manifest([], false, false, false, WorkspaceOnly)
    else
      var n := |steps| - 1;
      var front, m := Merged(steps[..n]), steps[n].manifest;
      Manifest(front.capabilities + m.capabilities, front.highRisk || m.highRisk, front.sandbox || m.sandbox,
               front.needsNetwork || m.needsNetwork, if front.fsScope == Broader then Broader else m.fsScope)
  }

  lemma {:induction false} JoinsDistribute(a: seq<string>, b: seq<string>)
    ensures JoinIntents(a + b) == MaxIntent(JoinIntents(a), JoinIntents(b))
    ensures JoinBoundaries(a + b) == JoinBoundaries(a).Or(JoinBoundaries(b))
  {
    hide CapIntent, CapBoundaries;
    if b == [] {
      assert a + b == a;
    } else {
      var n := |b| - 1;
      JoinsDistribute(a, b[..n]);
      assert (a + b)[..|a + b| - 1] == a + b[..n];
    }
  }

  /** The mission's intent and boundaries are those of one skill that has the capabilities of all its steps. */
  lemma {:induction false} MissionProjectsAsOneSkill(steps: seq<Step>, policy: PolicyApprovals)
    ensures Simulated(steps, policy).projection == Project(Merged(steps))
  {
    hide Decided;
    if steps != [] {
      var n := |steps| - 1;
      MissionProjectsAsOneSkill(steps[..n], policy);
      JoinsDistribute(Merged(steps[..n]).capabilities, steps[n].manifest.capabilities);
    }
  }

  predicate StepIs(s: Step, policy: PolicyApprovals, d: Decision)
  {
    Decided(s.manifest, policy, Truthy(s.network)) == d
  }

  /** Blocked exactly when a step is denied; ready without any approval exactly when every step is allowed. */
  lemma {:induction false} DryRunMeans(steps: seq<Step>, policy: PolicyApprovals)
    ensures var r := Simulated(steps, policy);
            && (r.blocked <==> exists k :: 0 <= k < |steps| && StepIs(steps[k], policy, Deny))
            && (r.approvalsRequired == 0 && !r.blocked <==> forall k :: 0 <= k < |steps| ==> StepIs(steps[k], policy, Allow))
  {
    hide Decided, Project;
    if steps != [] {
      var n := |steps| - 1;
      DryRunMeans(steps[..n], policy);
      forall k | 0 <= k < n ensures steps[..n][k] == steps[k] {
      }
    }
  }

  function Asked(steps: seq<Step>, policy: PolicyApprovals): set<nat>
  {
    set k: nat | k < |steps| && StepIs(steps[k], policy, Ask)
  }

  /** As many approvals as steps that will ask. */
  lemma {:induction false} ApprovalsAreTheAskingSteps(steps: seq<Step>, policy: PolicyApprovals)
    ensures Simulated(steps, policy).approvalsRequired == |Asked(steps, policy)|
  {
    hide Decided, Project;
    if steps != [] {
      var n := |steps| - 1;
      ApprovalsAreTheAskingSteps(steps[..n], policy);
      var before := Asked(steps[..n], policy);
      assert Asked(steps, policy) == if StepIs(steps[n], policy, Ask) then before + {n} else before;
    }
  }
}
