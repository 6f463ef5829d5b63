/** Approval prompts, one-shot tokens and standing grants (src/voxera/core/queue_approvals.py). */
module Approvals {
  import opened Decisions
  import opened Text
  import opened Wrappers

  datatype Scope = Scope(fsScope: string, needsNetwork: bool)

  /** A scope as it is found in an artifact: either field may be missing. */
  datatype RawScope = RawScope(fsScope: Option<string>, needsNetwork: Option<bool>)

  function Normalized(raw: RawScope): Scope
  {
    Scope(if raw.fsScope.Some? then raw.fsScope.value else "workspace_only",
          raw.needsNetwork.Some? && raw.needsNetwork.value)
  }

  datatype Grant = Grant(skill: string, capability: string, scope: Scope)

  datatype Manifest = Manifest(id: string, capabilities: seq<string>, scope: Scope)

  // ----- standing grants

  predicate HasGrant(grants: seq<Grant>, skill: string, capability: string, raw: RawScope)
  {
    Grant(skill, capability, Normalized(raw)) in grants
  }

  function WithGrant(grants: seq<Grant>, skill: string, capability: string, raw: RawScope): seq<Grant>
  {
    if HasGrant(grants, skill, capability, raw) then grants
    else grants + [Grant(skill, capability, Normalized(raw))]
  }

  datatype Request = Request(skill: string, capability: string, raw: RawScope)

  function AfterRequests(requests: seq<Request>): seq<Grant>
  {
    if requests == [] then []
    else
      var r := requests[|requests| - 1];
      WithGrant(AfterRequests(requests[..|requests| - 1]), r.skill, r.capability, r.raw)
  }

  predicate Asks(r: Request, g: Grant)
  {
    Grant(r.skill, r.capability, Normalized(r.raw)) == g
  }

  /** A lookup succeeds exactly for what was granted, up to normalisation of the scope. */
  lemma {:induction false} LookupFindsExactlyWhatWasGranted(requests: seq<Request>, skill: string, capability: string, raw: RawScope)
    ensures HasGrant(AfterRequests(requests), skill, capability, raw) <==>
      exists r :: r in requests && Asks(r, Grant(skill, capability, Normalized(raw)))
  {
    if requests != [] {
      var front, last := requests[..|requests| - 1], requests[|requests| - 1];
      LookupFindsExactlyWhatWasGranted(front, skill, capability, raw);
      var g := Grant(skill, capability, Normalized(raw));
      assert requests == front + [last];
      assert HasGrant(AfterRequests(requests), skill, capability, raw) <==> g in AfterRequests(front) || Asks(last, g);
      if r :| r in requests && Asks(r, g) {
        assert r in front || r == last;
      }
      if r :| r in front && Asks(r, g) {
        assert r in requests;
      }
    }
  }

  /** Nothing is stored twice. */
  lemma {:induction false} GrantsAreDistinct(requests: seq<Request>, i: nat, j: nat)
    requires i < j < |AfterRequests(requests)|
    ensures AfterRequests(requests)[i] != AfterRequests(requests)[j]
  {
    var front := AfterRequests(requests[..|requests| - 1]);
    if j < |front| {
      GrantsAreDistinct(requests[..|requests| - 1], i, j);
    } else {
      assert front[i] in front;
    }
  }

  // ----- which capability a grant is for

  /** The prompt looks at the capability that the policy's reasons name first: the first declared. */
  function AskedCapability(m: Manifest): string
  {
    if m.capabilities == [] then "unknown" else m.capabilities[0]
  }

  function Least(names: seq<string>): string
    requires names != []
  {
    if |names| == 1 then names[0]
    else
      var rest := Least(names[1..]);
      if LexLeq(names[0], rest) then names[0] else rest
  }

  /** The pending artifact records the first capability in sorted order. */
  function RecordedCapability(m: Manifest): string
  {
    if m.capabilities == [] then "unknown" else Least(m.capabilities)
  }

  function GrantAsked(m: Manifest): Grant
  {
    Grant(m.id, AskedCapability(m), m.scope)
  }

  function AsRaw(s: Scope): RawScope
  {
    RawScope(Some(s.fsScope), Some(s.needsNetwork))
  }

  /**
   "Approve always" answers later prompts for the skill exactly when the first declared capability is
   also the first in sorted order (or a grant was there before).
   */
  lemma ApproveAlwaysWorksIffFirstIsLeast(grants: seq<Grant>, m: Manifest)
    ensures GrantAsked(m) in WithGrant(grants, m.id, RecordedCapability(m), AsRaw(m.scope)) <==>
      GrantAsked(m) in grants || m.capabilities == [] ||
      forall c :: c in m.capabilities ==> LexLeq(m.capabilities[0], c)
  {
    if m.capabilities != [] {
      LeastIsLeast(m.capabilities);
      var first, least := m.capabilities[0], Least(m.capabilities);
      if forall c :: c in m.capabilities ==> LexLeq(first, c) {
        LexAntisymmetric(first, least);
      }
    }
  }

  lemma {:induction false} LeastIsLeast(names: seq<string>)
    requires names != []
    ensures Least(names) in names
    ensures forall n :: n in names ==> LexLeq(Least(names), n)
  {
    if |names| > 1 {
      var rest := Least(names[1..]);
      LeastIsLeast(names[1..]);
      LexTotal(names[0], rest);
      forall n | n in names ensures LexLeq(Least(names), n) {
        LexTotal(n, n);
        if n in names[1..] { LexTransitive(Least(names), rest, n); }
      }
      LexTotal(rest, rest);
    } else {
      LexTotal(names[0], names[0]);
    }
  }

  /** A skill whose declared order hides the grant. */
  lemma ApproveAlwaysCanMiss()
    ensures var m := Manifest("example.skill", ["network.change", "apps.open"], Scope("workspace_only", true));
            GrantAsked(m) !in WithGrant([], m.id, RecordedCapability(m), AsRaw(m.scope))
  {
  }

  // ----- the prompt

  datatype JobRef = NoJob | InInbox(stem: string) | InPending(stem: string)

  datatype Key = Key(job: JobRef, step: nat, skill: string)

  datatype Event =
    | Approved(key: Key)
    | Denied(stem: string)
    | Retried(stem: string)
    | Granted(grant: Grant)
    | TokenUsed(key: Key)
    | GrantUsed(key: Key, grant: Grant)
    | DevAllowed(key: Key, capability: string)
    | Executed(key: Key)

  const DEV_ALLOWLIST: set<string> := {"system.settings"}

  /** What the prompt reads and changes, and the history of answers. */
  datatype Desk = Desk(tokens: set<Key>, grants: seq<Grant>, log: seq<Event>)
  {
    function Record(e: Event): Desk
    {
      this.(log := log + [e])
    }
  }

  datatype Answer = Yes | Pending

  /** `dev` says that the daemon auto-approves in development mode. */
  function Prompt(d: Desk, dev: bool, key: Key, m: Manifest): (Desk, Answer)
  {
    if key in d.tokens then (d.(tokens := d.tokens - {key}).Record(TokenUsed(key)), Yes)
    else if GrantAsked(m) in d.grants then (d.Record(GrantUsed(key, GrantAsked(m))), Yes)
    else if dev && AskedCapability(m) in DEV_ALLOWLIST then (d.Record(DevAllowed(key, AskedCapability(m))), Yes)
    else (d, Pending)
  }

  // ----- lawful histories

  function Approvals(log: seq<Event>, key: Key): nat
  {
    if log == [] then 0
    else Approvals(log[..|log| - 1], key) + if log[|log| - 1] == Approved(key) then 1 else 0
  }

  function Uses(log: seq<Event>, key: Key): nat
  {
    if log == [] then 0
    else Uses(log[..|log| - 1], key) + if log[|log| - 1] == TokenUsed(key) then 1 else 0
  }

  predicate IsAnswer(e: Event, key: Key)
  {
    match e
    case TokenUsed(k) => k == key
    case GrantUsed(k, _) => k == key
    case DevAllowed(k, _) => k == key
    case _ => false
  }

  /**
   What a history has to obey: the registered skills, the grants that were there at the start, and the
   policy's verdict on the step a key stands for (Deny if it stands for none).
   */
  datatype Rules = Rules(dev: bool, manifests: map<string, Manifest>, verdict: Key -> Decision, initial: seq<Grant>)

  /**
   What justifies an event, given everything before it: an unused approval of the same key; the very grant
   that the skill's prompt looks for; the allowlist entry of the capability it asks about; and for an
   execution a verdict that allows it, or asks and has been answered just before.
   */
  predicate Justified(before: seq<Event>, e: Event, rules: Rules)
  {
    match e
    case TokenUsed(key) => Uses(before, key) < Approvals(before, key)
    case GrantUsed(key, g) =>
      && key.skill in rules.manifests && g == GrantAsked(rules.manifests[key.skill])
      && (g in rules.initial || Granted(g) in before)
    case DevAllowed(key, capability) =>
      && rules.dev && capability in DEV_ALLOWLIST
      && key.skill in rules.manifests && capability == AskedCapability(rules.manifests[key.skill])
    case Executed(key) =>
      && key.skill in rules.manifests && !rules.verdict(key).Deny?
      && (rules.verdict(key).Ask? ==> before != [] && IsAnswer(before[|before| - 1], key))
    case _ => true
  }

  predicate Lawful(log: seq<Event>, rules: Rules)
  {
    log == [] || (Lawful(log[..|log| - 1], rules) && Justified(log[..|log| - 1], log[|log| - 1], rules))
  }

  lemma {:induction false} LawfulAt(log: seq<Event>, rules: Rules, i: nat)
    requires Lawful(log, rules) && i < |log|
    ensures Justified(log[..i], log[i], rules)
  {
    var front := log[..|log| - 1];
    if i < |front| {
      LawfulAt(front, rules, i);
      assert front[..i] == log[..i];
    }
  }

  /** The history is lawful, unused tokens are covered by approvals, and grants by the history. */
  ghost predicate InOrder(d: Desk, rules: Rules)
  {
    && Lawful(d.log, rules)
    && (forall key :: Uses(d.log, key) + (if key in d.tokens then 1 else 0) <= Approvals(d.log, key))
    && (forall g :: g in d.grants ==> g in rules.initial || Granted(g) in d.log)
  }

  lemma RecordLaws(d: Desk, e: Event, key: Key, rules: Rules)
    ensures Approvals(d.Record(e).log, key) == Approvals(d.log, key) + if e == Approved(key) then 1 else 0
    ensures Uses(d.Record(e).log, key) == Uses(d.log, key) + if e == TokenUsed(key) then 1 else 0
    ensures Lawful(d.Record(e).log, rules) <==> Lawful(d.log, rules) && Justified(d.log, e, rules)
  {
    assert d.Record(e).log[..|d.log|] == d.log;
  }

  /** Recording an event that is neither an approval nor a use of a token keeps the desk in order. */
  lemma RecordKeepsOrder(d: Desk, e: Event, rules: Rules)
    requires InOrder(d, rules) && Justified(d.log, e, rules)
    requires !e.Approved? && !e.TokenUsed?
    ensures InOrder(d.Record(e), rules)
  {
    hide Justified, Lawful, Uses, Approvals;
    forall key {
      RecordLaws(d, e, key, rules);
    }
    RecordLaws(d, e, Key(NoJob, 0, ""), rules);
  }

  /** An operator's approval adds one token. */
  function WithToken(d: Desk, key: Key): Desk
  {
    d.(tokens := d.tokens + {key}).Record(Approved(key))
  }

  lemma ApprovalKeepsOrder(d: Desk, key: Key, rules: Rules)
    requires InOrder(d, rules)
    ensures InOrder(WithToken(d, key), rules)
  {
    hide Lawful, Uses, Approvals;
    var held := d.(tokens := d.tokens + {key});
    forall k {
      RecordLaws(held, Approved(key), k, rules);
    }
    RecordLaws(held, Approved(key), key, rules);
  }

  lemma TokenKeepsOrder(d: Desk, key: Key, rules: Rules)
    requires InOrder(d, rules) && key in d.tokens
    ensures InOrder(d.(tokens := d.tokens - {key}).Record(TokenUsed(key)), rules)
  {
    hide Lawful, Uses, Approvals;
    var used := d.(tokens := d.tokens - {key});
    forall k {
      RecordLaws(used, TokenUsed(key), k, rules);
    }
    RecordLaws(used, TokenUsed(key), key, rules);
  }

  /**
   Every answer is justified: by an unused approval of the same key, the grant of the asked capability and
   scope, or the allowlist. A yes leaves exactly the answer in the history; a pending prompt leaves nothing.
   */
  lemma PromptKeepsOrder(d: Desk, key: Key, rules: Rules)
    requires InOrder(d, rules) && key.skill in rules.manifests
    ensures var (d', answer) := Prompt(d, rules.dev, key, rules.manifests[key.skill]);
            && InOrder(d', rules)
            && (answer == Yes ==> exists e :: IsAnswer(e, key) && d'.log == d.log + [e])
            && (answer == Pending ==> d' == d)
            && (key in d.tokens ==> answer == Yes)
  {
    hide InOrder;
    var m := rules.manifests[key.skill];
    var (d', answer) := Prompt(d, rules.dev, key, m);
    if key in d.tokens {
      TokenKeepsOrder(d, key, rules);
      assert IsAnswer(TokenUsed(key), key);
    } else if answer == Yes {
      var e := d'.log[|d.log|];
      assert IsAnswer(e, key) && d' == d.Record(e);
      AnswerIsJustified(d, key, rules);
      RecordKeepsOrder(d, e, rules);
    }
  }

  /** A prompt says yes to a token, which it uses up, to a standing grant, and to the allowlist; it changes no grant. */
  lemma PromptSaysYesIff(d: Desk, dev: bool, key: Key, m: Manifest)
    ensures var (d', answer) := Prompt(d, dev, key, m);
            var asked := if m.capabilities == [] then "unknown" else m.capabilities[0];
            && (answer == Yes <==>
                  key in d.tokens || Grant(m.id, asked, m.scope) in d.grants || (dev && asked == "system.settings"))
            && d'.tokens == d.tokens - {key} && d'.grants == d.grants
  {
  }

  lemma AnswerIsJustified(d: Desk, key: Key, rules: Rules)
    requires InOrder(d, rules) && key.skill in rules.manifests && key !in d.tokens
    ensures var (d', answer) := Prompt(d, rules.dev, key, rules.manifests[key.skill]);
            answer == Yes ==> Justified(d.log, d'.log[|d.log|], rules)
  {
  }

  /** A standing grant is recorded with the history. */
  function Standing(d: Desk, skill: string, capability: string, raw: RawScope): Desk
  {
    d.(grants := WithGrant(d.grants, skill, capability, raw)).Record(Granted(Grant(skill, capability, Normalized(raw))))
  }

  lemma GrantKeepsOrder(d: Desk, skill: string, capability: string, raw: RawScope, rules: Rules)
    requires InOrder(d, rules)
    ensures InOrder(Standing(d, skill, capability, raw), rules)
  {
    var e := Granted(Grant(skill, capability, Normalized(raw)));
    RecordKeepsOrder(d, e, rules);
    var d' := Standing(d, skill, capability, raw);
    assert d'.log[|d.log|] == e;
  }

  /** In a lawful history token-backed answers never outnumber approvals, for any key and at any moment. */
  lemma {:induction false} UsesNeverOutnumberApprovals(log: seq<Event>, key: Key, rules: Rules)
    requires Lawful(log, rules)
    ensures Uses(log, key) <= Approvals(log, key)
  {
    if log != [] {
      UsesNeverOutnumberApprovals(log[..|log| - 1], key, rules);
    }
  }
}
