/** One turn of a conversation, from the stored lead to the stored lead
    (agent/graph.py, db/repository.py). */
module Engine {
  import opened Commercial
  import opened Evidence
  import opened Leads
  import opened TurnNormalizer
  import opened LeadState
  import opened Planner
  import opened Stages
  import opened Objections
  import opened Fulfillment
  import opened Runs

  /** What a turn decides and what it leaves behind. */
  datatype TurnRecord = TurnRecord(state: PlannerState, plan: Plan, move: StageMove, policy: Policy, after: Lead)

  function StateOf(norm: Normalizer, lead: Lead, input: TurnInput): PlannerState {
    var t := Normalize(norm, input, lead);
    var updated := UpdateLead(lead, input, t);
    PlannerState(updated, t, MemoryOf(updated), input.cues, input.paymentConfirmed)
  }

  function Keep(value: Option<Stage>, stored: StoredStage): StoredStage {
    if value.Some? then Stored(value.value) else stored
  }

  /** What `save_memory` writes: an absent stage leaves the stored one in place. */
  function Persisted(lead: Lead, macro: MacroAction, move: StageMove, objection: Objection): Lead {
    lead.(currentStage := Stored(move.current),
          previousStage := Keep(move.previous, lead.previousStage),
          stageBefore := Keep(move.before, lead.stageBefore),
          mode := move.mode,
          objection := objection,
          lastAction := Some(macro))
  }

  function RecordOf(s: PlannerState, p: Plan, message: string): TurnRecord {
    var move := Move(s.lead, p);
    var objection := NextObjection(s.Objection(), s.Analysis(), p, move, message);
    TurnRecord(s, p, move, PolicyOf(s, p, objection), Persisted(s.lead, p.macro, move, objection))
  }

  /** How a plan is made from a state. The engine runs on `PlanFor`; what is
      proved of conversations holds for any policy that keeps its promises. */
  type SalesPolicy = PlannerState -> Plan

  ghost predicate Keeps(policy: SalesPolicy) {
    forall s :: Sound(s, policy(s))
  }

  function TakeTurn(policy: SalesPolicy, norm: Normalizer, lead: Lead, input: TurnInput): TurnRecord {
    var s := StateOf(norm, lead, input);
    RecordOf(s, policy(s), input.message)
  }

  function TurnStep(policy: SalesPolicy, norm: Normalizer): (Lead, TurnInput) -> Lead {
    (lead, input) => TakeTurn(policy, norm, lead, input).after
  }

  /** The lead after a whole conversation. */
  function Converse(policy: SalesPolicy, norm: Normalizer, lead: Lead, inputs: seq<TurnInput>): Lead {
    Run(TurnStep(policy, norm), lead, inputs)
  }

  /** A lead in the store: a record whose fields are overwritten one by one. */
  class StoredLead {
    var currentStage: StoredStage
    var previousStage: StoredStage
    var stageBefore: StoredStage
    var mode: ConversationMode
    var objection: Objection
    var lastAction: Option<MacroAction>
    var businessType: string
    var mainChannel: string
    var pain: string
    var profile: Profile

    /** `upsert_lead` for a key that is not in the store. */
    constructor ()
      ensures Value() == FRESH
    {
      currentStage, previousStage, stageBefore, mode := Stored(New), Blank, Blank, NormalMode;
      objection, lastAction := NO_OBJECTION, None;
      businessType, mainChannel, pain, profile := "", "", "", FRESH.profile;
    }

    function Value(): Lead
      reads this
    {
      Lead(currentStage, previousStage, stageBefore, mode, objection, lastAction,
                 businessType, mainChannel, pain, profile)
    }

    /** The first write of a turn: an empty text never overwrites a known one. */
    method Learn(updated: Lead)
      modifies this
      ensures Value() == old(Value()).(
                businessType := OrElse(updated.businessType, old(businessType)),
                mainChannel := OrElse(updated.mainChannel, old(mainChannel)),
                pain := OrElse(updated.pain, old(pain)),
                profile := updated.profile)
    {
      if updated.businessType != "" {
        businessType := updated.businessType;
      }
      if updated.mainChannel != "" {
        mainChannel := updated.mainChannel;
      }
      if updated.pain != "" {
        pain := updated.pain;
      }
      profile := updated.profile;
    }

    /** The last write of a turn. */
    method Save(macro: MacroAction, move: StageMove, next: Objection)
      modifies this
      ensures Value() == Persisted(old(Value()), macro, move, next)
    {
      currentStage := Stored(move.current);
      if move.previous.Some? {
        previousStage := Stored(move.previous.value);
      }
      if move.before.Some? {
        stageBefore := Stored(move.before.value);
      }
      mode := move.mode;
      objection := next;
      lastAction := Some(macro);
    }

    /** The nodes after the plan: stage, objection, obligations, last write. */
    method Finish(s: PlannerState, plan: Plan, message: string) returns (policy: Policy)
      requires Value() == s.lead
      modifies this
      ensures var r := RecordOf(s, plan, message); Value() == r.after && policy == r.policy
    {
      var move := Transition(s.lead, plan);
      var current := new ActiveObjection(s.Objection());
      var next := current.Transition(s.Analysis(), plan, move, message);
      policy := BuildPolicy(s, plan, next.Value());
      Save(plan.macro, move, next.Value());
    }

    /** The nodes of the graph in their fixed order. */
    method Turn(norm: Normalizer, input: TurnInput) returns (plan: Plan, policy: Policy)
      modifies this
      ensures var r := TakeTurn(PlanFor, norm, old(Value()), input);
              Value() == r.after && plan == r.plan && policy == r.policy
    {
      var t := Normalize(norm, input, Value());
      var updated := UpdateLead(Value(), input, t);
      Learn(updated);
      var s := PlannerState(Value(), t, MemoryOf(Value()), input.cues, input.paymentConfirmed);
      plan := PlanFor(s);
      policy := Finish(s, plan, input.message);
    }
  }

  // ---------- what every turn keeps ----------

  /** A turn seen through what it promises, without how it was computed. */
  ghost predicate Proper(lead: Lead, r: TurnRecord, message: string) {
    var m := r.state.lead;
    && Sound(r.state, r.plan)
    && r.state.memory == MemoryOf(m)
    && KnowsAtLeast(lead, m)
    && m == lead.(businessType := m.businessType, mainChannel := m.mainChannel, pain := m.pain, profile := m.profile)
    && r.move == Move(m, r.plan)
    && r.after == Persisted(m, r.plan.macro, r.move,
                            NextObjection(lead.objection, r.state.Analysis(), r.plan, r.move, message))
    && r.policy == PolicyOf(r.state, r.plan, r.after.objection)
  }

  lemma RecordIsProper(lead: Lead, s: PlannerState, p: Plan, message: string)
    requires Sound(s, p) && s.memory == MemoryOf(s.lead) && KnowsAtLeast(lead, s.lead)
    requires s.lead == lead.(businessType := s.lead.businessType, mainChannel := s.lead.mainChannel,
                             pain := s.lead.pain, profile := s.lead.profile)
    ensures Proper(lead, RecordOf(s, p, message), message)
  {
  }

  lemma StateLearns(norm: Normalizer, lead: Lead, input: TurnInput, s: PlannerState)
    requires s == StateOf(norm, lead, input)
    ensures s.memory == MemoryOf(s.lead) && KnowsAtLeast(lead, s.lead)
    ensures s.lead == lead.(businessType := s.lead.businessType, mainChannel := s.lead.mainChannel,
                            pain := s.lead.pain, profile := s.lead.profile)
    ensures s.turn == Normalize(norm, input, lead) && s.lead == UpdateLead(lead, input, s.turn)
  {
    UpdateOnlyLearns(lead, input, Normalize(norm, input, lead));
  }

  lemma ThePlannerKeeps()
    ensures Keeps(PlanFor)
  {
    forall s ensures Sound(s, PlanFor(s)) {
      PlanIsSound(s, PlanFor(s));
    }
  }

  lemma TurnIsProper(policy: SalesPolicy, norm: Normalizer, lead: Lead, input: TurnInput, r: TurnRecord)
    requires Keeps(policy) && r == TakeTurn(policy, norm, lead, input)
    ensures Proper(lead, r, input.message)
  {
    var s := StateOf(norm, lead, input);
    StateLearns(norm, lead, input, s);
    RecordIsProper(lead, s, policy(s), input.message);
  }
}
