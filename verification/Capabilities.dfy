/** What a model supports: the user's statements laid over the provider's answer, and findings about tools. */
module Capabilities {
  import opened Base

  datatype AttachmentKind = Image | Document | Text

  datatype ReasoningOption = ReasoningOption(id: string, labelText: string)

  datatype ReasoningControl = Unavailable | ModelManaged | Presets(options: seq<ReasoningOption>)

  datatype ThinkingStyle = Adaptive | Manual

  datatype ToolSupport = Supported | Unsupported
  datatype ToolUseBasis = Provider | Curated | Template | SelfTest
  datatype ToolUse = ToolUse(support: ToolSupport, basis: ToolUseBasis)

  datatype UserCapabilities = UserCapabilities(acceptsImages: Option<bool>, effortLevels: Option<seq<string>>)

  datatype ModelCapabilities = ModelCapabilities(
    reasoning: Option<ReasoningControl>,
    acceptedAttachmentKinds: Option<seq<AttachmentKind>>,
    thinkingStyle: Option<ThinkingStyle>,
    toolUse: Option<ToolUse>,
    user: Option<UserCapabilities>)

  // ---- the user's statements ------------------------------------------------------------------------

  function PresetsOf(options: seq<ReasoningOption>): ReasoningControl {
    if options == [] then Unavailable else Presets(options)
  }

  function OptionsOf(levels: seq<string>): (r: seq<ReasoningOption>)
    ensures |r| == |levels| && forall i :: 0 <= i < |levels| ==> r[i] == ReasoningOption(levels[i], levels[i])
  {
    if levels == [] then [] else [ReasoningOption(levels[0], levels[0])] + OptionsOf(levels[1..])
  }

  function WithUserApplied(c: ModelCapabilities): ModelCapabilities {
    if c.user.None? then c
    else
      var user := c.user.value;
      c.(acceptedAttachmentKinds :=
           if user.acceptsImages.None? then c.acceptedAttachmentKinds
           else Some([Text] + (if user.acceptsImages.value then [Image] else [])),
         reasoning :=
           if user.effortLevels.None? then c.reasoning else Some(PresetsOf(OptionsOf(user.effortLevels.value))))
  }

  function WithoutUser(c: ModelCapabilities): ModelCapabilities {
    if c.user.None? then c
    else
      c.(user := None,
         acceptedAttachmentKinds := if c.user.value.acceptsImages.Some? then None else c.acceptedAttachmentKinds,
         reasoning := if c.user.value.effortLevels.Some? then None else c.reasoning)
  }

  function Normalized(c: ModelCapabilities): ModelCapabilities {
    if c.reasoning == Some(Presets([])) then c.(reasoning := Some(Unavailable)) else c
  }

  predicate NothingToChoose(c: ModelCapabilities) {
    c.reasoning == Some(Presets([]))
  }

  /** Laying the statements over twice, or withdrawing what was laid over, is the same as doing it once. */
  lemma ApplyingIsIdempotent(c: ModelCapabilities)
    ensures WithUserApplied(WithUserApplied(c)) == WithUserApplied(c)
    ensures WithoutUser(WithUserApplied(c)) == WithoutUser(c)
    ensures WithUserApplied(WithoutUser(c)) == WithoutUser(c) == WithoutUser(WithoutUser(c))
  {
    if c.user.Some? {
      assert WithUserApplied(c).user == c.user;
    }
  }

  /** The statements and the repair of stored records commute. */
  lemma ApplyingCommutesWithNormalized(c: ModelCapabilities)
    ensures WithUserApplied(Normalized(c)) == Normalized(WithUserApplied(c))
    ensures WithoutUser(Normalized(c)) == Normalized(WithoutUser(c))
  {
    if c.user.Some? && c.user.value.effortLevels.Some? {
      assert !NothingToChoose(WithUserApplied(c));
    }
  }

  /** An empty choice of presets survives exactly when it was stored and the user states no levels. */
  lemma EmptyPresetsIff(c: ModelCapabilities)
    ensures NothingToChoose(WithUserApplied(c))
            <==> NothingToChoose(c) && (c.user.None? || c.user.value.effortLevels.None?)
    ensures !NothingToChoose(WithUserApplied(Normalized(c)))
  {
  }

  /** Only stated fields change, and a stated field no longer depends on the provider. */
  lemma OnlyStatedFieldsChange(c: ModelCapabilities, other: ModelCapabilities)
    requires other.user == c.user
    ensures var d := WithUserApplied(c);
            d.thinkingStyle == c.thinkingStyle && d.toolUse == c.toolUse && d.user == c.user
            && (c.user.None? || c.user.value.acceptsImages.None? ==> d.acceptedAttachmentKinds == c.acceptedAttachmentKinds)
            && (c.user.None? || c.user.value.effortLevels.None? ==> d.reasoning == c.reasoning)
            && (c.user.Some? && c.user.value.acceptsImages.Some? ==>
                  d.acceptedAttachmentKinds == WithUserApplied(other).acceptedAttachmentKinds)
            && (c.user.Some? && c.user.value.effortLevels.Some? ==> d.reasoning == WithUserApplied(other).reasoning)
  {
  }

  // ---- the stored record ----------------------------------------------------------------------------

  predicate IsEmpty(user: UserCapabilities) {
    user.acceptsImages.None? && user.effortLevels.None?
  }

  /** `set_user_capabilities` on a stored record. */
  function Stated(c: ModelCapabilities, user: UserCapabilities): ModelCapabilities {
    if IsEmpty(user) then WithoutUser(c) else WithUserApplied(WithoutUser(c).(user := Some(user)))
  }

  /** A refresh: the provider's answer under what the stored record's user states. */
  function Refreshed(c: ModelCapabilities, answer: ModelCapabilities): ModelCapabilities {
    if c.user.Some? && !IsEmpty(c.user.value) then WithUserApplied(answer.(user := c.user)) else answer
  }

  /**
   * Stating and refreshing may come in either order; what is stated last counts alone; a withdrawal is
   * complete with the next refresh.
   */
  lemma StatementsSurviveRefreshes(c: ModelCapabilities, answer: ModelCapabilities, u: UserCapabilities, v: UserCapabilities)
    requires answer.user.None?
    ensures Refreshed(Stated(c, u), answer) == Stated(answer, u)
    ensures Refreshed(Stated(Stated(c, u), v), answer) == Stated(answer, v)
    ensures IsEmpty(v) ==> Refreshed(Stated(c, v), answer) == answer
  {
    StatedUser(c, u);
    StatedUser(Stated(c, u), v);
    StatedUser(c, v);
    assert WithoutUser(answer) == answer;
  }

  lemma StatedUser(c: ModelCapabilities, u: UserCapabilities)
    ensures Stated(c, u).user == if IsEmpty(u) then None else Some(u)
  {
  }

  // ---- findings about tools -------------------------------------------------------------------------

  function Rank(basis: ToolUseBasis): int {
    match basis
    case Provider => 3
    case Curated => 3
    case Template => 2
    case SelfTest => 1
  }

  predicate MayReplace(found: ToolUse, current: ToolUse) {
    Rank(found.basis) >= Rank(current.basis)
  }

  /** `set_tool_use` for one finding after the other. */
  function AfterFindings(current: Option<ToolUse>, found: seq<ToolUse>): Option<ToolUse>
    decreases |found|
  {
    if found == [] then current
    else
      AfterFindings(if current.Some? && !MayReplace(found[0], current.value) then current else Some(found[0]), found[1..])
  }

  /** The `k`-th finding is the latest one of the highest rank. */
  ghost predicate LatestOfHighest(found: seq<ToolUse>, k: nat) {
    k < |found|
    && (forall i :: 0 <= i < k ==> Rank(found[i].basis) <= Rank(found[k].basis))
    && (forall i :: k < i < |found| ==> Rank(found[i].basis) < Rank(found[k].basis))
  }

  lemma {:induction false} FindingsSnoc(current: Option<ToolUse>, found: seq<ToolUse>, last: ToolUse)
    ensures var before := AfterFindings(current, found);
            AfterFindings(current, found + [last]) ==
              if before.Some? && !MayReplace(last, before.value) then before else Some(last)
    decreases |found|
  {
    if found == [] {
      assert [] + [last] == [last] && [last][1..] == [];
    } else {
      assert (found + [last])[1..] == found[1..] + [last];
      FindingsSnoc(if current.Some? && !MayReplace(found[0], current.value) then current else Some(found[0]),
                   found[1..], last);
    }
  }

  /** Whatever the order of the findings, the latest of the highest rank is kept, and there is just one such. */
  lemma {:induction false} LatestOfHighestIsKept(found: seq<ToolUse>) returns (k: nat)
    requires found != []
    ensures LatestOfHighest(found, k) && AfterFindings(None, found) == Some(found[k])
    ensures forall j: nat :: LatestOfHighest(found, j) ==> j == k
    decreases |found|
  {
    var before, last := found[..|found| - 1], found[|found| - 1];
    assert found == before + [last];
    FindingsSnoc(None, before, last);
    if before == [] {
      k := 0;
    } else {
      var h := LatestOfHighestIsKept(before);
      assert found[h] == before[h];
      k := if MayReplace(last, before[h]) then |found| - 1 else h;
      assert forall i :: 0 <= i < |before| ==> Rank(before[i].basis) <= Rank(before[h].basis);
      assert forall i :: 0 <= i < |before| ==> found[i] == before[i];
    }
  }
}
