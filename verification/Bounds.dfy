/**
  The bounded profile of a checkpoint: what `validate` requires of it, how long its encoding is, and whether
  its originals can be rendered again. Growth by one message or one group is accounted for here, once.
 */
module Bounds {
  import opened Wrappers
  import opened OwnedRun

  const MAX_GROUP_MESSAGES: nat := 32
  const MAX_MESSAGES: nat := 256
  const MAX_CALLS: nat := 32
  const MAX_BYTES: nat := 8388608
  const MAX_OBLIGATIONS: nat := 64
  const MAX_OPEN_OBLIGATIONS: nat := 32
  const MAX_SCOPES: nat := 32
  const MAX_ENCODED: nat := 262144

  // ------------------------------------------------------------------ messages

  /** The resident messages, exchange after exchange. */
  function Messages(groups: seq<Group>): seq<Message> {
    if |groups| == 0 then [] else Messages(groups[..|groups| - 1]) + groups[|groups| - 1].messages
  }

  function Bytes(messages: seq<Message>): nat {
    if |messages| == 0 then 0 else Bytes(messages[..|messages| - 1]) + messages[|messages| - 1].size
  }

  predicate WellFormed(m: Message) {
    && FitsMessage(m.size)
    && |m.toolCalls| <= MAX_CALLS
    && Distinct(m.toolCalls)
    && (m.role.Tool? <==> m.toolResult.Some?)
    && (m.toolCalls != [] ==> m.role.Assistant?)
  }

  /** No source is resident twice and no call is proposed twice. */
  predicate Apart(a: Message, b: Message) {
    a.source != b.source && forall c :: c in a.toolCalls ==> c !in b.toolCalls
  }

  predicate Coherent(messages: seq<Message>) {
    && (forall k :: 0 <= k < |messages| ==> WellFormed(messages[k]))
    && (forall i, j :: 0 <= i < j < |messages| ==> Apart(messages[i], messages[j]))
  }

  function CallsOf(m: Message): set<ToolId> {
    set c | c in m.toolCalls
  }

  /** The running set of calls without a result, or nothing if a result is an orphan or is interrupted. */
  function Unanswered(messages: seq<Message>): Option<set<ToolId>> {
    if |messages| == 0 then Some({})
    else
      var open, last := Unanswered(messages[..|messages| - 1]), messages[|messages| - 1];
      if open.None? then None
      else if last.toolResult.Some? then
        if last.toolResult.value in open.value
        then Some((open.value - {last.toolResult.value}) + CallsOf(last)) else None
      else if open.value != {} then None
      else Some(CallsOf(last))
  }

  predicate GroupSound(g: Group) {
    && 1 <= |g.messages| <= MAX_GROUP_MESSAGES
    && Unanswered(g.messages).Some?
    && (g.complete ==> Unanswered(g.messages) == Some({}))
  }

  predicate Ascends(groups: seq<Group>, k: int)
    requires 0 <= k < |groups|
  {
    groups[k].sequence > if k == 0 then 0 else groups[k - 1].sequence
  }

  predicate GroupsSound(groups: seq<Group>) {
    && OnlyLastOpen(groups)
    && (forall k :: 0 <= k < |groups| ==> GroupSound(groups[k]))
    && (forall k :: 0 <= k < |groups| ==> Ascends(groups, k))
    && Coherent(Messages(groups))
  }

  // --------------------------------------------------------------- obligations

  function OpenObligations(items: seq<Obligation>): nat {
    if |items| == 0 then 0
    else OpenObligations(items[..|items| - 1]) + (if items[|items| - 1].status.Open? then 1 else 0)
  }

  function OpenBytes(items: seq<Obligation>): nat {
    if |items| == 0 then 0
    else OpenBytes(items[..|items| - 1]) + (if items[|items| - 1].status.Open? then items[|items| - 1].size else 0)
  }

  predicate ObligationSound(identity: Identity, item: Obligation) {
    !item.id.blank && item.id.bytes <= 256 && FitsMessage(item.size) && item.scope in identity.scopes
  }

  /** The run has one to 32 scopes, and its obligations are bounded, named apart and within them. */
  predicate ObligationsSound(identity: Identity, items: seq<Obligation>) {
    && 0 < |identity.scopes| <= MAX_SCOPES
    && |items| <= MAX_OBLIGATIONS
    && OpenObligations(items) <= MAX_OPEN_OBLIGATIONS
    && (forall k :: 0 <= k < |items| ==> ObligationSound(identity, items[k]))
    && (forall i, j :: 0 <= i < j < |items| ==> items[i].id != items[j].id)
  }

  // ---------------------------------------------------------------- validation

  predicate Terminates(s: Checkpoint) {
    !s.status.Active? ==> s.model.None? && s.tool.None? && OpenObligations(s.obligations) == 0
  }

  predicate PendingSound(s: Checkpoint) {
    && (s.model.Some? && s.model.value.interrupted.Some? ==> s.model.value.wire.Some?)
    && (s.tool.Some? ==>
          && s.model.None?
          && 0 < s.tool.value.requestAt <= s.next
          && s.tool.value.requestAt < s.tool.value.outcomeAt
          && s.next <= s.tool.value.outcomeAt
          && !LastComplete(s.groups) && Asks(s.groups[|s.groups| - 1], s.tool.value.call))
  }

  /** How much is resident: exchanges, messages, and bytes with those of open obligations. */
  predicate Bounded(s: Checkpoint) {
    && |s.groups| <= MAX_GROUPS
    && |Messages(s.groups)| <= MAX_MESSAGES
    && Bytes(Messages(s.groups)) + OpenBytes(s.obligations) <= MAX_BYTES
  }

  /** `validate`. */
  predicate Admissible(s: Checkpoint) {
    && s.revision > 0
    && s.next >= 2
    && Bounded(s)
    && GroupsSound(s.groups)
    && ObligationsSound(s.identity, s.obligations)
    && Terminates(s)
    && PendingSound(s)
  }

  // ------------------------------------------------------------------ encoding

  /** Decimal digits. */
  function Digits(n: nat): nat {
    if n < 10 then 1 else Digits(n / 10) + 1
  }

  // Lengths of the fixed parts of the JSON encoding: an identity is 36 characters, a digest 64, a time 16.
  const CHECKPOINT_FRAME: nat := 209
  const GROUP_FRAME: nat := 37
  const MESSAGE_FRAME: nat := 333
  const MODEL_FRAME: nat := 120
  const INTERRUPTED: nat := 60
  const TOOL_FRAME: nat := 622
  const OUTPUT: nat := 59
  const NULL: nat := 4
  const IDENTITY: nat := 38
  const DIGEST: nat := 66

  /** A JSON list of `count` items whose lengths, each with its comma, add up to `sum`. */
  function ListWidth(count: nat, sum: nat): nat {
    if count == 0 then 2 else 1 + sum
  }

  function RoleWidth(role: Role): nat {
    if role.Assistant? then 9 else 4
  }

  function MessageWidth(m: Message): nat {
    MESSAGE_FRAME + RoleWidth(m.role) + Digits(m.size) + ListWidth(|m.toolCalls|, |m.toolCalls| * (IDENTITY + 1))
    + (if m.toolResult.Some? then IDENTITY else NULL)
  }

  function MessagesWidth(messages: seq<Message>): nat {
    if |messages| == 0 then 0
    else MessagesWidth(messages[..|messages| - 1]) + MessageWidth(messages[|messages| - 1]) + 1
  }

  function GroupWidth(g: Group): nat {
    GROUP_FRAME + Digits(g.sequence) + (if g.complete then 4 else 5)
    + ListWidth(|g.messages|, MessagesWidth(g.messages))
  }

  function GroupsWidth(groups: seq<Group>): nat {
    if |groups| == 0 then 0 else GroupsWidth(groups[..|groups| - 1]) + GroupWidth(groups[|groups| - 1]) + 1
  }

  function ObligationWidth(item: Obligation): nat {
    item.width + if item.status.Open? then 4 else 9
  }

  function ObligationsWidth(items: seq<Obligation>): nat {
    if |items| == 0 then 0
    else ObligationsWidth(items[..|items| - 1]) + ObligationWidth(items[|items| - 1]) + 1
  }

  function ModelWidth(model: Option<PendingModel>): nat {
    if model.None? then NULL
    else
      MODEL_FRAME + (if model.value.wire.Some? then DIGEST else NULL)
      + (if model.value.interrupted.Some? then INTERRUPTED else 0)
  }

  /** The length of the reply that proposed a call. */
  function ProposalSize(messages: seq<Message>, call: ToolId): nat {
    if |messages| == 0 then 0
    else if call in messages[|messages| - 1].toolCalls then messages[|messages| - 1].size
    else ProposalSize(messages[..|messages| - 1], call)
  }

  function ToolWidth(tool: Option<PendingTool>, groups: seq<Group>): nat {
    if tool.None? then 0
    else
      TOOL_FRAME + Digits(ProposalSize(Messages(groups), tool.value.call))
      + Digits(tool.value.requestAt) + Digits(tool.value.outcomeAt)
  }

  /** The parts of the encoding that no captured event changes. */
  function FixedWidth(s: Checkpoint): nat {
    CHECKPOINT_FRAME + s.identity.width + s.profile.width + ListWidth(|s.obligations|, ObligationsWidth(s.obligations))
    + if s.status.Active? then 6 else 9
  }

  function EncodedSize(s: Checkpoint): nat {
    FixedWidth(s) + Digits(s.revision) + Digits(s.next) + ListWidth(|s.groups|, GroupsWidth(s.groups))
    + ModelWidth(s.model) + ToolWidth(s.tool, s.groups) + (if s.lastOutput.Some? then OUTPUT else 0)
  }

  /** The source of every open obligation can be read. */
  predicate OpenSourced(items: seq<Obligation>) {
    forall k :: 0 <= k < |items| && items[k].status.Open? ==> items[k].sourced
  }

  /** What the owner requires of a checkpoint before it publishes it. */
  predicate Publishable(s: Checkpoint) {
    Admissible(s) && EncodedSize(s) <= MAX_ENCODED && OpenSourced(s.obligations)
  }

  // ----------------------------------------------------------------- rendering

  /** An open obligation is rendered under its name, which may not have control characters. */
  predicate Renders(item: Obligation) {
    item.status.Open? ==> item.text && !item.id.control
  }

  /** `rehydrate`: every resident message is text, and every open obligation renders. */
  predicate Legible(s: Checkpoint) {
    && (forall k :: 0 <= k < |Messages(s.groups)| ==> Messages(s.groups)[k].text)
    && (forall k :: 0 <= k < |s.obligations| ==> Renders(s.obligations[k]))
  }

  lemma {:induction false} LegibleSame(s: Checkpoint, t: Checkpoint)
    requires s.groups == t.groups && s.obligations == t.obligations
    ensures Legible(s) <==> Legible(t)
  {
  }

  // -------------------------------------------------------------------- growth

  lemma {:induction false} MessagesMore(groups: seq<Group>, g: Group)
    ensures Messages(groups + [g]) == Messages(groups) + g.messages
  {
    assert (groups + [g])[..|groups|] == groups;
  }

  /** Replacing the last exchange by a longer one appends what is new to the resident messages. */
  lemma {:induction false} MessagesReplaced(groups: seq<Group>, last: Group, more: seq<Message>)
    requires |groups| > 0 && last.messages == groups[|groups| - 1].messages + more
    ensures Messages(Replaced(groups, last)) == Messages(groups) + more
  {
    var front := groups[..|groups| - 1];
    MessagesMore(front, last);
    assert Messages(front) + (groups[|groups| - 1].messages + more)
        == (Messages(front) + groups[|groups| - 1].messages) + more;
  }

  /** Messages that stay when leading groups leave were resident before. */
  lemma {:induction false} MessagesDropped(groups: seq<Group>, n: nat)
    requires n <= |groups|
    ensures Messages(groups) == Messages(groups[..n]) + Messages(groups[n..])
    decreases |groups| - n
  {
    if n == |groups| {
      assert groups[..n] == groups && groups[n..] == [];
    } else {
      var front, last := groups[..|groups| - 1], groups[|groups| - 1];
      assert front[..n] == groups[..n] && groups[n..][..|groups| - 1 - n] == front[n..];
      MessagesDropped(front, n);
      assert Messages(groups[n..]) == Messages(front[n..]) + last.messages;
    }
  }

  lemma {:induction false} BytesMore(messages: seq<Message>, m: Message)
    ensures Bytes(messages + [m]) == Bytes(messages) + m.size
  {
    assert (messages + [m])[..|messages|] == messages;
  }

  lemma {:induction false} MessagesWidthMore(messages: seq<Message>, m: Message)
    ensures MessagesWidth(messages + [m]) == MessagesWidth(messages) + MessageWidth(m) + 1
  {
    assert (messages + [m])[..|messages|] == messages;
  }

  lemma {:induction false} GroupsWidthMore(groups: seq<Group>, g: Group)
    ensures GroupsWidth(groups + [g]) == GroupsWidth(groups) + GroupWidth(g) + 1
  {
    assert (groups + [g])[..|groups|] == groups;
  }

  lemma {:induction false} CoherentMore(messages: seq<Message>, m: Message)
    ensures Coherent(messages + [m]) <==>
              Coherent(messages) && WellFormed(m) && forall k :: 0 <= k < |messages| ==> Apart(messages[k], m)
  {
    hide WellFormed, Apart;
    var more := messages + [m];
    assert more[|messages|] == m;
    assert forall k :: 0 <= k < |messages| ==> more[k] == messages[k];
  }

  lemma {:induction false} UnansweredMore(messages: seq<Message>, m: Message)
    ensures Unanswered(messages + [m])
            == (var open := Unanswered(messages);
                if open.None? then None
                else if m.toolResult.Some? then
                  if m.toolResult.value in open.value
                  then Some((open.value - {m.toolResult.value}) + CallsOf(m)) else None
                else if open.value != {} then None
                else Some(CallsOf(m)))
  {
    assert (messages + [m])[..|messages|] == messages;
  }

  /** In a coherent exchange what `validate` counts as unanswered is what waits, and only what was asked is answered. */
  lemma {:induction false} UnansweredWaits(g: Group, call: ToolId)
    requires Coherent(g.messages) && Unanswered(g.messages).Some?
    ensures call in Unanswered(g.messages).value <==> Waiting(g, call)
    ensures Answers(g, call) ==> Asks(g, call)
    decreases |g.messages|
  {
    hide WellFormed, Apart, Asks, Answers;
    if |g.messages| == 0 {
      NothingAsked(g, call);
    } else {
      var front, m := g.messages[..|g.messages| - 1], g.messages[|g.messages| - 1];
      var before := g.(messages := front);
      assert g.messages == front + [m];
      CoherentMore(front, m);
      UnansweredWaits(before, call);
      if m.toolResult.Some? {
        UnansweredWaits(before, m.toolResult.value);
      }
      AskedMore(before, m, call);
    }
  }

  lemma {:induction false} NothingAsked(g: Group, call: ToolId)
    requires |g.messages| == 0
    ensures !Asks(g, call) && !Answers(g, call)
  {
  }

  lemma {:induction false} AskedMore(g: Group, m: Message, call: ToolId)
    requires WellFormed(m) && forall k :: 0 <= k < |g.messages| ==> Apart(g.messages[k], m)
    ensures Asks(WithMessage(g, m), call) <==> Asks(g, call) || call in m.toolCalls
    ensures Answers(WithMessage(g, m), call) <==> Answers(g, call) || m.toolResult == Some(call)
    ensures call in m.toolCalls ==> !Asks(g, call)
    ensures m.toolResult.Some? ==> m.toolCalls == []
  {
    var more := WithMessage(g, m).messages;
    assert more[|g.messages|] == m;
    assert forall k :: 0 <= k < |g.messages| ==> more[k] == g.messages[k];
  }

  lemma {:induction false} OnlyLastMore(groups: seq<Group>, g: Group)
    requires OnlyLastOpen(groups) && LastComplete(groups)
    ensures OnlyLastOpen(groups + [g])
  {
  }

  lemma {:induction false} AscendsMore(groups: seq<Group>, g: Group, k: nat)
    requires k < |groups|
    ensures Ascends(groups + [g], k) <==> Ascends(groups, k)
  {
  }

  /** A new exchange after complete ones keeps the groups sound exactly when its messages are coherent with theirs. */
  lemma {:induction false} AppendedSound(groups: seq<Group>, g: Group)
    requires GroupsSound(groups) && LastComplete(groups) && GroupSound(g)
    requires g.sequence > if |groups| == 0 then 0 else groups[|groups| - 1].sequence
    ensures GroupsSound(groups + [g]) <==> Coherent(Messages(groups) + g.messages)
  {
    hide GroupSound, Coherent, Messages, OnlyLastOpen, LastComplete;
    var more := groups + [g];
    MessagesMore(groups, g);
    OnlyLastMore(groups, g);
    forall k | 0 <= k < |more| ensures GroupSound(more[k]) && Ascends(more, k) {
      if k < |groups| {
        AscendsMore(groups, g, k);
      }
    }
  }

  /** The open exchange grows soundly exactly when it is itself sound and the messages stay coherent. */
  lemma {:induction false} ReplacedSound(groups: seq<Group>, last: Group, more: seq<Message>)
    requires GroupsSound(groups) && |groups| > 0 && last.messages == groups[|groups| - 1].messages + more
    requires last.sequence == groups[|groups| - 1].sequence
    ensures GroupsSound(Replaced(groups, last)) <==> GroupSound(last) && Coherent(Messages(groups) + more)
  {
    hide GroupSound, Coherent, Messages;
    var n, grown := |groups| - 1, Replaced(groups, last);
    MessagesReplaced(groups, last, more);
    assert grown[n] == last;
    assert forall k :: 0 <= k < n ==> grown[k] == groups[k];
    assert forall k :: 0 <= k <= n ==> Ascends(groups, k) == Ascends(grown, k);
  }

  /** In sound groups the last exchange is coherent by itself. */
  lemma {:induction false} LastCoherent(groups: seq<Group>)
    requires GroupsSound(groups) && |groups| > 0
    ensures Coherent(groups[|groups| - 1].messages)
  {
    hide WellFormed, Apart, GroupSound, Ascends;
    var front, last := Messages(groups[..|groups| - 1]), groups[|groups| - 1].messages;
    var all := Messages(groups);
    assert all == front + last;
    assert forall k :: 0 <= k < |last| ==> last[k] == all[|front| + k];
  }
}
