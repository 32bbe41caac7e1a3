/** Projection of the event timeline of a chat into activity groups and messages. */
module Transcript {
  import opened Basics

  datatype Kind =
    | TurnMarker | RunMarker | ClientToolResult | ClientToolCall | ProviderToolCall | Reasoning
    | SkillLoaded | CompactionMarker | CompactionSummary | ExternalChannelContinuation
    | GoalContinuation | GoalUpdated | SystemReminder | UnknownAdapterOutput
    | ActionExecutionResult | OtherKind

  datatype Event = Event(
    id: string,
    kind: Kind,
    callId: Option<string>,
    nativeItemId: Option<string>,
    externalId: Option<string>,
    usage: Option<int>,
    createdAt: int)

  datatype Call = Call(id: string, callId: string, attachments: nat)

  datatype Message = Message(
    id: string,
    renderKey: Option<string>,
    clientCalls: seq<Call>,
    providerCalls: seq<Call>,
    attachments: nat)

  datatype ActivityEvent = ActivityEvent(id: string, message: Option<Message>, call: Option<Call>)

  datatype TimelineEvent = TimelineEvent(
    event: Event,
    message: Option<Message>,
    activity: Option<ActivityEvent>,
    boundary: bool,
    hidden: bool,
    usage: Option<int>)

  // ----- from events to the timeline ---------------------------------------------------------

  function BeforeColon(s: string): string {
    if s == "" || s[0] == ':' then "" else [s[0]] + BeforeColon(s[1..])
  }

  function Or(first: Option<string>, second: string): string {
    if first.Some? then first.value else second
  }

  function SemanticKey(e: Event): string {
    match e.kind
    case ClientToolCall => "tool:" + Or(e.callId, e.id)
    case ClientToolResult => "tool-result:" + Or(e.callId, e.id)
    case ProviderToolCall => "provider-tool:" + Or(e.callId, e.id)
    case Reasoning =>
      if e.nativeItemId.Some? then "reasoning:native:" + e.nativeItemId.value
      else "reasoning:event:" + (if e.externalId.Some? then BeforeColon(e.externalId.value) else e.id)
    case _ => "event:" + Or(e.externalId, e.id)
  }

  function FindCall(calls: seq<Call>, callId: string): Option<Call> {
    if calls == [] then None
    else if calls[0].callId == callId || calls[0].id == callId then Some(calls[0])
    else FindCall(calls[1..], callId)
  }

  function FindDirect(e: Event, messages: seq<Message>): Option<Message> {
    if messages == [] then None
    else if messages[0].id == e.id || messages[0].renderKey == Some(SemanticKey(e)) then Some(messages[0])
    else FindDirect(e, messages[1..])
  }

  function FindByCall(callId: string, messages: seq<Message>): Option<Message> {
    if messages == [] then None
    else if FindCall(messages[0].clientCalls, callId).Some? || FindCall(messages[0].providerCalls, callId).Some?
    then Some(messages[0])
    else FindByCall(callId, messages[1..])
  }

  function MessageForEvent(e: Event, messages: seq<Message>): Option<Message> {
    var direct := FindDirect(e, messages);
    if direct.Some? then direct
    else if e.callId == None then None
    else FindByCall(e.callId.value, messages)
  }

  function ToolCallForEvent(e: Event, messages: seq<Message>): Option<Call> {
    if e.callId == None then None
    else match FindByCall(e.callId.value, messages)
      case None => None
      case Some(m) =>
        var client := FindCall(m.clientCalls, e.callId.value);
        if client.Some? then client else FindCall(m.providerCalls, e.callId.value)
  }

  function MessageHasAttachments(m: Option<Message>): bool {
    m.Some? && m.value.attachments > 0
  }

  /** The last tool result of each call among the first `n` events; an empty call id counts as none. */
  function ClientResults(events: seq<Event>, n: nat): map<string, Event>
    requires n <= |events|
  {
    if n == 0 then map[]
    else
      var before, e := ClientResults(events, n - 1), events[n - 1];
      if e.kind == ClientToolResult && e.callId.Some? && e.callId.value != ""
      then before[e.callId.value := e]
      else before
  }

  /** The semantic keys of the provider calls among the first `n` events. */
  function ProviderKeys(events: seq<Event>, n: nat): set<string>
    requires n <= |events|
  {
    if n == 0 then {}
    else ProviderKeys(events, n - 1)
         + if events[n - 1].kind == ProviderToolCall then {SemanticKey(events[n - 1])} else {}
  }

  function Plain(e: Event, message: Option<Message>, activity: Option<ActivityEvent>,
                 boundary: bool, hidden: bool): TimelineEvent {
    TimelineEvent(e, message, activity, boundary, hidden, None)
  }

  /** What one event contributes; `repeated` says its provider call was seen before. */
  function Project(e: Event, repeated: bool, results: map<string, Event>, messages: seq<Message>): seq<TimelineEvent> {
    var message := MessageForEvent(e, messages);
    match e.kind
    case TurnMarker => [TimelineEvent(e, None, None, false, true, e.usage)]
    case RunMarker => [Plain(e, None, None, true, true)]
    case ClientToolResult => []
    case ClientToolCall => ProjectCall(e, message, results, messages)
    case ProviderToolCall => if repeated then [] else ProjectCall(e, message, results, messages)
    case Reasoning => [Plain(e, message, Some(ActivityEvent(SemanticKey(e), message, None)), false, false)]
    case SkillLoaded => [Plain(e, message, Some(ActivityEvent(SemanticKey(e), message, None)), false, false)]
    case CompactionMarker => [Plain(e, message, None, true, false)]
    case CompactionSummary => [Plain(e, message, None, true, false)]
    case ExternalChannelContinuation =>
      [Plain(e, message, Some(ActivityEvent(SemanticKey(e), message, None)), false, false)]
    case GoalContinuation => [Plain(e, message, Some(ActivityEvent(SemanticKey(e), message, None)), false, false)]
    case GoalUpdated => [Plain(e, message, Some(ActivityEvent(SemanticKey(e), message, None)), false, false)]
    case SystemReminder => [Plain(e, None, None, false, true)]
    case UnknownAdapterOutput => [Plain(e, None, None, false, true)]
    case ActionExecutionResult => [Plain(e, None, None, true, true)]
    case OtherKind => [Plain(e, message, None, true, message == None)]
  }

  function ProjectCall(e: Event, message: Option<Message>, results: map<string, Event>,
                       messages: seq<Message>): seq<TimelineEvent>
  {
    var call := ToolCallForEvent(e, messages);
    var answered := if e.callId.Some? && e.callId.value != "" && e.callId.value in results
                    then MessageForEvent(results[e.callId.value], messages) else None;
    var toolMessage := if answered.Some? then answered else message;
    if call == None then []
    else [Plain(e, toolMessage, Some(ActivityEvent(SemanticKey(e), toolMessage, call)),
                MessageHasAttachments(toolMessage) || call.value.attachments > 0, false)]
  }

  /** The timeline of the first `n` events. */
  function Timeline(events: seq<Event>, n: nat, messages: seq<Message>): seq<TimelineEvent>
    requires n <= |events|
  {
    if n == 0 then []
    else Timeline(events, n - 1, messages)
         + Project(events[n - 1], SemanticKey(events[n - 1]) in ProviderKeys(events, n - 1),
                   ClientResults(events, |events|), messages)
  }

  method TimelineEvents(events: seq<Event>, messages: seq<Message>) returns (timeline: seq<TimelineEvent>)
    ensures timeline == Timeline(events, |events|, messages)
  {
    var clientResults: map<string, Event> := map[];
    var i := 0;
    while i < |events|
      invariant 0 <= i <= |events|
      invariant clientResults == ClientResults(events, i)
    {
      if events[i].kind == ClientToolResult && events[i].callId.Some? && events[i].callId.value != "" {
        clientResults := clientResults[events[i].callId.value := events[i]];
      }
      i := i + 1;
    }
    var providerKeys: set<string> := {};
    timeline := [];
    i := 0;
    while i < |events|
      invariant 0 <= i <= |events|
      invariant providerKeys == ProviderKeys(events, i)
      invariant timeline == Timeline(events, i, messages)
    {
      var key := SemanticKey(events[i]);
      timeline := timeline + Project(events[i], key in providerKeys, clientResults, messages);
      if events[i].kind == ProviderToolCall {
        providerKeys := providerKeys + {key};
      }
      i := i + 1;
    }
  }

  /** Whether the event at `i` is on the timeline: a tool result never, a tool call only when some
      message has it, a provider call only as the first with its key, anything else always. */
  ghost predicate OnTimeline(events: seq<Event>, i: nat, messages: seq<Message>)
    requires i < |events|
  {
    Shows(events[i], !FirstProviderCall(events, i, SemanticKey(events[i])), messages)
  }

  predicate Shows(e: Event, repeated: bool, messages: seq<Message>) {
    && e.kind != ClientToolResult
    && (e.kind == ClientToolCall || e.kind == ProviderToolCall ==> ToolCallForEvent(e, messages).Some?)
    && (e.kind == ProviderToolCall ==> !repeated)
  }

  lemma {:induction false} ProjectShows(e: Event, repeated: bool, results: map<string, Event>, messages: seq<Message>)
    ensures Sources(Project(e, repeated, results, messages)) == if Shows(e, repeated, messages) then [e] else []
  {
    var more := Project(e, repeated, results, messages);
    assert |more| == if Shows(e, repeated, messages) then 1 else 0;
    assert more != [] ==> more[0].event == e;
  }

  ghost predicate FirstProviderCall(events: seq<Event>, i: nat, key: string)
    requires i <= |events|
  {
    forall j :: 0 <= j < i && events[j].kind == ProviderToolCall ==> SemanticKey(events[j]) != key
  }

  lemma {:induction false} ProviderKeysMeans(events: seq<Event>, n: nat, key: string)
    requires n <= |events|
    ensures key !in ProviderKeys(events, n) <==> FirstProviderCall(events, n, key)
  {
    if n > 0 { ProviderKeysMeans(events, n - 1, key); }
  }

  ghost function TimelineSources(events: seq<Event>, n: nat, messages: seq<Message>): seq<Event>
    requires n <= |events|
  {
    if n == 0 then []
    else TimelineSources(events, n - 1, messages) + if OnTimeline(events, n - 1, messages) then [events[n - 1]] else []
  }

  function Sources(tl: seq<TimelineEvent>): seq<Event> {
    seq(|tl|, i requires 0 <= i < |tl| => tl[i].event)
  }

  /** The timeline is the events that are on it, in order, one entry each. */
  lemma {:induction false} TimelineKeepsEvents(events: seq<Event>, n: nat, messages: seq<Message>)
    requires n <= |events|
    ensures Sources(Timeline(events, n, messages)) == TimelineSources(events, n, messages)
  {
    if n > 0 {
      TimelineKeepsEvents(events, n - 1, messages);
      TimelineNext(events, n, messages);
      SourcesNext(events, n, messages);
    }
  }

  lemma {:induction false} SourcesNext(events: seq<Event>, n: nat, messages: seq<Message>)
    requires 0 < n <= |events|
    ensures TimelineSources(events, n, messages) ==
            TimelineSources(events, n - 1, messages)
            + if OnTimeline(events, n - 1, messages) then [events[n - 1]] else []
  {
  }

  lemma {:induction false} TimelineNext(events: seq<Event>, n: nat, messages: seq<Message>)
    requires 0 < n <= |events|
    ensures Sources(Timeline(events, n, messages)) ==
            Sources(Timeline(events, n - 1, messages))
            + if OnTimeline(events, n - 1, messages) then [events[n - 1]] else []
  {
    var e := events[n - 1];
    ProviderKeysMeans(events, n - 1, SemanticKey(e));
    var repeated, results := SemanticKey(e) in ProviderKeys(events, n - 1), ClientResults(events, |events|);
    ProjectShows(e, repeated, results, messages);
  }

  /** A call is answered by the last tool result with its id. */
  lemma {:induction false} LastResultAnswers(events: seq<Event>, n: nat, callId: string) returns (i: nat)
    requires n <= |events| && callId in ClientResults(events, n)
    ensures i < n && ClientResults(events, n)[callId] == events[i]
    ensures events[i].kind == ClientToolResult && events[i].callId == Some(callId)
    ensures forall j :: i < j < n && events[j].kind == ClientToolResult ==> events[j].callId != Some(callId)
  {
    var e := events[n - 1];
    if e.kind == ClientToolResult && e.callId == Some(callId) {
      if callId != "" { return n - 1; }
    }
    i := LastResultAnswers(events, n - 1, callId);
    NoEmptyResult(events, n);
  }

  lemma {:induction false} NoEmptyResult(events: seq<Event>, n: nat)
    requires n <= |events|
    ensures "" !in ClientResults(events, n)
  {
    if n > 0 { NoEmptyResult(events, n - 1); }
  }

  lemma {:induction false} FoundMessages(e: Event, callId: string, messages: seq<Message>)
    ensures FindDirect(e, messages).Some? ==> FindDirect(e, messages).value in messages
    ensures FindByCall(callId, messages).Some? ==> FindByCall(callId, messages).value in messages
  {
    if messages != [] { FoundMessages(e, callId, messages[1..]); }
  }

  lemma {:induction false} MessageIsInput(e: Event, messages: seq<Message>)
    ensures MessageForEvent(e, messages).Some? ==> MessageForEvent(e, messages).value in messages
  {
    FoundMessages(e, Or(e.callId, ""), messages);
  }

  /** Facts about single timeline events on which the grouping below relies. */
  predicate EventOk(t: TimelineEvent, messages: seq<Message>) {
    && (t.activity == None && !t.hidden ==> t.boundary)
    && (t.activity.Some? ==> !t.hidden && t.activity.value.message == t.message)
    && (t.usage.Some? ==> !t.boundary && t.hidden && t.message == None)
    && (t.message.Some? ==> t.message.value in messages)
  }

  ghost predicate TimelineOk(tl: seq<TimelineEvent>, messages: seq<Message>) {
    forall i :: 0 <= i < |tl| ==> EventOk(tl[i], messages)
  }

  lemma {:induction false} ProjectOk(e: Event, repeated: bool, results: map<string, Event>, messages: seq<Message>)
    ensures TimelineOk(Project(e, repeated, results, messages), messages)
  {
    MessageIsInput(e, messages);
    if e.callId.Some? && e.callId.value in results {
      MessageIsInput(results[e.callId.value], messages);
    }
  }

  lemma {:induction false} TimelineIsOk(events: seq<Event>, n: nat, messages: seq<Message>)
    requires n <= |events|
    ensures TimelineOk(Timeline(events, n, messages), messages)
  {
    if n > 0 {
      TimelineIsOk(events, n - 1, messages);
      ProjectOk(events[n - 1], SemanticKey(events[n - 1]) in ProviderKeys(events, n - 1),
                ClientResults(events, |events|), messages);
    }
  }

  ghost predicate ProviderKeysDiffer(tl: seq<TimelineEvent>) {
    forall i, j :: 0 <= i < j < |tl| && tl[i].event.kind == ProviderToolCall && tl[j].event.kind == ProviderToolCall ==>
      SemanticKey(tl[i].event) != SemanticKey(tl[j].event)
  }

  ghost predicate ProviderKeysIn(tl: seq<TimelineEvent>, keys: set<string>) {
    forall i :: 0 <= i < |tl| && tl[i].event.kind == ProviderToolCall ==> SemanticKey(tl[i].event) in keys
  }

  lemma {:induction false} ProjectOnce(e: Event, repeated: bool, results: map<string, Event>, messages: seq<Message>)
    ensures var more := Project(e, repeated, results, messages);
            |more| <= 1 && (more != [] ==> more[0].event == e && (e.kind == ProviderToolCall ==> !repeated))
  {
  }

  /** A provider call contributes at most once, however often its events repeat. */
  lemma {:induction false} ProviderCallsOnce(events: seq<Event>, n: nat, messages: seq<Message>)
    requires n <= |events|
    ensures ProviderKeysDiffer(Timeline(events, n, messages))
    ensures ProviderKeysIn(Timeline(events, n, messages), ProviderKeys(events, n))
  {
    if n > 0 {
      ProviderCallsOnce(events, n - 1, messages);
      var e := events[n - 1];
      var repeated := SemanticKey(e) in ProviderKeys(events, n - 1);
      ProjectOnce(e, repeated, ClientResults(events, |events|), messages);
      var before := Timeline(events, n - 1, messages);
      var more := Project(e, repeated, ClientResults(events, |events|), messages);
      if more != [] {
        assert more == [more[0]] && Timeline(events, n, messages) == before + [more[0]];
      } else {
        assert before + more == before;
      }
    }
  }

  // ----- what an entry is, from its event and the messages -------------------------------------

  predicate IsCall(kind: Kind) {
    kind == ClientToolCall || kind == ProviderToolCall
  }

  /** A tool call with attachments, on the call itself or on the message shown for it. */
  predicate CarriesAttachments(t: TimelineEvent) {
    && IsCall(t.event.kind)
    && (|| (t.message.Some? && t.message.value.attachments > 0)
        || (t.activity.Some? && t.activity.value.call.Some? && t.activity.value.call.value.attachments > 0))
  }

  /** The message that answers a client call: that of the last result with its id, if it has one. */
  function Answer(events: seq<Event>, e: Event, messages: seq<Message>): Option<Message> {
    if e.callId.Some? && e.callId.value in ClientResults(events, |events|)
    then MessageForEvent(ClientResults(events, |events|)[e.callId.value], messages)
    else None
  }

  /** An entry, field by field. */
  ghost predicate EntryIs(t: TimelineEvent, events: seq<Event>, messages: seq<Message>) {
    var e, own := t.event, MessageForEvent(t.event, messages);
    // boundaries
    && (t.boundary <==>
          || e.kind == RunMarker || e.kind == CompactionMarker || e.kind == CompactionSummary
          || e.kind == ActionExecutionResult || e.kind == OtherKind || CarriesAttachments(t))
    // hidden entries
    && (t.hidden <==>
          || e.kind == TurnMarker || e.kind == RunMarker || e.kind == SystemReminder
          || e.kind == UnknownAdapterOutput || e.kind == ActionExecutionResult
          || (e.kind == OtherKind && own == None))
    // activities
    && (t.activity.Some? <==>
          || IsCall(e.kind) || e.kind == Reasoning || e.kind == SkillLoaded
          || e.kind == ExternalChannelContinuation || e.kind == GoalContinuation || e.kind == GoalUpdated)
    && (t.activity.Some? ==>
          && t.activity.value.id == SemanticKey(e) && t.activity.value.message == t.message
          && t.activity.value.call == if IsCall(e.kind) then ToolCallForEvent(e, messages) else None)
    && (IsCall(e.kind) ==> t.activity.value.call.Some?)
    // messages and usage
    && t.message == (if t.hidden then None
                     else if IsCall(e.kind) && Answer(events, e, messages).Some? then Answer(events, e, messages)
                     else own)
    && t.usage == if e.kind == TurnMarker then e.usage else None
  }

  lemma {:induction false} ProjectIs(e: Event, repeated: bool, events: seq<Event>, messages: seq<Message>,
                                     t: TimelineEvent)
    requires t in Project(e, repeated, ClientResults(events, |events|), messages)
    ensures EntryIs(t, events, messages)
  {
    var results := ClientResults(events, |events|);
    if IsCall(e.kind) {
      CallIs(e, events, messages, t);
    } else {
      assert Project(e, repeated, results, messages) == [t];
    }
  }

  lemma {:induction false} CallIs(e: Event, events: seq<Event>, messages: seq<Message>, t: TimelineEvent)
    requires IsCall(e.kind)
    requires t in ProjectCall(e, MessageForEvent(e, messages), ClientResults(events, |events|), messages)
    ensures EntryIs(t, events, messages)
  {
    NoEmptyResult(events, |events|);
  }

  /** Every entry of the timeline, from its event's kind and the messages. */
  lemma {:induction false} EntriesAre(events: seq<Event>, n: nat, messages: seq<Message>)
    requires n <= |events|
    ensures forall t :: t in Timeline(events, n, messages) ==> EntryIs(t, events, messages)
  {
    if n > 0 {
      EntriesAre(events, n - 1, messages);
      var e := events[n - 1];
      var repeated := SemanticKey(e) in ProviderKeys(events, n - 1);
      forall t | t in Timeline(events, n, messages) ensures EntryIs(t, events, messages) {
        if t !in Timeline(events, n - 1, messages) { ProjectIs(e, repeated, events, messages, t); }
      }
    }
  }

  predicate Holds(m: Message, callId: string) {
    || (exists c :: c in m.clientCalls && (c.callId == callId || c.id == callId))
    || (exists c :: c in m.providerCalls && (c.callId == callId || c.id == callId))
  }

  predicate Direct(m: Message, e: Event) {
    m.id == e.id || m.renderKey == Some(SemanticKey(e))
  }

  lemma {:induction false} FoundCall(calls: seq<Call>, callId: string)
    ensures FindCall(calls, callId) == None <==> forall c :: c in calls ==> c.callId != callId && c.id != callId
    ensures FindCall(calls, callId).Some? ==>
              var c := FindCall(calls, callId).value; c in calls && (c.callId == callId || c.id == callId)
  {
    if calls != [] { FoundCall(calls[1..], callId); HeadTail(calls); }
  }

  /** An event's message is the first with its id or its render key, else the first that holds its
      call. */
  lemma {:induction false} MessageMeans(e: Event, messages: seq<Message>, k: nat)
    requires k < |messages|
    requires Direct(messages[k], e) && forall j :: 0 <= j < k ==> !Direct(messages[j], e)
    ensures MessageForEvent(e, messages) == Some(messages[k])
  {
    FirstDirect(e, messages, k);
  }

  lemma {:induction false} FirstDirect(e: Event, messages: seq<Message>, k: nat)
    requires k <= |messages| && (forall j :: 0 <= j < k ==> !Direct(messages[j], e))
    requires k < |messages| ==> Direct(messages[k], e)
    ensures FindDirect(e, messages) == if k < |messages| then Some(messages[k]) else None
    decreases |messages|
  {
    if messages != [] {
      assert k > 0 ==> !Direct(messages[0], e);
      if k > 0 { FirstDirect(e, messages[1..], k - 1); }
    }
  }

  lemma {:induction false} FirstHolder(callId: string, messages: seq<Message>, k: nat)
    requires k <= |messages| && (forall j :: 0 <= j < k ==> !Holds(messages[j], callId))
    requires k < |messages| ==> Holds(messages[k], callId)
    ensures FindByCall(callId, messages) == if k < |messages| then Some(messages[k]) else None
    decreases |messages|
  {
    if messages != [] {
      FoundCall(messages[0].clientCalls, callId);
      FoundCall(messages[0].providerCalls, callId);
      assert k > 0 ==> !Holds(messages[0], callId);
      if k > 0 { FirstHolder(callId, messages[1..], k - 1); }
    }
  }

  /** Without a direct message it is the first that holds the call, and the call is found there,
      among the client calls first; `k` is past the end when no message holds it. */
  lemma {:induction false} CallMeans(e: Event, messages: seq<Message>, k: nat)
    requires e.callId.Some? && k <= |messages|
    requires forall j :: 0 <= j < k ==> !Holds(messages[j], e.callId.value)
    requires k < |messages| ==> Holds(messages[k], e.callId.value)
    ensures (forall m :: m in messages ==> !Direct(m, e)) ==>
              MessageForEvent(e, messages) == if k < |messages| then Some(messages[k]) else None
    ensures ToolCallForEvent(e, messages).Some? <==> k < |messages|
    ensures k < |messages| ==>
              var id, m, c := e.callId.value, messages[k], ToolCallForEvent(e, messages).value;
              && (c.callId == id || c.id == id)
              && (if exists x :: x in m.clientCalls && (x.callId == id || x.id == id) then c in m.clientCalls
                  else c in m.providerCalls)
  {
    FirstHolder(e.callId.value, messages, k);
    if forall m :: m in messages ==> !Direct(m, e) { FirstDirect(e, messages, |messages|); }
    if k < |messages| {
      FoundCall(messages[k].clientCalls, e.callId.value);
      FoundCall(messages[k].providerCalls, e.callId.value);
    }
  }

  /** The render keys by which messages are found, kind by kind. */
  lemma {:induction false} RenderKeys(e: Event)
    ensures var call := match e.callId case Some(c) => c case None => e.id;
            && (e.kind == ClientToolCall ==> SemanticKey(e) == "tool:" + call)
            && (e.kind == ClientToolResult ==> SemanticKey(e) == "tool-result:" + call)
            && (e.kind == ProviderToolCall ==> SemanticKey(e) == "provider-tool:" + call)
    ensures e.kind == Reasoning ==>
              SemanticKey(e) == match e.nativeItemId
                                case Some(native) => "reasoning:native:" + native
                                case None => "reasoning:event:" +
                                             match e.externalId case Some(x) => BeforeColon(x) case None => e.id
    ensures !IsCall(e.kind) && e.kind != ClientToolResult && e.kind != Reasoning ==>
              SemanticKey(e) == "event:" + match e.externalId case Some(x) => x case None => e.id
  {
  }

  /** The part of a text before its first colon, or all of it. */
  lemma {:induction false} BeforeColonMeans(s: string)
    ensures BeforeColon(s) <= s && ':' !in BeforeColon(s)
    ensures |BeforeColon(s)| < |s| ==> s[|BeforeColon(s)|] == ':'
  {
    if s != "" && s[0] != ':' { BeforeColonMeans(s[1..]); }
  }

  /** Two provider calls have one key exactly when they have the same call id, or event id where
      there is none. */
  lemma {:induction false} ProviderKeyMeans(e: Event, f: Event)
    requires e.kind == f.kind == ProviderToolCall
    ensures SemanticKey(e) == SemanticKey(f) <==>
            (match e.callId case Some(c) => c case None => e.id) == (match f.callId case Some(c) => c case None => f.id)
  {
    var a, b := SemanticKey(e), SemanticKey(f);
    assert a[|"provider-tool:"|..] == Or(e.callId, e.id) && b[|"provider-tool:"|..] == Or(f.callId, f.id);
  }

  // ----- from the timeline to presentation items -------------------------------------------------

  datatype Group = Group(
    id: string,
    firstMessageId: string,
    startedAt: int,
    startIndex: nat,
    endIndex: nat,
    events: seq<ActivityEvent>,
    usage: Option<int>)

  datatype Item = Activity(group: Group) | Shown(message: Message, index: nat)

  function MessageIndex(messages: seq<Message>, m: Message): nat {
    if messages == [] || messages[0] == m then 0 else 1 + MessageIndex(messages[1..], m)
  }

  /** An event that belongs inside a group. */
  predicate Inner(t: TimelineEvent) {
    t.activity.Some? && !t.boundary
  }

  /** An open group never extends over this event. */
  predicate Cuts(t: TimelineEvent, bounds: set<string>) {
    t.boundary || (t.message.Some? && t.message.value.id in bounds)
  }

  datatype Mark = Act(event: ActivityEvent) | Msg(message: Message)

  /** The ids that the first `n` timeline events have put inside groups or shown. */
  function Represented(tl: seq<TimelineEvent>, n: nat): set<string>
    requires n <= |tl|
  {
    if n == 0 then {}
    else
      var t := tl[n - 1];
      Represented(tl, n - 1) + if t.message.Some? && (Inner(t) || !t.hidden) then {t.message.value.id} else {}
  }

  /** What the first `n` timeline events should show, in timeline order and without grouping:
      each inner event, and each visible message that was not represented before. */
  function Marks(tl: seq<TimelineEvent>, n: nat): seq<Mark>
    requires n <= |tl|
  {
    if n == 0 then []
    else Marks(tl, n - 1) +
         var t := tl[n - 1];
         if Inner(t) then [Act(t.activity.value)]
         else if !t.hidden && t.message.Some? && t.message.value.id !in Represented(tl, n - 1)
             then [Msg(t.message.value)]
         else []
  }

  /** The messages still missing, each id once, in input order. */
  function Missing(messages: seq<Message>, seen: set<string>): seq<Mark>
    decreases |messages|
  {
    if messages == [] then []
    else if messages[0].id in seen then Missing(messages[1..], seen)
    else [Msg(messages[0])] + Missing(messages[1..], seen + {messages[0].id})
  }

  function Acts(events: seq<ActivityEvent>): seq<Mark> {
    seq(|events|, i requires 0 <= i < |events| => Act(events[i]))
  }

  /** Presentation items with the groups taken apart again. */
  function Flatten(items: seq<Item>): seq<Mark> {
    if items == [] then []
    else Flatten(items[..|items| - 1]) +
         match items[|items| - 1]
         case Activity(g) => Acts(g.events)
         case Shown(m, _) => [Msg(m)]
  }

  /** The inner events at positions `lo` to `hi`. */
  function InnerEvents(tl: seq<TimelineEvent>, lo: nat, hi: nat): seq<ActivityEvent>
    requires lo <= hi <= |tl|
  {
    if lo == hi then []
    else InnerEvents(tl, lo, hi - 1) + if Inner(tl[hi - 1]) then [tl[hi - 1].activity.value] else []
  }

  /** The index of the last message an inner event carries, `first` when none does. */
  function LastIndex(tl: seq<TimelineEvent>, lo: nat, hi: nat, messages: seq<Message>, first: nat): nat
    requires lo <= hi <= |tl|
  {
    if lo == hi then first
    else if Inner(tl[hi - 1]) && tl[hi - 1].message.Some? then MessageIndex(messages, tl[hi - 1].message.value)
    else LastIndex(tl, lo, hi - 1, messages, first)
  }

  /** The last usage reported at positions `lo` to `hi`. */
  function LastUsage(tl: seq<TimelineEvent>, lo: nat, hi: nat): Option<int>
    requires lo <= hi <= |tl|
  {
    if lo == hi then None
    else if tl[hi - 1].usage.Some? then tl[hi - 1].usage
    else LastUsage(tl, lo, hi - 1)
  }

  predicate NoCut(tl: seq<TimelineEvent>, lo: nat, hi: nat, bounds: set<string>)
    requires lo <= hi <= |tl|
  {
    lo == hi || (NoCut(tl, lo, hi - 1, bounds) && !Cuts(tl[hi - 1], bounds))
  }

  /** `g` is the group of positions `lo` to `hi`: it starts with an inner event, contains every
      inner event of the range and spans no cut. */
  ghost predicate GroupAt(g: Group, tl: seq<TimelineEvent>, lo: nat, hi: nat, messages: seq<Message>,
                          bounds: set<string>) {
    && lo < hi <= |tl| && Inner(tl[lo])
    && NoCut(tl, lo + 1, hi, bounds)
    && g.events == InnerEvents(tl, lo, hi)
    && g.id == "activity:" + tl[lo].activity.value.id
    && g.startedAt == tl[lo].event.createdAt
    && g.firstMessageId == (if tl[lo].message.Some? then tl[lo].message.value.id else tl[lo].event.id)
    && g.startIndex == (if tl[lo].message.Some? then MessageIndex(messages, tl[lo].message.value) else 0)
    && g.endIndex == LastIndex(tl, lo, hi, messages, g.startIndex)
    && g.usage == LastUsage(tl, lo + 1, hi)
  }

  /** An item stands for a range of the timeline; a group's range ends only at a cut. */
  ghost predicate ItemAt(item: Item, tl: seq<TimelineEvent>, range: (nat, nat), messages: seq<Message>,
                         bounds: set<string>) {
    match item
    case Activity(g) =>
      && GroupAt(g, tl, range.0, range.1, messages, bounds)
      && (range.1 == |tl| || Cuts(tl[range.1], bounds))
    case Shown(m, index) =>
      && range.0 < |tl| && range.1 == range.0 + 1
      && tl[range.0].message == Some(m) && !tl[range.0].hidden && !Inner(tl[range.0])
      && index == MessageIndex(messages, m)
  }

  function OwnedBy(events: seq<ActivityEvent>): set<string> {
    if events == [] then {}
    else
      var e := events[|events| - 1];
      OwnedBy(events[..|events| - 1]) + if e.message.Some? then {e.message.value.id} else {}
  }

  /** The message ids an item accounts for. */
  function Owns(item: Item): set<string> {
    match item
    case Activity(g) => OwnedBy(g.events)
    case Shown(m, _) => {m.id}
  }

  /** All message ids that items account for. */
  function OwnedByAll(items: seq<Item>): set<string> {
    if items == [] then {} else OwnedByAll(items[..|items| - 1]) + Owns(items[|items| - 1])
  }

  /** A message is shown only if nothing before accounts for it. */
  predicate NoRepeats(items: seq<Item>) {
    items == [] ||
    (var init, last := items[..|items| - 1], items[|items| - 1];
     NoRepeats(init) && (last.Shown? ==> last.message.id !in OwnedByAll(init)))
  }

  lemma {:induction false} OwnedByAllAt(items: seq<Item>, i: nat)
    requires i < |items|
    ensures Owns(items[i]) <= OwnedByAll(items)
  {
    if i < |items| - 1 { OwnedByAllAt(items[..|items| - 1], i); }
  }

  lemma {:induction false} NoRepeatsAt(items: seq<Item>, i: nat, j: nat)
    requires NoRepeats(items) && i < j < |items| && items[j].Shown?
    ensures items[j].message.id !in Owns(items[i])
  {
    if j < |items| - 1 {
      NoRepeatsAt(items[..|items| - 1], i, j);
    } else {
      OwnedByAllAt(items[..|items| - 1], i);
    }
  }

  // ----- the loop invariant --------------------------------------------------------------------

  function Open(current: Option<Group>): seq<ActivityEvent> {
    if current.Some? then current.value.events else []
  }

  /** The items stand for increasing ranges, the last ending at `limit` or before. */
  ghost predicate PlacedAt(items: seq<Item>, ranges: seq<(nat, nat)>, limit: nat, tl: seq<TimelineEvent>,
                           messages: seq<Message>, bounds: set<string>) {
    |ranges| == |items| &&
    (items == [] ||
     var k := |items| - 1;
     && PlacedAt(items[..k], ranges[..k], ranges[k].0, tl, messages, bounds)
     && ItemAt(items[k], tl, ranges[k], messages, bounds)
     && ranges[k].1 <= limit)
  }

  lemma {:induction false} PlacedAtIndex(items: seq<Item>, ranges: seq<(nat, nat)>, limit: nat,
                                         tl: seq<TimelineEvent>, messages: seq<Message>, bounds: set<string>, i: nat)
    requires PlacedAt(items, ranges, limit, tl, messages, bounds) && i < |items|
    ensures ItemAt(items[i], tl, ranges[i], messages, bounds) && ranges[i].1 <= limit
    ensures i + 1 < |items| ==> ranges[i].1 <= ranges[i + 1].0
  {
    var k := |items| - 1;
    if i < k {
      PlacedAtIndex(items[..k], ranges[..k], ranges[k].0, tl, messages, bounds, i);
      assert items[k].Activity? ==> ranges[k].0 < ranges[k].1;
    }
  }

  /** Exactly what is represented is accounted for by an item or by the open events. */
  ghost predicate Ownership(items: seq<Item>, represented: set<string>, open: seq<ActivityEvent>) {
    NoRepeats(items) && OwnedByAll(items) + OwnedBy(open) == represented
  }

  ghost predicate Content(tl: seq<TimelineEvent>, n: nat, items: seq<Item>, represented: set<string>,
                          open: seq<ActivityEvent>)
    requires n <= |tl|
  {
    Flatten(items) + Acts(open) == Marks(tl, n) && represented == Represented(tl, n)
  }

  /** After `n` timeline events; `lo` is where the open group, if any, started. */
  ghost predicate Inv(tl: seq<TimelineEvent>, n: nat, messages: seq<Message>, bounds: set<string>,
                      items: seq<Item>, represented: set<string>, current: Option<Group>,
                      ranges: seq<(nat, nat)>, lo: nat) {
    && n <= |tl|
    && PlacedAt(items, ranges, if current.Some? then lo else n, tl, messages, bounds)
    && (current.Some? ==> GroupAt(current.value, tl, lo, n, messages, bounds))
    && Content(tl, n, items, represented, Open(current))
    && Ownership(items, represented, Open(current))
  }

  lemma {:induction false} FlattenPush(items: seq<Item>, item: Item)
    ensures Flatten(items + [item]) == Flatten(items)
              + match item case Activity(g) => Acts(g.events) case Shown(m, _) => [Msg(m)]
  {
    assert (items + [item])[..|items|] == items;
  }

  lemma {:induction false} FlattenClosed(items: seq<Item>)
    ensures Flatten(items) + Acts([]) == Flatten(items)
  {
  }

  lemma {:induction false} PlacedPush(items: seq<Item>, ranges: seq<(nat, nat)>, limit: nat, tl: seq<TimelineEvent>,
                                      messages: seq<Message>, bounds: set<string>, item: Item, range: (nat, nat))
    requires PlacedAt(items, ranges, limit, tl, messages, bounds)
    requires ItemAt(item, tl, range, messages, bounds) && limit <= range.0
    ensures PlacedAt(items + [item], ranges + [range], range.1, tl, messages, bounds)
  {
    var k := |items|;
    PlacedLater(items, ranges, limit, range.0, tl, messages, bounds);
    assert (items + [item])[..k] == items && (ranges + [range])[..k] == ranges;
  }

  lemma {:induction false} PlacedLater(items: seq<Item>, ranges: seq<(nat, nat)>, limit: nat, limit': nat,
                                       tl: seq<TimelineEvent>, messages: seq<Message>, bounds: set<string>)
    requires PlacedAt(items, ranges, limit, tl, messages, bounds) && limit <= limit'
    ensures PlacedAt(items, ranges, limit', tl, messages, bounds)
  {
  }

  lemma {:induction false} OwnershipPush(items: seq<Item>, represented: set<string>, open: seq<ActivityEvent>,
                                         item: Item)
    requires Ownership(items, represented, open)
    requires item.Shown? ==> item.message.id !in represented
    ensures Ownership(items + [item], represented + Owns(item), open)
  {
    assert (items + [item])[..|items|] == items;
  }

  lemma {:induction false} FlushOwnership(items: seq<Item>, represented: set<string>, g: Group)
    requires Ownership(items, represented, g.events)
    ensures Ownership(items + [Activity(g)], represented, [])
  {
    OwnershipPush(items, represented, g.events, Activity(g));
  }

  lemma {:induction false} ShowOwnership(items: seq<Item>, represented: set<string>, m: Message, index: nat)
    requires Ownership(items, represented, []) && m.id !in represented
    ensures Ownership(items + [Shown(m, index)], represented + {m.id}, [])
  {
    OwnershipPush(items, represented, [], Shown(m, index));
  }

  lemma {:induction false} PushOwnership(items: seq<Item>, represented: set<string>, open: seq<ActivityEvent>,
                                         e: ActivityEvent)
    requires Ownership(items, represented, open)
    ensures Ownership(items, if e.message.Some? then represented + {e.message.value.id} else represented, open + [e])
  {
    OwnedPush(open, e);
  }

  lemma {:induction false} FlushKeeps(tl: seq<TimelineEvent>, n: nat, messages: seq<Message>, bounds: set<string>,
                                      items: seq<Item>, represented: set<string>, g: Group, ranges: seq<(nat, nat)>,
                                      lo: nat)
    requires Inv(tl, n, messages, bounds, items, represented, Some(g), ranges, lo)
    requires n == |tl| || Cuts(tl[n], bounds)
    ensures Inv(tl, n, messages, bounds, items + [Activity(g)], represented, None, ranges + [(lo, n)], lo)
  {
    FlattenPush(items, Activity(g));
    FlattenClosed(items + [Activity(g)]);
    PlacedPush(items, ranges, lo, tl, messages, bounds, Activity(g), (lo, n));
    FlushOwnership(items, represented, g);
  }

  /** A message shown at position `n`, with no group open. */
  lemma {:induction false} ShowKeeps(tl: seq<TimelineEvent>, n: nat, messages: seq<Message>, bounds: set<string>,
                                     items: seq<Item>, represented: set<string>, ranges: seq<(nat, nat)>, lo: nat)
    requires Inv(tl, n, messages, bounds, items, represented, None, ranges, lo) && n < |tl|
    requires !Inner(tl[n]) && !tl[n].hidden && tl[n].message.Some?
    requires tl[n].message.value.id !in represented
    ensures var m := tl[n].message.value;
            Inv(tl, n + 1, messages, bounds, items + [Shown(m, MessageIndex(messages, m))],
                represented + {m.id}, None, ranges + [(n, n + 1)], lo)
  {
    var m := tl[n].message.value;
    var item := Shown(m, MessageIndex(messages, m));
    FlattenPush(items, item);
    FlattenClosed(items);
    FlattenClosed(items + [item]);
    PlacedPush(items, ranges, n, tl, messages, bounds, item, (n, n + 1));
    ShowOwnership(items, represented, m, item.index);
  }

  lemma {:induction false} QuietContent(tl: seq<TimelineEvent>, n: nat, items: seq<Item>, represented: set<string>,
                                        open: seq<ActivityEvent>)
    requires n < |tl| && Content(tl, n, items, represented, open) && !Inner(tl[n])
    requires !tl[n].hidden && tl[n].message.Some? ==> tl[n].message.value.id in represented
    ensures Content(tl, n + 1, items, represented, open)
  {
    assert Marks(tl, n + 1) == Marks(tl, n) + [];
  }

  lemma {:induction false} QuietGroup(tl: seq<TimelineEvent>, n: nat, messages: seq<Message>, bounds: set<string>,
                                      g: Group, lo: nat)
    requires n < |tl| && GroupAt(g, tl, lo, n, messages, bounds) && !Inner(tl[n]) && !Cuts(tl[n], bounds)
    ensures GroupAt(if tl[n].usage.Some? then g.(usage := tl[n].usage) else g, tl, lo, n + 1, messages, bounds)
  {
    assert InnerEvents(tl, lo, n + 1) == InnerEvents(tl, lo, n) + [];
  }

  /** The open group after an event that reports usage to it, if it does. */
  function Reported(current: Option<Group>, t: TimelineEvent): Option<Group> {
    if t.usage.Some? && current.Some? then Some(current.value.(usage := t.usage)) else current
  }

  /** An event that shows nothing new: at most it reports usage to the open group. */
  lemma {:induction false} QuietKeeps(tl: seq<TimelineEvent>, n: nat, messages: seq<Message>, bounds: set<string>,
                                      items: seq<Item>, represented: set<string>, current: Option<Group>,
                                      ranges: seq<(nat, nat)>, lo: nat)
    requires Inv(tl, n, messages, bounds, items, represented, current, ranges, lo) && n < |tl| && !Inner(tl[n])
    requires current.Some? ==> !Cuts(tl[n], bounds)
    requires !tl[n].hidden && tl[n].message.Some? ==> tl[n].message.value.id in represented
    ensures Inv(tl, n + 1, messages, bounds, items, represented, Reported(current, tl[n]), ranges, lo)
  {
    QuietContent(tl, n, items, represented, Open(current));
    PlacedLater(items, ranges, if current.Some? then lo else n, if current.Some? then lo else n + 1,
                tl, messages, bounds);
    if current.Some? {
      QuietGroup(tl, n, messages, bounds, current.value, lo);
    }
  }

  /** The group open after an inner event. */
  function Grown(current: Option<Group>, t: TimelineEvent, messages: seq<Message>): Group
    requires Inner(t)
  {
    var index := if t.message.Some? then MessageIndex(messages, t.message.value) else 0;
    var g := if current.Some? then current.value
             else Group("activity:" + t.activity.value.id,
                        if t.message.Some? then t.message.value.id else t.event.id,
                        t.event.createdAt, index, index, [], None);
    var pushed := g.(events := g.events + [t.activity.value]);
    if t.message.Some? then pushed.(endIndex := index) else pushed
  }

  lemma {:induction false} PushKeeps(tl: seq<TimelineEvent>, n: nat, messages: seq<Message>, bounds: set<string>,
                                     items: seq<Item>, represented: set<string>, current: Option<Group>,
                                     ranges: seq<(nat, nat)>, lo: nat)
    requires Inv(tl, n, messages, bounds, items, represented, current, ranges, lo)
    requires n < |tl| && Inner(tl[n]) && EventOk(tl[n], messages)
    requires current.Some? ==> !Cuts(tl[n], bounds)
    ensures Inv(tl, n + 1, messages, bounds, items,
                if tl[n].message.Some? then represented + {tl[n].message.value.id} else represented,
                Some(Grown(current, tl[n], messages)), ranges, if current.Some? then lo else n)
  {
    var e := tl[n].activity.value;
    GrownGroup(tl, n, messages, bounds, current, lo);
    PushOwnership(items, represented, Open(current), e);
    assert Acts(Open(current) + [e]) == Acts(Open(current)) + [Act(e)];
    Assoc(Flatten(items), Acts(Open(current)), [Act(e)]);
  }

  lemma {:induction false} GrownGroup(tl: seq<TimelineEvent>, n: nat, messages: seq<Message>, bounds: set<string>,
                                      current: Option<Group>, lo: nat)
    requires n < |tl| && Inner(tl[n]) && EventOk(tl[n], messages)
    requires current.Some? ==> GroupAt(current.value, tl, lo, n, messages, bounds) && !Cuts(tl[n], bounds)
    ensures GroupAt(Grown(current, tl[n], messages), tl, if current.Some? then lo else n, n + 1, messages, bounds)
  {
    if current == None {
      assert InnerEvents(tl, n, n) == [];
    }
  }

  lemma {:induction false} OwnedPush(events: seq<ActivityEvent>, e: ActivityEvent)
    ensures OwnedBy(events + [e]) == OwnedBy(events) + if e.message.Some? then {e.message.value.id} else {}
  {
    assert (events + [e])[..|events|] == events;
  }

  // ----- the projection ------------------------------------------------------------------------

  /** What the finished items owe the timeline and the input messages. */
  ghost predicate Projection(items: seq<Item>, k: nat, ranges: seq<(nat, nat)>, tl: seq<TimelineEvent>,
                             messages: seq<Message>, bounds: set<string>) {
    && k <= |items|
    && PlacedAt(items[..k], ranges, |tl|, tl, messages, bounds)
    && Flatten(items) == Marks(tl, |tl|) + Missing(messages, Represented(tl, |tl|))
    && Flatten(items[..k]) == Marks(tl, |tl|)
    && NoRepeats(items)
    && Appended(items, k, messages)
    && (forall i :: 0 <= i < |messages| ==> messages[i].id in OwnedByAll(items))
  }

  /** `flushActivity`. */
  method FlushActivity(tl: seq<TimelineEvent>, n: nat, messages: seq<Message>, bounds: set<string>,
                       items: seq<Item>, represented: set<string>, current: Option<Group>,
                       ghost ranges: seq<(nat, nat)>, ghost lo: nat)
    returns (items': seq<Item>, ghost ranges': seq<(nat, nat)>)
    requires Inv(tl, n, messages, bounds, items, represented, current, ranges, lo)
    requires n == |tl| || Cuts(tl[n], bounds)
    ensures items' == if current.Some? then items + [Activity(current.value)] else items
    ensures Inv(tl, n, messages, bounds, items', represented, None, ranges', lo)
  {
    items', ranges' := items, ranges;
    if current.Some? {
      FlushKeeps(tl, n, messages, bounds, items, represented, current.value, ranges, lo);
      items', ranges' := items + [Activity(current.value)], ranges + [(lo, n)];
    }
  }

  /** One timeline event that is not kept inside a group, whatever it does to an open one. */
  method PresentOuter(tl: seq<TimelineEvent>, n: nat, messages: seq<Message>, bounds: set<string>,
                      items: seq<Item>, represented: set<string>, current: Option<Group>,
                      ghost ranges: seq<(nat, nat)>, ghost lo: nat)
    returns (items': seq<Item>, represented': set<string>, current': Option<Group>, ghost ranges': seq<(nat, nat)>)
    requires Inv(tl, n, messages, bounds, items, represented, current, ranges, lo)
    requires n < |tl| && EventOk(tl[n], messages) && !Inner(tl[n])
    requires current.Some? && Cuts(tl[n], bounds) ==> tl[n].boundary
    ensures Inv(tl, n + 1, messages, bounds, items', represented', current', ranges', lo)
  {
    var item := tl[n];
    items', represented', ranges' := items, represented, ranges;
    current' := current;
    if item.usage.Some? && current'.Some? {
      current' := Some(current'.value.(usage := item.usage));
    }
    if item.boundary {
      items', ranges' := FlushActivity(tl, n, messages, bounds, items', represented', current', ranges', lo);
      current' := None;
    }
    if !item.hidden && item.message.Some? && item.message.value.id !in represented {
      ShowKeeps(tl, n, messages, bounds, items', represented', ranges', lo);
      var m := item.message.value;
      items' := items' + [Shown(m, MessageIndex(messages, m))];
      represented', ranges' := represented' + {m.id}, ranges' + [(n, n + 1)];
    } else if item.boundary {
      QuietKeeps(tl, n, messages, bounds, items', represented', None, ranges', lo);
    } else {
      QuietKeeps(tl, n, messages, bounds, items', represented', current, ranges', lo);
    }
  }

  /** The loop over the timeline; the groups and messages it emits stand for increasing ranges
      of the timeline. */
  method GroupTimeline(tl: seq<TimelineEvent>, messages: seq<Message>, bounds: set<string>)
    returns (items: seq<Item>, represented: set<string>, ghost ranges: seq<(nat, nat)>)
    requires TimelineOk(tl, messages)
    ensures exists lo :: Inv(tl, |tl|, messages, bounds, items, represented, None, ranges, lo)
  {
    items, represented, ranges := [], {}, [];
    var current: Option<Group> := None;
    ghost var lo := 0;
    var n := 0;
    while n < |tl|
      invariant 0 <= n <= |tl|
      invariant Inv(tl, n, messages, bounds, items, represented, current, ranges, lo)
    {
      assert EventOk(tl[n], messages);
      items, represented, current, ranges, lo :=
        GroupOne(tl, n, messages, bounds, items, represented, current, ranges, lo);
      n := n + 1;
    }
    items, ranges := FlushActivity(tl, n, messages, bounds, items, represented, current, ranges, lo);
  }

  /** An activity that is no boundary joins the open group, or opens one. */
  method PushInner(tl: seq<TimelineEvent>, n: nat, messages: seq<Message>, bounds: set<string>,
                   items: seq<Item>, represented: set<string>, current: Option<Group>,
                   ghost ranges: seq<(nat, nat)>, ghost lo: nat)
    returns (represented': set<string>, current': Option<Group>, ghost lo': nat)
    requires Inv(tl, n, messages, bounds, items, represented, current, ranges, lo)
    requires n < |tl| && EventOk(tl[n], messages) && Inner(tl[n])
    requires current.Some? ==> !Cuts(tl[n], bounds)
    ensures Inv(tl, n + 1, messages, bounds, items, represented', current', ranges, lo')
  {
    var item := tl[n];
    PushKeeps(tl, n, messages, bounds, items, represented, current, ranges, lo);
    lo' := if current.Some? then lo else n;
    current' := Some(Grown(current, item, messages));
    represented' := if item.message.Some? then represented + {item.message.value.id} else represented;
  }

  /** The body of the timeline loop. */
  method GroupOne(tl: seq<TimelineEvent>, n: nat, messages: seq<Message>, bounds: set<string>,
                  items0: seq<Item>, represented0: set<string>, current0: Option<Group>,
                  ghost ranges0: seq<(nat, nat)>, ghost lo0: nat)
    returns (items: seq<Item>, represented: set<string>, current: Option<Group>,
             ghost ranges: seq<(nat, nat)>, ghost lo: nat)
    requires Inv(tl, n, messages, bounds, items0, represented0, current0, ranges0, lo0)
    requires n < |tl| && EventOk(tl[n], messages)
    ensures Inv(tl, n + 1, messages, bounds, items, represented, current, ranges, lo)
  {
    items, represented, current, ranges, lo := items0, represented0, current0, ranges0, lo0;
    var item := tl[n];
    if item.message.Some? && item.message.value.id in bounds {
      items, ranges := FlushActivity(tl, n, messages, bounds, items, represented, current, ranges, lo);
      current := None;
    }
    if item.activity.Some? && !item.boundary {
      represented, current, lo := PushInner(tl, n, messages, bounds, items, represented, current, ranges, lo);
    } else {
      items, represented, current, ranges :=
        PresentOuter(tl, n, messages, bounds, items, represented, current, ranges, lo);
    }
  }

  lemma {:induction false} MissingStep(messages: seq<Message>, i: nat, seen: set<string>)
    requires i < |messages|
    ensures Missing(messages[i..], seen) ==
            if messages[i].id in seen then Missing(messages[i + 1..], seen)
            else [Msg(messages[i])] + Missing(messages[i + 1..], seen + {messages[i].id})
  {
    SliceTail(messages, i, |messages|);
  }

  /** Items appended after `k` are messages with their own input index. */
  ghost predicate Appended(items: seq<Item>, k: nat, messages: seq<Message>) {
    forall j :: k <= j < |items| ==> items[j].Shown? && items[j].index == MessageIndex(messages, items[j].message)
  }

  /** The closing loop over the messages. */
  method AppendMissing(grouped: seq<Item>, messages: seq<Message>, seen: set<string>)
    returns (items: seq<Item>, represented: set<string>)
    requires Ownership(grouped, seen, [])
    ensures grouped <= items && Appended(items, |grouped|, messages)
    ensures Flatten(items) == Flatten(grouped) + Missing(messages, seen)
    ensures Ownership(items, represented, [])
    ensures forall j :: 0 <= j < |messages| ==> messages[j].id in represented
  {
    items, represented := grouped, seen;
    ghost var whole := Flatten(grouped) + Missing(messages, seen);
    assert messages[0..] == messages;
    var i := 0;
    while i < |messages|
      invariant 0 <= i <= |messages|
      invariant grouped <= items && Appended(items, |grouped|, messages)
      invariant Flatten(items) + Missing(messages[i..], represented) == whole
      invariant Ownership(items, represented, [])
      invariant forall j :: 0 <= j < i ==> messages[j].id in represented
    {
      var m := messages[i];
      MissingStep(messages, i, represented);
      if m.id !in represented {
        var item := Shown(m, MessageIndex(messages, m));
        ShowOwnership(items, represented, m, item.index);
        FlattenPush(items, item);
        Assoc(Flatten(items), [Msg(m)], Missing(messages[i + 1..], represented + {m.id}));
        items, represented := items + [item], represented + {m.id};
      }
      i := i + 1;
    }
    assert Flatten(items) + [] == Flatten(items);
  }

  /** Grouping conserves and orders: taken apart, the items are the inner events and visible
      messages of the timeline in timeline order, then the messages still missing in input
      order.  Each group covers a range without a cut and ends only at one; no message repeats
      what something before it accounts for; every input message is accounted for. */
  method ProjectChatPresentationItems(events: seq<Event>, messages: seq<Message>, bounds: set<string>)
    returns (items: seq<Item>, ghost k: nat, ghost ranges: seq<(nat, nat)>)
    ensures Projection(items, k, ranges, Timeline(events, |events|, messages), messages, bounds)
  {
    var tl := TimelineEvents(events, messages);
    TimelineIsOk(events, |events|, messages);
    var grouped, seen;
    grouped, seen, ranges := GroupTimeline(tl, messages, bounds);
    FlattenClosed(grouped);
    k := |grouped|;
    var represented;
    items, represented := AppendMissing(grouped, messages, seen);
    assert items[..k] == grouped;
    assert OwnedBy([]) == {};
  }

  // ----- the same, item by item --------------------------------------------------------------

  lemma {:induction false} NoCutAt(tl: seq<TimelineEvent>, lo: nat, hi: nat, bounds: set<string>, j: nat)
    requires lo <= j < hi <= |tl| && NoCut(tl, lo, hi, bounds)
    ensures !Cuts(tl[j], bounds)
  {
    if j < hi - 1 { NoCutAt(tl, lo, hi - 1, bounds, j); }
  }

  lemma {:induction false} InnerEventsStart(tl: seq<TimelineEvent>, lo: nat, hi: nat)
    requires lo < hi <= |tl| && Inner(tl[lo])
    ensures InnerEvents(tl, lo, hi) != [] && InnerEvents(tl, lo, hi)[0] == tl[lo].activity.value
  {
    if lo + 1 < hi {
      InnerEventsStart(tl, lo, hi - 1);
    } else {
      assert InnerEvents(tl, lo, lo) == [];
    }
  }

  lemma {:induction false} OwnedSomewhere(items: seq<Item>, id: string)
    requires id in OwnedByAll(items)
    ensures exists i :: 0 <= i < |items| && id in Owns(items[i])
  {
    var k := |items| - 1;
    if id !in Owns(items[k]) {
      OwnedSomewhere(items[..k], id);
      var i :| 0 <= i < k && id in Owns(items[..k][i]);
      assert items[i] == items[..k][i];
    }
  }

  /** For every projection: groups are never empty and never span a boundary or an action's
      message; items before `k` follow each other in timeline order; a message owned by an
      earlier item is never shown again; every input message is owned by some item. */
  lemma {:induction false} ProjectionMeans(items: seq<Item>, k: nat, ranges: seq<(nat, nat)>, tl: seq<TimelineEvent>,
                                           messages: seq<Message>, bounds: set<string>)
    requires Projection(items, k, ranges, tl, messages, bounds)
    ensures forall i :: 0 <= i < k ==> ItemAt(items[i], tl, ranges[i], messages, bounds)
    ensures forall i, j :: 0 <= i < k && items[i].Activity? && ranges[i].0 < j < ranges[i].1 && j < |tl| ==>
              !tl[j].boundary && (tl[j].message.Some? ==> tl[j].message.value.id !in bounds)
    ensures forall i :: 0 <= i < k && items[i].Activity? ==> items[i].group.events != []
    ensures forall i {:trigger ranges[i].1} :: 0 <= i < k - 1 ==> ranges[i].1 <= ranges[i + 1].0
    ensures forall i, j :: 0 <= i < j < |items| && items[j].Shown? ==> items[j].message.id !in Owns(items[i])
    ensures forall m :: m in messages ==> exists i :: 0 <= i < |items| && m.id in Owns(items[i])
  {
    forall i | 0 <= i < k
      ensures ItemAt(items[i], tl, ranges[i], messages, bounds)
      ensures i < k - 1 ==> ranges[i].1 <= ranges[i + 1].0
      ensures items[i].Activity? ==> items[i].group.events != []
    {
      PlacedAtIndex(items[..k], ranges, |tl|, tl, messages, bounds, i);
      assert items[..k][i] == items[i];
      if items[i].Activity? { InnerEventsStart(tl, ranges[i].0, ranges[i].1); }
    }
    forall i, j | 0 <= i < k && items[i].Activity? && ranges[i].0 < j < ranges[i].1 && j < |tl|
      ensures !Cuts(tl[j], bounds)
    {
      NoCutAt(tl, ranges[i].0 + 1, ranges[i].1, bounds, j);
    }
    forall i, j | 0 <= i < j < |items| && items[j].Shown?
      ensures items[j].message.id !in Owns(items[i])
    {
      NoRepeatsAt(items, i, j);
    }
    forall m | m in messages
      ensures exists i :: 0 <= i < |items| && m.id in Owns(items[i])
    {
      var j :| 0 <= j < |messages| && messages[j] == m;
      OwnedSomewhere(items, messages[j].id);
    }
  }

  // ----- attachments and markers in the items ----------------------------------------------------

  lemma {:induction false} InnerEventFrom(tl: seq<TimelineEvent>, lo: nat, hi: nat, a: ActivityEvent)
    requires lo <= hi <= |tl| && a in InnerEvents(tl, lo, hi)
    ensures exists j :: lo <= j < hi && tl[j].activity == Some(a) && !tl[j].boundary
  {
    if !(Inner(tl[hi - 1]) && tl[hi - 1].activity.value == a) { InnerEventFrom(tl, lo, hi - 1, a); }
  }

  /** An entry of the timeline that is no boundary is no marker and has no attachments. */
  lemma {:induction false} PlainEntry(events: seq<Event>, messages: seq<Message>, j: nat)
    requires j < |Timeline(events, |events|, messages)| && !Timeline(events, |events|, messages)[j].boundary
    ensures var t := Timeline(events, |events|, messages)[j];
            && t.event.kind != RunMarker && t.event.kind != CompactionMarker && t.event.kind != CompactionSummary
            && t.event.kind != ActionExecutionResult && t.event.kind != OtherKind && !CarriesAttachments(t)
            && (t.activity.Some? ==> t.activity.value.message == t.message)
            && (t.activity.Some? && t.activity.value.call.Some? ==> IsCall(t.event.kind))
  {
    EntriesAre(events, |events|, messages);
    assert EntryIs(Timeline(events, |events|, messages)[j], events, messages);
  }

  /** No activity of a group has attachments. */
  lemma {:induction false} GroupsHaveNoAttachments(events: seq<Event>, messages: seq<Message>, bounds: set<string>,
                                                   g: Group, lo: nat, hi: nat, a: ActivityEvent)
    requires GroupAt(g, Timeline(events, |events|, messages), lo, hi, messages, bounds)
    requires a in g.events && a.call.Some?
    ensures a.call.value.attachments == 0 && (a.message.Some? ==> a.message.value.attachments == 0)
  {
    var tl := Timeline(events, |events|, messages);
    InnerEventFrom(tl, lo, hi, a);
    var j :| lo <= j < hi && tl[j].activity == Some(a) && !tl[j].boundary;
    PlainEntry(events, messages, j);
  }

  /** The timeline places of a group. */
  ghost predicate InRange(items: seq<Item>, ranges: seq<(nat, nat)>, i: nat, j: int)
    requires i < |items| && i < |ranges|
  {
    items[i].Activity? && ranges[i].0 <= j < ranges[i].1
  }

  /** A tool call with attachments is in no group, and no group spans one, a run or compaction
      marker, an action result or an event of another kind. */
  lemma {:induction false} AttachmentsStayOutside(events: seq<Event>, messages: seq<Message>, bounds: set<string>,
                                                  items: seq<Item>, k: nat, ranges: seq<(nat, nat)>)
    requires Projection(items, k, ranges, Timeline(events, |events|, messages), messages, bounds)
    ensures forall i, a :: 0 <= i < |items| && items[i].Activity? && a in items[i].group.events && a.call.Some? ==>
              a.call.value.attachments == 0 && (a.message.Some? ==> a.message.value.attachments == 0)
    ensures |ranges| == k
    ensures forall i, j :: 0 <= i < k && InRange(items, ranges, i, j) ==>
              && j < |Timeline(events, |events|, messages)|
              && var t := Timeline(events, |events|, messages)[j];
                 && t.event.kind != RunMarker && t.event.kind != CompactionMarker && t.event.kind != CompactionSummary
                 && t.event.kind != ActionExecutionResult && t.event.kind != OtherKind && !CarriesAttachments(t)
  {
    var tl := Timeline(events, |events|, messages);
    PlacedLength(items[..k], ranges, |tl|, tl, messages, bounds);
    forall i | 0 <= i < |items| && items[i].Activity?
      ensures i < k && GroupAt(items[i].group, tl, ranges[i].0, ranges[i].1, messages, bounds)
    {
      assert i < k;
      PlacedAtIndex(items[..k], ranges, |tl|, tl, messages, bounds, i);
      assert items[..k][i] == items[i];
    }
    forall i, a | 0 <= i < |items| && items[i].Activity? && a in items[i].group.events && a.call.Some?
      ensures a.call.value.attachments == 0 && (a.message.Some? ==> a.message.value.attachments == 0)
    {
      GroupsHaveNoAttachments(events, messages, bounds, items[i].group, ranges[i].0, ranges[i].1, a);
    }
    forall i, j | 0 <= i < k && InRange(items, ranges, i, j)
      ensures j < |tl| && !tl[j].boundary
    {
      if j > ranges[i].0 { NoCutAt(tl, ranges[i].0 + 1, ranges[i].1, bounds, j); }
    }
    forall i, j | 0 <= i < k && InRange(items, ranges, i, j)
      ensures j < |tl| && !tl[j].boundary && !CarriesAttachments(tl[j])
      ensures var t := tl[j];
              && t.event.kind != RunMarker && t.event.kind != CompactionMarker && t.event.kind != CompactionSummary
              && t.event.kind != ActionExecutionResult && t.event.kind != OtherKind
    {
      PlainEntry(events, messages, j);
    }
  }

  lemma {:induction false} PlacedLength(items: seq<Item>, ranges: seq<(nat, nat)>, limit: nat, tl: seq<TimelineEvent>,
                                        messages: seq<Message>, bounds: set<string>)
    requires PlacedAt(items, ranges, limit, tl, messages, bounds)
    ensures |ranges| == |items|
  {
  }

  /** And the message shown for a call with attachments is shown or owned by an item. */
  lemma {:induction false} AttachmentsAreShown(events: seq<Event>, messages: seq<Message>, bounds: set<string>,
                                               items: seq<Item>, k: nat, ranges: seq<(nat, nat)>, t: TimelineEvent)
    requires Projection(items, k, ranges, Timeline(events, |events|, messages), messages, bounds)
    requires t in Timeline(events, |events|, messages) && CarriesAttachments(t) && t.message.Some?
    ensures exists i :: 0 <= i < |items| && t.message.value.id in Owns(items[i])
  {
    var tl := Timeline(events, |events|, messages);
    TimelineIsOk(events, |events|, messages);
    var j :| 0 <= j < |tl| && tl[j] == t;
    assert EventOk(tl[j], messages);
    var n :| 0 <= n < |messages| && messages[n] == t.message.value;
    OwnedSomewhere(items, messages[n].id);
  }

  /** A message's index is the first place it stands at. */
  lemma {:induction false} MessageIndexMeans(messages: seq<Message>, m: Message)
    ensures var k := MessageIndex(messages, m);
            && k <= |messages| && (k < |messages| <==> m in messages) && (k < |messages| ==> messages[k] == m)
            && forall j :: 0 <= j < k ==> messages[j] != m
  {
    if messages != [] && messages[0] != m { MessageIndexMeans(messages[1..], m); HeadTail(messages); }
  }
}
