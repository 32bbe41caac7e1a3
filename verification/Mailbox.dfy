/** The pending-mailbox reducer.  Its state keeps, beside the current envelopes, an index of
    visible entries keyed by `"<mailbox id>:<item key>"` and permanent suppression marks. */
module PendingMailbox {
  import opened Basics

  datatype Item = Item(key: string, content: int)

  datatype Envelope = Envelope(id: string, items: seq<Item>, details: int)

  datatype Entry = Entry(envelope: Envelope, item: Item, deleting: bool)

  datatype State = State(
    order: seq<string>,
    envelopes: map<string, Envelope>,
    entries: map<string, Entry>,
    goneMailboxes: set<string>,
    goneItems: set<string>)

  datatype Action =
    | BaselineReplaced(baseline: seq<Envelope>)
    | Upserted(envelope: Envelope)
    | Removed(id: string)
    | DurablePromoted(correlation: string)
    | ActionOwnershipUpdated(id: string)
    | MarkDeleting(id: string)
    | DeleteFailed(id: string)
    | DeleteSucceeded(id: string)

  const EMPTY := State([], map[], map[], {}, {})

  function Correlation(id: string, key: string): string {
    id + ":" + key
  }

  // ----- correlation strings --------------------------------------------------------------

  /** `text.split(":")`, with the characters of the current part so far in `part`. */
  function SplitColons(text: string, part: string): (parts: seq<string>)
    ensures parts != []
    decreases |text|
  {
    if text == "" then [part]
    else if text[0] == ':' then [part] + SplitColons(text[1..], "")
    else SplitColons(text[1..], part + [text[0]])
  }

  function JoinColons(parts: seq<string>): string {
    if parts == [] then "" else if |parts| == 1 then parts[0] else parts[0] + ":" + JoinColons(parts[1..])
  }

  /** Taking a correlation apart and putting it together again, as suppression does. */
  function Rejoin(correlation: string): string {
    var parts := SplitColons(correlation, "");
    Correlation(parts[0], JoinColons(parts[1..]))
  }

  lemma {:induction false} JoinSplit(text: string, part: string)
    ensures JoinColons(SplitColons(text, part)) == part + text
    ensures |SplitColons(text, part)| > 1 <==> ':' in text
    decreases |text|
  {
    if text == "" {
      assert part + text == part;
    } else if text[0] == ':' {
      JoinSplit(text[1..], "");
      assert SplitColons(text, part)[1..] == SplitColons(text[1..], "");
      assert "" + text[1..] == text[1..];
      assert part + ":" + text[1..] == part + text;
    } else {
      JoinSplit(text[1..], part + [text[0]]);
      assert part + [text[0]] + text[1..] == part + text;
      assert text == [text[0]] + text[1..];
    }
  }

  /** Rejoining changes nothing exactly when there is a colon to split at. */
  lemma {:induction false} RejoinExact(correlation: string)
    ensures Rejoin(correlation) == if ':' in correlation then correlation else correlation + ":"
  {
    JoinSplit(correlation, "");
    var parts := SplitColons(correlation, "");
    assert "" + correlation == correlation;
    if ':' !in correlation {
      assert parts[0] + ":" + "" == parts[0] + ":";
    }
  }

  predicate ColonFree(id: string) {
    forall i :: 0 <= i < |id| ==> id[i] != ':'
  }

  lemma {:induction false} CorrelationInjective(id: string, key: string, id': string, key': string)
    requires Correlation(id, key) == Correlation(id', key')
    ensures id == id' ==> key == key'
    ensures ColonFree(id) && ColonFree(id') ==> id == id' && key == key'
  {
    var c := Correlation(id, key);
    assert c[..|id|] == id && c[|id| + 1..] == key && c[|id|] == ':';
    assert c[..|id'|] == id' && c[|id'| + 1..] == key' && c[|id'|] == ':';
    if |id| < |id'| { assert id'[|id|] == ':'; }
    if |id'| < |id| { assert id[|id'|] == ':'; }
  }

  // ----- the reducer ------------------------------------------------------------------------

  predicate ItemSuppressed(s: State, id: string, key: string) {
    id in s.goneMailboxes || Correlation(id, key) in s.goneItems
  }

  function RemoveEnvelopeEntries(entries: map<string, Entry>, id: string): map<string, Entry> {
    map c | c in entries && entries[c].envelope.id != id :: entries[c]
  }

  predicate AnyDeleting(entries: map<string, Entry>, id: string) {
    exists c :: c in entries && entries[c].envelope.id == id && entries[c].deleting
  }

  /** The first `n` items written into the index, suppressed ones skipped. */
  function PutItems(s: State, e: Envelope, deleting: bool, entries: map<string, Entry>, n: nat): map<string, Entry>
    requires n <= |e.items|
  {
    if n == 0 then entries
    else
      var before := PutItems(s, e, deleting, entries, n - 1);
      var item := e.items[n - 1];
      if ItemSuppressed(s, e.id, item.key) then before
      else before[Correlation(e.id, item.key) := Entry(e, item, deleting)]
  }

  function AddEnvelope(s: State, e: Envelope): State {
    s.(order := if e.id in s.envelopes then s.order else s.order + [e.id],
       envelopes := s.envelopes[e.id := e],
       entries := PutItems(s, e, AnyDeleting(s.entries, e.id), RemoveEnvelopeEntries(s.entries, e.id), |e.items|))
  }

  function AddAll(s: State, envelopes: seq<Envelope>): State
    decreases |envelopes|
  {
    if envelopes == [] then s else AddAll(AddEnvelope(s, envelopes[0]), envelopes[1..])
  }

  function Cleared(s: State): State {
    s.(order := [], envelopes := map[], entries := map[])
  }

  function SuppressCorrelation(s: State, correlation: string): State {
    s.(entries := s.entries - {correlation}, goneItems := s.goneItems + {Rejoin(correlation)})
  }

  function SuppressMailbox(s: State, id: string): State {
    s.(entries := RemoveEnvelopeEntries(s.entries, id), goneMailboxes := s.goneMailboxes + {id})
  }

  function RemoveMailbox(s: State, id: string): State {
    s.(order := Without(s.order, id), envelopes := s.envelopes - {id}, entries := RemoveEnvelopeEntries(s.entries, id))
  }

  function Without(order: seq<string>, id: string): seq<string> {
    if order == [] then []
    else if order[0] == id then Without(order[1..], id)
    else [order[0]] + Without(order[1..], id)
  }

  function SetDeleting(entries: map<string, Entry>, id: string, deleting: bool): map<string, Entry> {
    map c | c in entries ::
      if entries[c].envelope.id == id then entries[c].(deleting := deleting) else entries[c]
  }

  function Reduce(s: State, a: Action): State {
    match a
    case BaselineReplaced(envelopes) => AddAll(Cleared(s), envelopes)
    case Upserted(e) => AddEnvelope(s, e)
    case Removed(id) => RemoveMailbox(s, id)
    case DurablePromoted(c) => SuppressCorrelation(s, c)
    case ActionOwnershipUpdated(id) => SuppressMailbox(s, id)
    case MarkDeleting(id) => s.(entries := SetDeleting(s.entries, id, true))
    case DeleteFailed(id) => s.(entries := SetDeleting(s.entries, id, false))
    case DeleteSucceeded(id) => SuppressMailbox(RemoveMailbox(s, id), id)
  }

  function SelectItems(s: State, id: string, items: seq<Item>): seq<Entry> {
    if items == [] then []
    else
      var c := Correlation(id, items[0].key);
      (if c in s.entries then [s.entries[c]] else []) + SelectItems(s, id, items[1..])
  }

  function SelectFrom(s: State, order: seq<string>): seq<Entry> {
    if order == [] then []
    else (if order[0] in s.envelopes then SelectItems(s, order[0], s.envelopes[order[0]].items) else [])
         + SelectFrom(s, order[1..])
  }

  /** What the interface shows. */
  function Select(s: State): seq<Entry> {
    SelectFrom(s, s.order)
  }

  // ----- the loops of the reducer ---------------------------------------------------------------

  method AddEnvelopeLoop(s: State, e: Envelope) returns (next: State)
    ensures next == AddEnvelope(s, e)
  {
    var order := if e.id in s.envelopes then s.order else s.order + [e.id];
    var entries := RemoveEnvelopeEntries(s.entries, e.id);
    var deleting := AnyDeleting(s.entries, e.id);
    var i := 0;
    while i < |e.items|
      invariant 0 <= i <= |e.items|
      invariant entries == PutItems(s, e, deleting, RemoveEnvelopeEntries(s.entries, e.id), i)
    {
      var item := e.items[i];
      i := i + 1;
      if ItemSuppressed(s, e.id, item.key) {
        continue;
      }
      entries := entries[Correlation(e.id, item.key) := Entry(e, item, deleting)];
    }
    next := s.(order := order, envelopes := s.envelopes[e.id := e], entries := entries);
  }

  method PendingMailboxReducer(s: State, a: Action) returns (next: State)
    ensures next == Reduce(s, a)
    decreases a.DeleteSucceeded?
  {
    match a
    case BaselineReplaced(envelopes) =>
      next := Cleared(s);
      var i := 0;
      while i < |envelopes|
        invariant 0 <= i <= |envelopes|
        invariant AddAll(Cleared(s), envelopes) == AddAll(next, envelopes[i..])
      {
        next := AddEnvelopeLoop(next, envelopes[i]);
        i := i + 1;
      }
    case Upserted(e) => next := AddEnvelopeLoop(s, e);
    case Removed(id) => next := RemoveMailbox(s, id);
    case DurablePromoted(c) => next := SuppressCorrelation(s, c);
    case ActionOwnershipUpdated(id) => next := SuppressMailbox(s, id);
    case MarkDeleting(id) => next := s.(entries := SetDeleting(s.entries, id, true));
    case DeleteFailed(id) => next := s.(entries := SetDeleting(s.entries, id, false));
    case DeleteSucceeded(id) =>
      next := PendingMailboxReducer(s, Removed(id));
      next := SuppressMailbox(next, id);
  }

  // ----- the index invariant ------------------------------------------------------------------

  /** The item an envelope shows for a key: the last one, should keys repeat. */
  function LastWithKey(items: seq<Item>, key: string): (r: Option<Item>)
    ensures r == None <==> forall i :: 0 <= i < |items| ==> items[i].key != key
    ensures r.Some? ==> r.value in items && r.value.key == key
  {
    if items == [] then None
    else if items[|items| - 1].key == key then Some(items[|items| - 1])
    else LastWithKey(items[..|items| - 1], key)
  }

  /** The index entry that belongs to mailbox `id` and key `key`, if it should be visible. */
  ghost predicate Belongs(s: State, id: string, key: string) {
    && id in s.envelopes
    && LastWithKey(s.envelopes[id].items, key).Some?
    && !ItemSuppressed(s, id, key)
  }

  ghost predicate EntryOk(s: State, c: string, x: Entry) {
    && c == Correlation(x.envelope.id, x.item.key)
    && Belongs(s, x.envelope.id, x.item.key)
    && x.envelope == s.envelopes[x.envelope.id]
    && Some(x.item) == LastWithKey(x.envelope.items, x.item.key)
  }

  ghost predicate OrderOk(s: State) {
    && NoDup(s.order)
    && (forall id :: id in s.order <==> id in s.envelopes)
    && (forall id :: id in s.envelopes ==> s.envelopes[id].id == id && ColonFree(id))
  }

  /** No entry is stale. */
  ghost predicate EntriesOk(s: State) {
    forall c :: c in s.entries ==> EntryOk(s, c, s.entries[c])
  }

  /** No visible item lacks its entry. */
  ghost predicate Complete(s: State) {
    forall id, key :: Belongs(s, id, key) ==> Correlation(id, key) in s.entries
  }

  /** All entries of one mailbox share their flag. */
  ghost predicate FlagsAgree(s: State) {
    forall c, c' :: c in s.entries && c' in s.entries && s.entries[c].envelope.id == s.entries[c'].envelope.id ==>
      s.entries[c].deleting == s.entries[c'].deleting
  }

  ghost predicate Inv(s: State) {
    OrderOk(s) && EntriesOk(s) && Complete(s) && FlagsAgree(s)
  }

  /** Mailbox ids without a colon, and correlations of the form their type prescribes. */
  predicate ActionOk(a: Action) {
    match a
    case BaselineReplaced(envelopes) => forall i :: 0 <= i < |envelopes| ==> ColonFree(envelopes[i].id)
    case Upserted(e) => ColonFree(e.id)
    case DurablePromoted(c) => ':' in c
    case _ => true
  }

  lemma {:induction false} LastWithKeyNext(items: seq<Item>, n: nat, key: string)
    requires 0 < n <= |items|
    ensures LastWithKey(items[..n], key) ==
            if key == items[n - 1].key then Some(items[n - 1]) else LastWithKey(items[..n - 1], key)
  {
    assert items[..n][..n - 1] == items[..n - 1];
  }

  /** What the loop over one envelope's items leaves in the index. */
  lemma {:induction false} PutItemsSpec(s: State, e: Envelope, deleting: bool, entries: map<string, Entry>, n: nat)
    requires n <= |e.items|
    ensures var r := PutItems(s, e, deleting, entries, n);
            && (forall key :: LastWithKey(e.items[..n], key).Some? && !ItemSuppressed(s, e.id, key) ==>
                  && Correlation(e.id, key) in r
                  && r[Correlation(e.id, key)] == Entry(e, LastWithKey(e.items[..n], key).value, deleting))
            && (forall c :: c in r ==>
                  (c in entries && r[c] == entries[c]) ||
                  exists key :: && c == Correlation(e.id, key) && !ItemSuppressed(s, e.id, key)
                                && LastWithKey(e.items[..n], key).Some?)
            && (forall c :: c in entries ==> c in r)
            && (forall c :: c in entries && (forall key :: c != Correlation(e.id, key)) ==> r[c] == entries[c])
  {
    var r := PutItems(s, e, deleting, entries, n);
    forall key | LastWithKey(e.items[..n], key).Some? && !ItemSuppressed(s, e.id, key)
      ensures Correlation(e.id, key) in r
      ensures r[Correlation(e.id, key)] == Entry(e, LastWithKey(e.items[..n], key).value, deleting)
    {
      ItemPut(s, e, deleting, entries, n, key);
    }
    forall c
      ensures c in entries ==> c in r
      ensures c in r && !(c in entries && r[c] == entries[c]) ==>
                exists key :: && c == Correlation(e.id, key) && !ItemSuppressed(s, e.id, key)
                              && LastWithKey(e.items[..n], key).Some?
    {
      EntryFrom(s, e, deleting, entries, n, c);
    }
  }

  /** The item loop leaves the last item of an unsuppressed key in the index. */
  lemma {:induction false} ItemPut(s: State, e: Envelope, deleting: bool, entries: map<string, Entry>, n: nat,
                                   key: string)
    requires n <= |e.items| && LastWithKey(e.items[..n], key).Some? && !ItemSuppressed(s, e.id, key)
    ensures var r := PutItems(s, e, deleting, entries, n);
            && Correlation(e.id, key) in r
            && r[Correlation(e.id, key)] == Entry(e, LastWithKey(e.items[..n], key).value, deleting)
  {
    if n > 0 {
      LastWithKeyNext(e.items, n, key);
      if key != e.items[n - 1].key {
        ItemPut(s, e, deleting, entries, n - 1, key);
        if Correlation(e.id, key) == Correlation(e.id, e.items[n - 1].key) {
          CorrelationInjective(e.id, key, e.id, e.items[n - 1].key);
        }
      }
    }
  }

  /** An entry after the item loop was there before or is an unsuppressed item's. */
  lemma {:induction false} EntryFrom(s: State, e: Envelope, deleting: bool, entries: map<string, Entry>, n: nat,
                                     c: string)
    requires n <= |e.items|
    ensures var r := PutItems(s, e, deleting, entries, n);
            && (c in entries ==> c in r)
            && (c in r && !(c in entries && r[c] == entries[c]) ==>
                  exists key :: && c == Correlation(e.id, key) && !ItemSuppressed(s, e.id, key)
                                && LastWithKey(e.items[..n], key).Some?)
  {
    if n > 0 {
      EntryFrom(s, e, deleting, entries, n - 1, c);
      var item, before := e.items[n - 1], PutItems(s, e, deleting, entries, n - 1);
      LastWithKeyNext(e.items, n, item.key);
      if c == Correlation(e.id, item.key) && !ItemSuppressed(s, e.id, item.key) {
        assert LastWithKey(e.items[..n], item.key).Some?;
      } else if c in before && !(c in entries && before[c] == entries[c]) {
        var key :| && c == Correlation(e.id, key) && !ItemSuppressed(s, e.id, key)
                   && LastWithKey(e.items[..n - 1], key).Some?;
        LastWithKeyNext(e.items, n, key);
      }
    }
  }

  lemma {:induction false} AddKeepsInv(s: State, e: Envelope)
    requires Inv(s) && ColonFree(e.id)
    ensures Inv(AddEnvelope(s, e))
  {
    var t := AddEnvelope(s, e);
    forall c | c in t.entries
      ensures EntryOk(t, c, t.entries[c])
    {
      EntryAfterAdd(s, e, c);
    }
    forall id, key | Belongs(t, id, key)
      ensures Correlation(id, key) in t.entries
    {
      BelongsAfterAdd(s, e, id, key);
    }
    forall c, c' | c in t.entries && c' in t.entries && t.entries[c].envelope.id == t.entries[c'].envelope.id
      ensures t.entries[c].deleting == t.entries[c'].deleting
    {
      EntryAfterAdd(s, e, c);
      EntryAfterAdd(s, e, c');
    }
  }

  lemma {:induction false} BelongsAfterAdd(s: State, e: Envelope, id: string, key: string)
    requires Inv(s) && Belongs(AddEnvelope(s, e), id, key)
    ensures Correlation(id, key) in AddEnvelope(s, e).entries
  {
    var kept := RemoveEnvelopeEntries(s.entries, e.id);
    PutItemsSpec(s, e, AnyDeleting(s.entries, e.id), kept, |e.items|);
    assert e.items[..|e.items|] == e.items;
    if id != e.id {
      assert Belongs(s, id, key);
      var c := Correlation(id, key);
      assert EntryOk(s, c, s.entries[c]);
      CorrelationInjective(id, key, s.entries[c].envelope.id, s.entries[c].item.key);
    }
  }

  lemma {:induction false} EntryAfterAdd(s: State, e: Envelope, c: string)
    requires Inv(s) && ColonFree(e.id) && c in AddEnvelope(s, e).entries
    ensures var t := AddEnvelope(s, e);
            && EntryOk(t, c, t.entries[c])
            && if t.entries[c].envelope.id == e.id then t.entries[c].deleting == AnyDeleting(s.entries, e.id)
               else c in s.entries && t.entries[c] == s.entries[c]
  {
    var t := AddEnvelope(s, e);
    var kept := RemoveEnvelopeEntries(s.entries, e.id);
    PutItemsSpec(s, e, AnyDeleting(s.entries, e.id), kept, |e.items|);
    assert e.items[..|e.items|] == e.items;
    if c in kept && t.entries[c] == kept[c] {
      assert EntryOk(s, c, s.entries[c]);
      assert Belongs(t, s.entries[c].envelope.id, s.entries[c].item.key);
    } else {
      var key :| c == Correlation(e.id, key) && !ItemSuppressed(s, e.id, key) && LastWithKey(e.items, key).Some?;
    }
  }

  /** Taking out an id keeps the others in their order. */
  lemma {:induction false} WithoutKeepsOrder(before: seq<string>, id: string, after: seq<string>)
    requires id !in before && id !in after
    ensures Without(before + [id] + after, id) == before + after && Without(after, id) == after
    decreases |before| + |after|
  {
    if before != [] {
      assert (before + [id] + after)[1..] == before[1..] + [id] + after;
      WithoutKeepsOrder(before[1..], id, after);
      assert before + after == [before[0]] + (before[1..] + after);
    } else {
      assert [] + [id] + after == [id] + after && ([id] + after)[1..] == after;
      if after != [] { WithoutKeepsOrder([], id, after[1..]); }
    }
  }

  lemma {:induction false} WithoutSpec(order: seq<string>, id: string)
    requires NoDup(order)
    ensures NoDup(Without(order, id))
    ensures forall x :: x in Without(order, id) <==> x in order && x != id
  {
    if order != [] {
      WithoutSpec(order[1..], id);
      assert order == [order[0]] + order[1..];
      assert order[0] !in order[1..];
    }
  }

  lemma {:induction false} StepKeepsInv(s: State, a: Action)
    requires Inv(s) && ActionOk(a)
    ensures Inv(Reduce(s, a))
    decreases a.DeleteSucceeded?
  {
    match a
    case BaselineReplaced(envelopes) => AddAllRefines(Cleared(s), envelopes);
    case Upserted(e) => AddKeepsInv(s, e);
    case Removed(id) => RemoveKeepsInv(s, id);
    case DurablePromoted(c) => PromoteKeepsInv(s, c);
    case ActionOwnershipUpdated(id) => SuppressKeepsInv(s, id);
    case MarkDeleting(id) => FlagKeepsInv(s, id, true);
    case DeleteFailed(id) => FlagKeepsInv(s, id, false);
    case DeleteSucceeded(id) =>
      StepKeepsInv(s, Removed(id));
      SuppressKeepsInv(RemoveMailbox(s, id), id);
  }

  lemma {:induction false} RemoveKeepsInv(s: State, id: string)
    requires Inv(s)
    ensures Inv(RemoveMailbox(s, id))
  {
    var t := RemoveMailbox(s, id);
    WithoutSpec(s.order, id);
    forall c | c in t.entries ensures Belongs(t, s.entries[c].envelope.id, s.entries[c].item.key) {
      assert EntryOk(s, c, s.entries[c]);
    }
    forall id', key | Belongs(t, id', key)
      ensures Belongs(s, id', key) && Correlation(id', key) in t.entries
    {
      assert Belongs(s, id', key);
      EntryOf(s, id', key);
    }
    ShrinkKeepsInv(s, t);
  }

  /** A step that only takes entries away, together with everything that made them visible. */
  lemma {:induction false} ShrinkKeepsInv(s: State, t: State)
    requires Inv(s) && OrderOk(t)
    requires forall c :: c in t.entries ==> c in s.entries && t.entries[c] == s.entries[c]
    requires forall c :: c in t.entries ==> Belongs(t, s.entries[c].envelope.id, s.entries[c].item.key)
    requires forall id :: id in t.envelopes ==> id in s.envelopes && t.envelopes[id] == s.envelopes[id]
    requires forall id, key :: Belongs(t, id, key) ==>
               Belongs(s, id, key) && (Correlation(id, key) in s.entries ==> Correlation(id, key) in t.entries)
    ensures Inv(t)
  {
    forall c | c in t.entries ensures EntryOk(t, c, t.entries[c]) {
      assert EntryOk(s, c, s.entries[c]);
    }
  }

  lemma {:induction false} PromoteKeepsInv(s: State, c: string)
    requires Inv(s) && ':' in c
    ensures Inv(SuppressCorrelation(s, c))
  {
    var t := SuppressCorrelation(s, c);
    RejoinExact(c);
    forall c' | c' in t.entries ensures Belongs(t, s.entries[c'].envelope.id, s.entries[c'].item.key) {
      assert EntryOk(s, c', s.entries[c']);
    }
    ShrinkKeepsInv(s, t);
  }

  lemma {:induction false} SuppressKeepsInv(s: State, id: string)
    requires Inv(s)
    ensures Inv(SuppressMailbox(s, id))
  {
    var t := SuppressMailbox(s, id);
    forall c | c in t.entries ensures Belongs(t, s.entries[c].envelope.id, s.entries[c].item.key) {
      assert EntryOk(s, c, s.entries[c]);
    }
    forall id', key | Belongs(t, id', key)
      ensures Belongs(s, id', key) && Correlation(id', key) in t.entries
    {
      EntryOf(s, id', key);
    }
    ShrinkKeepsInv(s, t);
  }

  /** The entry under a visible item's correlation is that item's. */
  lemma {:induction false} EntryOf(s: State, id: string, key: string)
    requires Inv(s) && id in s.envelopes && Correlation(id, key) in s.entries
    ensures Belongs(s, id, key)
    ensures var x := s.entries[Correlation(id, key)];
            x.envelope == s.envelopes[id] && Some(x.item) == LastWithKey(s.envelopes[id].items, key)
  {
    var c := Correlation(id, key);
    assert EntryOk(s, c, s.entries[c]);
    CorrelationInjective(id, key, s.entries[c].envelope.id, s.entries[c].item.key);
  }

  lemma {:induction false} FlagKeepsInv(s: State, id: string, deleting: bool)
    requires Inv(s)
    ensures Inv(s.(entries := SetDeleting(s.entries, id, deleting)))
  {
    var t := s.(entries := SetDeleting(s.entries, id, deleting));
    forall c | c in t.entries ensures EntryOk(t, c, t.entries[c]) {
      assert EntryOk(s, c, s.entries[c]);
    }
    forall id, key | Belongs(t, id, key) ensures Correlation(id, key) in t.entries {
      assert Belongs(s, id, key);
    }
  }

  // ----- the simple model: no index at all ------------------------------------------------------

  /** Current envelopes, permanent suppression, and the mailboxes being deleted. */
  datatype Simple = Simple(
    order: seq<string>,
    envelopes: map<string, Envelope>,
    goneMailboxes: set<string>,
    goneItems: set<string>,
    deleting: set<string>)

  predicate Gone(m: Simple, id: string, key: string) {
    id in m.goneMailboxes || Correlation(id, key) in m.goneItems
  }

  predicate HasVisible(m: Simple, id: string) {
    id in m.envelopes && exists i :: 0 <= i < |m.envelopes[id].items| && !Gone(m, id, m.envelopes[id].items[i].key)
  }

  /** A mailbox stops being deleted when nothing of it is left to show. */
  function Settle(m: Simple): Simple {
    m.(deleting := set id | id in m.deleting && HasVisible(m, id))
  }

  function SimpleAdd(m: Simple, e: Envelope): Simple {
    Settle(m.(order := if e.id in m.envelopes then m.order else m.order + [e.id],
              envelopes := m.envelopes[e.id := e]))
  }

  function SimpleAddAll(m: Simple, envelopes: seq<Envelope>): Simple
    decreases |envelopes|
  {
    if envelopes == [] then m else SimpleAddAll(SimpleAdd(m, envelopes[0]), envelopes[1..])
  }

  function SimpleRemove(m: Simple, id: string): Simple {
    m.(order := Without(m.order, id), envelopes := m.envelopes - {id}, deleting := m.deleting - {id})
  }

  function SimpleStep(m: Simple, a: Action): Simple {
    match a
    case BaselineReplaced(envelopes) => SimpleAddAll(m.(order := [], envelopes := map[], deleting := {}), envelopes)
    case Upserted(e) => SimpleAdd(m, e)
    case Removed(id) => SimpleRemove(m, id)
    case DurablePromoted(c) => Settle(m.(goneItems := m.goneItems + {c}))
    case ActionOwnershipUpdated(id) => Settle(m.(goneMailboxes := m.goneMailboxes + {id}))
    case MarkDeleting(id) => Settle(m.(deleting := m.deleting + {id}))
    case DeleteFailed(id) => m.(deleting := m.deleting - {id})
    case DeleteSucceeded(id) => SimpleRemove(m, id).(goneMailboxes := m.goneMailboxes + {id})
  }

  function ViewItems(m: Simple, e: Envelope, items: seq<Item>): seq<Entry> {
    if items == [] then []
    else
      var shown := LastWithKey(e.items, items[0].key);
      (if Gone(m, e.id, items[0].key) || shown == None then []
       else [Entry(e, shown.value, e.id in m.deleting)]) + ViewItems(m, e, items[1..])
  }

  function ViewFrom(m: Simple, order: seq<string>): seq<Entry> {
    if order == [] then []
    else (if order[0] in m.envelopes then ViewItems(m, m.envelopes[order[0]], m.envelopes[order[0]].items) else [])
         + ViewFrom(m, order[1..])
  }

  /** The unsuppressed items of the current envelopes, in order. */
  function View(m: Simple): seq<Entry> {
    ViewFrom(m, m.order)
  }

  function DeletingIds(entries: map<string, Entry>): set<string> {
    set c | c in entries && entries[c].deleting :: entries[c].envelope.id
  }

  function Abs(s: State): Simple {
    Simple(s.order, s.envelopes, s.goneMailboxes, s.goneItems, DeletingIds(s.entries))
  }

  lemma {:induction false} VisibleHasEntry(s: State, id: string)
    requires Inv(s)
    ensures HasVisible(Abs(s), id) <==> exists c :: c in s.entries && s.entries[c].envelope.id == id
  {
    if HasVisible(Abs(s), id) {
      var i :| 0 <= i < |s.envelopes[id].items| && !Gone(Abs(s), id, s.envelopes[id].items[i].key);
      var key := s.envelopes[id].items[i].key;
      assert Belongs(s, id, key);
      EntryOf(s, id, key);
    }
    if c :| c in s.entries && s.entries[c].envelope.id == id {
      assert EntryOk(s, c, s.entries[c]);
      var i :| 0 <= i < |s.envelopes[id].items| && s.envelopes[id].items[i] == s.entries[c].item;
      assert !Gone(Abs(s), id, s.envelopes[id].items[i].key);
    }
  }

  /** When every surviving entry keeps its flag, the flagged mailboxes are those that still
      have something visible. */
  lemma {:induction false} DeletingSettles(s: State, t: State, flagged: set<string>)
    requires Inv(t)
    requires forall c :: c in t.entries ==> (t.entries[c].deleting <==> t.entries[c].envelope.id in flagged)
    ensures Abs(t) == Settle(Abs(t).(deleting := flagged))
  {
    forall id ensures id in DeletingIds(t.entries) <==> id in flagged && HasVisible(Abs(t), id) {
      VisibleHasEntry(t, id);
    }
  }

  lemma {:induction false} DeletingMeans(s: State, c: string)
    requires Inv(s) && c in s.entries
    ensures s.entries[c].deleting <==> s.entries[c].envelope.id in DeletingIds(s.entries)
  {
  }

  lemma {:induction false} AddRefines(s: State, e: Envelope)
    requires Inv(s) && ColonFree(e.id)
    ensures Abs(AddEnvelope(s, e)) == SimpleAdd(Abs(s), e)
  {
    var t := AddEnvelope(s, e);
    AddKeepsInv(s, e);
    forall c | c in t.entries
      ensures t.entries[c].deleting <==> t.entries[c].envelope.id in DeletingIds(s.entries)
    {
      EntryAfterAdd(s, e, c);
      if t.entries[c].envelope.id != e.id { DeletingMeans(s, c); }
    }
    DeletingSettles(s, t, DeletingIds(s.entries));
  }

  lemma {:induction false} AddAllRefines(s: State, envelopes: seq<Envelope>)
    requires Inv(s) && forall i :: 0 <= i < |envelopes| ==> ColonFree(envelopes[i].id)
    ensures Inv(AddAll(s, envelopes)) && Abs(AddAll(s, envelopes)) == SimpleAddAll(Abs(s), envelopes)
    decreases |envelopes|
  {
    if envelopes != [] {
      AddRefines(s, envelopes[0]);
      AddKeepsInv(s, envelopes[0]);
      AddAllRefines(AddEnvelope(s, envelopes[0]), envelopes[1..]);
    }
  }

  lemma {:induction false} RemoveRefines(s: State, id: string)
    requires Inv(s)
    ensures Abs(RemoveMailbox(s, id)) == SimpleRemove(Abs(s), id)
  {
    var t := RemoveMailbox(s, id);
    forall x ensures x in DeletingIds(t.entries) <==> x in DeletingIds(s.entries) && x != id {
      if x in DeletingIds(s.entries) && x != id {
        var c :| c in s.entries && s.entries[c].deleting && s.entries[c].envelope.id == x;
        assert c in t.entries;
      }
    }
  }

  lemma {:induction false} AllDeletingMeans(s: State)
    requires Inv(s)
    ensures forall c :: c in s.entries ==>
              (s.entries[c].deleting <==> s.entries[c].envelope.id in DeletingIds(s.entries))
  {
    forall c | c in s.entries ensures s.entries[c].deleting <==> s.entries[c].envelope.id in DeletingIds(s.entries) {
      DeletingMeans(s, c);
    }
  }

  lemma {:induction false} PromoteRefines(s: State, c: string)
    requires Inv(s) && ':' in c
    ensures Abs(SuppressCorrelation(s, c)) == SimpleStep(Abs(s), DurablePromoted(c))
  {
    RejoinExact(c);
    PromoteKeepsInv(s, c);
    AllDeletingMeans(s);
    DeletingSettles(s, SuppressCorrelation(s, c), DeletingIds(s.entries));
  }

  lemma {:induction false} SuppressRefines(s: State, id: string)
    requires Inv(s)
    ensures Abs(SuppressMailbox(s, id)) == SimpleStep(Abs(s), ActionOwnershipUpdated(id))
  {
    SuppressKeepsInv(s, id);
    AllDeletingMeans(s);
    DeletingSettles(s, SuppressMailbox(s, id), DeletingIds(s.entries));
  }

  lemma {:induction false} MarkRefines(s: State, id: string)
    requires Inv(s)
    ensures Abs(Reduce(s, MarkDeleting(id))) == SimpleStep(Abs(s), MarkDeleting(id))
  {
    var t := Reduce(s, MarkDeleting(id));
    FlagKeepsInv(s, id, true);
    forall c | c in t.entries
      ensures t.entries[c].deleting <==> t.entries[c].envelope.id in DeletingIds(s.entries) + {id}
    {
      DeletingMeans(s, c);
    }
    DeletingSettles(s, t, DeletingIds(s.entries) + {id});
  }

  lemma {:induction false} UnmarkRefines(s: State, id: string)
    requires Inv(s)
    ensures Abs(Reduce(s, DeleteFailed(id))) == SimpleStep(Abs(s), DeleteFailed(id))
  {
    var t := Reduce(s, DeleteFailed(id));
    forall x ensures x in DeletingIds(t.entries) <==> x in DeletingIds(s.entries) && x != id {
      if x in DeletingIds(s.entries) && x != id {
        var c :| c in s.entries && s.entries[c].deleting && s.entries[c].envelope.id == x;
        assert c in t.entries && t.entries[c].deleting;
      }
    }
  }

  lemma {:induction false} DeleteRefines(s: State, id: string)
    requires Inv(s)
    ensures Abs(Reduce(s, DeleteSucceeded(id))) == SimpleStep(Abs(s), DeleteSucceeded(id))
  {
    RemoveRefines(s, id);
    var mid := RemoveMailbox(s, id);
    assert RemoveEnvelopeEntries(mid.entries, id) == mid.entries;
  }

  /** Every action of the reducer is the simple model's action. */
  lemma {:induction false} StepRefines(s: State, a: Action)
    requires Inv(s) && ActionOk(a)
    ensures Abs(Reduce(s, a)) == SimpleStep(Abs(s), a)
  {
    match a
    case BaselineReplaced(envelopes) =>
      assert DeletingIds(map[]) == {};
      AddAllRefines(Cleared(s), envelopes);
    case Upserted(e) => AddRefines(s, e);
    case Removed(id) => RemoveRefines(s, id);
    case DurablePromoted(c) => PromoteRefines(s, c);
    case ActionOwnershipUpdated(id) => SuppressRefines(s, id);
    case MarkDeleting(id) => MarkRefines(s, id);
    case DeleteFailed(id) => UnmarkRefines(s, id);
    case DeleteSucceeded(id) => DeleteRefines(s, id);
  }

  lemma {:induction false} SelectItemsIsView(s: State, id: string, items: seq<Item>)
    requires Inv(s) && id in s.envelopes && forall i :: 0 <= i < |items| ==> items[i] in s.envelopes[id].items
    ensures SelectItems(s, id, items) == ViewItems(Abs(s), s.envelopes[id], items)
  {
    if items != [] {
      SelectItemsIsView(s, id, items[1..]);
      var key := items[0].key;
      assert items[0] in s.envelopes[id].items;
      if Correlation(id, key) in s.entries {
        EntryOf(s, id, key);
        DeletingMeans(s, Correlation(id, key));
      } else {
        assert !Belongs(s, id, key);
      }
    }
  }

  lemma {:induction false} SelectFromIsView(s: State, order: seq<string>)
    requires Inv(s)
    ensures SelectFrom(s, order) == ViewFrom(Abs(s), order)
  {
    if order != [] {
      SelectFromIsView(s, order[1..]);
      if order[0] in s.envelopes {
        SelectItemsIsView(s, order[0], s.envelopes[order[0]].items);
      }
    }
  }

  // ----- runs ----------------------------------------------------------------------------------

  function Run(s: State, actions: seq<Action>): State
    decreases |actions|
  {
    if actions == [] then s else Run(Reduce(s, actions[0]), actions[1..])
  }

  function SimpleRun(m: Simple, actions: seq<Action>): Simple
    decreases |actions|
  {
    if actions == [] then m else SimpleRun(SimpleStep(m, actions[0]), actions[1..])
  }

  ghost predicate ActionsOk(actions: seq<Action>) {
    forall i :: 0 <= i < |actions| ==> ActionOk(actions[i])
  }

  lemma {:induction false} RunRefines(s: State, actions: seq<Action>)
    requires Inv(s) && ActionsOk(actions)
    ensures Inv(Run(s, actions))
    ensures Abs(Run(s, actions)) == SimpleRun(Abs(s), actions)
    decreases |actions|
  {
    if actions != [] {
      assert ActionOk(actions[0]);
      StepKeepsInv(s, actions[0]);
      StepRefines(s, actions[0]);
      RunRefines(Reduce(s, actions[0]), actions[1..]);
    }
  }

  /** After any actions from the empty state, what is selected through the index is exactly
      what the simple model shows without one. */
  lemma {:induction false} IndexAgreesWithView(actions: seq<Action>)
    requires ActionsOk(actions)
    ensures Inv(Run(EMPTY, actions))
    ensures Select(Run(EMPTY, actions)) == View(SimpleRun(Abs(EMPTY), actions))
  {
    RunRefines(EMPTY, actions);
    SelectFromIsView(Run(EMPTY, actions), Run(EMPTY, actions).order);
  }

  predicate DistinctKeys(e: Envelope) {
    forall i, j :: 0 <= i < j < |e.items| ==> e.items[i].key != e.items[j].key
  }

  /** With distinct keys the item shown for an item is that item. */
  lemma {:induction false} ShownIsItem(items: seq<Item>, i: nat)
    requires i < |items| && forall j, k :: 0 <= j < k < |items| ==> items[j].key != items[k].key
    ensures LastWithKey(items, items[i].key) == Some(items[i])
  {
    if i < |items| - 1 { ShownIsItem(items[..|items| - 1], i); }
  }

  /** Each unsuppressed item itself, in the order of its envelope. */
  function PlainItems(m: Simple, e: Envelope, items: seq<Item>): seq<Entry> {
    if items == [] then []
    else (if Gone(m, e.id, items[0].key) then [] else [Entry(e, items[0], e.id in m.deleting)])
         + PlainItems(m, e, items[1..])
  }

  lemma {:induction false} DistinctItemsShown(m: Simple, e: Envelope, n: nat)
    requires DistinctKeys(e) && n <= |e.items|
    ensures ViewItems(m, e, e.items[n..]) == PlainItems(m, e, e.items[n..])
    decreases |e.items| - n
  {
    if n < |e.items| {
      DistinctItemsShown(m, e, n + 1);
      ShownIsItem(e.items, n);
      SliceTail(e.items, n, |e.items|);
    }
  }

  function PlainFrom(m: Simple, order: seq<string>): seq<Entry> {
    if order == [] then []
    else (if order[0] in m.envelopes then PlainItems(m, m.envelopes[order[0]], m.envelopes[order[0]].items) else [])
         + PlainFrom(m, order[1..])
  }

  /** While item keys are distinct within each envelope, the view is every unsuppressed item of
      every current envelope, each once. */
  lemma {:induction false} DistinctKeysShowEveryItem(m: Simple, order: seq<string>)
    requires forall id :: id in m.envelopes ==> DistinctKeys(m.envelopes[id])
    ensures ViewFrom(m, order) == PlainFrom(m, order)
  {
    if order != [] {
      DistinctKeysShowEveryItem(m, order[1..]);
      if order[0] in m.envelopes {
        var e := m.envelopes[order[0]];
        DistinctItemsShown(m, e, 0);
        assert e.items[0..] == e.items;
      }
    }
  }

  // ----- suppression is permanent ------------------------------------------------------------------

  lemma {:induction false} GoneStaysGone(m: Simple, actions: seq<Action>)
    ensures m.goneMailboxes <= SimpleRun(m, actions).goneMailboxes
    ensures m.goneItems <= SimpleRun(m, actions).goneItems
    decreases |actions|
  {
    if actions != [] {
      if actions[0].BaselineReplaced? {
        AddAllKeepsGone(m.(order := [], envelopes := map[], deleting := {}), actions[0].baseline);
      }
      GoneStaysGone(SimpleStep(m, actions[0]), actions[1..]);
    }
  }

  lemma {:induction false} AddAllKeepsGone(m: Simple, envelopes: seq<Envelope>)
    ensures SimpleAddAll(m, envelopes).goneMailboxes == m.goneMailboxes
    ensures SimpleAddAll(m, envelopes).goneItems == m.goneItems
    decreases |envelopes|
  {
    if envelopes != [] { AddAllKeepsGone(SimpleAdd(m, envelopes[0]), envelopes[1..]); }
  }

  predicate Suppresses(a: Action, id: string, key: string) {
    match a
    case DurablePromoted(c) => c == Correlation(id, key)
    case ActionOwnershipUpdated(x) => x == id
    case DeleteSucceeded(x) => x == id
    case _ => false
  }

  /** Once promoted, owned by an action or deleted, an item is never selected again, whatever
      arrives later. */
  lemma {:induction false} SuppressionIsPermanent(before: seq<Action>, a: Action, after: seq<Action>, id: string,
                                                  key: string)
    requires ActionsOk(before) && ActionOk(a) && ActionsOk(after) && Suppresses(a, id, key)
    ensures forall x :: x in Select(Run(Reduce(Run(EMPTY, before), a), after)) ==>
              x.envelope.id != id || x.item.key != key
  {
    var s := Run(EMPTY, before);
    RunRefines(EMPTY, before);
    StepKeepsInv(s, a);
    var mid := Reduce(s, a);
    if a.DurablePromoted? { RejoinExact(a.correlation); assert ItemSuppressed(mid, id, key); }
    assert Gone(Abs(mid), id, key);
    RunRefines(mid, after);
    GoneStaysGone(Abs(mid), after);
    var t := Run(mid, after);
    forall x | x in Select(t)
      ensures x.envelope.id != id || x.item.key != key
    {
      SelectedIsEntry(t, t.order, x);
      var c :| c in t.entries && t.entries[c] == x;
      assert EntryOk(t, c, x);
    }
  }

  lemma {:induction false} SelectedIsEntry(s: State, order: seq<string>, x: Entry)
    requires x in SelectFrom(s, order)
    ensures exists c :: c in s.entries && s.entries[c] == x
  {
    if x in SelectFrom(s, order[1..]) {
      SelectedIsEntry(s, order[1..], x);
    } else {
      SelectedItemIsEntry(s, order[0], s.envelopes[order[0]].items, x);
    }
  }

  lemma {:induction false} SelectedItemIsEntry(s: State, id: string, items: seq<Item>, x: Entry)
    requires x in SelectItems(s, id, items)
    ensures exists c :: c in s.entries && s.entries[c] == x
  {
    if x in SelectItems(s, id, items[1..]) {
      SelectedItemIsEntry(s, id, items[1..], x);
    } else {
      assert Correlation(id, items[0].key) in s.entries;
    }
  }

  // ----- durable and live events commute -------------------------------------------------------------

  /** Writing items with `c` already suppressed is writing them and then dropping `c`. */
  lemma {:induction false} PutItemsCommutes(s: State, s': State, e: Envelope, deleting: bool, deleting': bool,
                                            entries: map<string, Entry>, c: string, n: nat)
    requires n <= |e.items|
    requires s'.goneMailboxes == s.goneMailboxes && s'.goneItems == s.goneItems + {c}
    ensures var r, r' := PutItems(s, e, deleting, entries, n), PutItems(s', e, deleting', entries - {c}, n);
            && r'.Keys == r.Keys - {c}
            && (forall k :: k in r' ==> r'[k].envelope == r[k].envelope && r'[k].item == r[k].item)
            && (deleting == deleting' ==> r' == r - {c})
  {
    if n > 0 { PutItemsCommutes(s, s', e, deleting, deleting', entries, c, n - 1); }
  }

  /** States that differ at most in their deleting flags. */
  ghost predicate SameUpToFlags(s: State, t: State) {
    && s.order == t.order && s.envelopes == t.envelopes
    && s.goneMailboxes == t.goneMailboxes && s.goneItems == t.goneItems
    && s.entries.Keys == t.entries.Keys
    && forall c :: c in s.entries ==>
         s.entries[c].envelope == t.entries[c].envelope && s.entries[c].item == t.entries[c].item
  }

  lemma {:induction false} AddCommutes(s: State, e: Envelope, c: string)
    requires ':' in c
    ensures SameUpToFlags(AddEnvelope(SuppressCorrelation(s, c), e), SuppressCorrelation(AddEnvelope(s, e), c))
    ensures AnyDeleting(s.entries, e.id) == AnyDeleting(s.entries - {c}, e.id) ==>
              AddEnvelope(SuppressCorrelation(s, c), e) == SuppressCorrelation(AddEnvelope(s, e), c)
  {
    RejoinExact(c);
    var kept := RemoveEnvelopeEntries(s.entries, e.id);
    assert RemoveEnvelopeEntries(s.entries - {c}, e.id) == kept - {c};
    PutItemsCommutes(s, SuppressCorrelation(s, c), e, AnyDeleting(s.entries, e.id), AnyDeleting(s.entries - {c}, e.id),
                     kept, c, |e.items|);
  }

  ghost predicate Unflagged(entries: map<string, Entry>) {
    forall c :: c in entries ==> !entries[c].deleting
  }

  lemma {:induction false} PutItemsUnflagged(s: State, e: Envelope, entries: map<string, Entry>, n: nat)
    requires n <= |e.items| && Unflagged(entries)
    ensures Unflagged(PutItems(s, e, false, entries, n))
  {
    if n > 0 { PutItemsUnflagged(s, e, entries, n - 1); }
  }

  lemma {:induction false} AddAllCommutes(s: State, envelopes: seq<Envelope>, c: string)
    requires ':' in c && Unflagged(s.entries)
    ensures AddAll(SuppressCorrelation(s, c), envelopes) == SuppressCorrelation(AddAll(s, envelopes), c)
    decreases |envelopes|
  {
    if envelopes != [] {
      var e := envelopes[0];
      AddCommutes(s, e, c);
      PutItemsUnflagged(s, e, RemoveEnvelopeEntries(s.entries, e.id), |e.items|);
      AddAllCommutes(AddEnvelope(s, e), envelopes[1..], c);
    }
  }

  ghost predicate CommutesWithBaselines(c: string) {
    forall s, envelopes ::
      Reduce(Reduce(s, DurablePromoted(c)), BaselineReplaced(envelopes)) ==
      Reduce(Reduce(s, BaselineReplaced(envelopes)), DurablePromoted(c))
  }

  /** Promotion commutes with every baseline in every state exactly when its correlation has a
      colon, as its type requires. */
  lemma {:induction false} PromotionCommutesWithBaseline(c: string)
    ensures CommutesWithBaselines(c) <==> ':' in c
  {
    RejoinExact(c);
    if ':' in c {
      forall s, envelopes
        ensures Reduce(Reduce(s, DurablePromoted(c)), BaselineReplaced(envelopes)) ==
                Reduce(Reduce(s, BaselineReplaced(envelopes)), DurablePromoted(c))
      {
        assert Cleared(SuppressCorrelation(s, c)) == SuppressCorrelation(Cleared(s), c);
        AddAllCommutes(Cleared(s), envelopes, c);
      }
    } else {
      var e := Envelope(c, [Item("", 0)], 0);
      ColonlessPromotionDiffers(c, e);
    }
  }

  lemma {:induction false} ColonlessPromotionDiffers(c: string, e: Envelope)
    requires ':' !in c && e == Envelope(c, [Item("", 0)], 0)
    ensures Reduce(Reduce(EMPTY, DurablePromoted(c)), BaselineReplaced([e])) !=
            Reduce(Reduce(EMPTY, BaselineReplaced([e])), DurablePromoted(c))
  {
    RejoinExact(c);
    var k := Correlation(c, "");
    assert k == c + ":" && |k| != |c|;
    var s := Reduce(EMPTY, DurablePromoted(c));
    var none := RemoveEnvelopeEntries(map[], c);
    assert AddAll(Cleared(s), [e]) == AddEnvelope(Cleared(s), e);
    assert AddAll(Cleared(EMPTY), [e]) == AddEnvelope(Cleared(EMPTY), e);
    assert PutItems(Cleared(s), e, false, none, 1) == PutItems(Cleared(s), e, false, none, 0) == none;
    assert k in PutItems(Cleared(EMPTY), e, false, none, 1);
    assert k !in Reduce(s, BaselineReplaced([e])).entries;
    assert k in Reduce(Reduce(EMPTY, BaselineReplaced([e])), DurablePromoted(c)).entries;
  }

  /** Promotion and upsert commute up to deleting flags; and exactly, unless the promoted item
      was the mailbox's only entry marked as deleting while the new envelope still shows
      something. */
  lemma {:induction false} PromotionCommutesWithUpsert(s: State, e: Envelope, c: string)
    requires ':' in c
    ensures SameUpToFlags(Reduce(Reduce(s, DurablePromoted(c)), Upserted(e)),
                          Reduce(Reduce(s, Upserted(e)), DurablePromoted(c)))
    ensures Reduce(Reduce(s, DurablePromoted(c)), Upserted(e)) == Reduce(Reduce(s, Upserted(e)), DurablePromoted(c))
            <==> || (AnyDeleting(s.entries, e.id) ==> AnyDeleting(s.entries - {c}, e.id))
                 || forall i :: 0 <= i < |e.items| ==> ItemSuppressed(SuppressCorrelation(s, c), e.id, e.items[i].key)
  {
    RejoinExact(c);
    AddCommutes(s, e, c);
    var flag, flag' := AnyDeleting(s.entries, e.id), AnyDeleting(s.entries - {c}, e.id);
    var s', kept := SuppressCorrelation(s, c), RemoveEnvelopeEntries(s.entries, e.id);
    assert e.items[..|e.items|] == e.items;
    assert RemoveEnvelopeEntries(s.entries - {c}, e.id) == kept - {c};
    if forall i :: 0 <= i < |e.items| ==> ItemSuppressed(s', e.id, e.items[i].key) {
      AllSuppressed(s', e, flag', flag, kept - {c}, |e.items|);
      PutItemsCommutes(s, s', e, flag, flag, kept, c, |e.items|);
    } else if flag && !flag' {
      var i :| 0 <= i < |e.items| && !ItemSuppressed(s', e.id, e.items[i].key);
      PutItemsSpec(s', e, flag', kept - {c}, |e.items|);
      PutItemsSpec(s, e, flag, kept, |e.items|);
      var k := Correlation(e.id, e.items[i].key);
      assert LastWithKey(e.items, e.items[i].key).Some? && k != c;
      assert Reduce(s', Upserted(e)).entries[k].deleting == flag';
      assert Reduce(Reduce(s, Upserted(e)), DurablePromoted(c)).entries[k].deleting == flag;
    }
  }

  lemma {:induction false} AllSuppressed(s: State, e: Envelope, flag: bool, flag': bool, entries: map<string, Entry>,
                                         n: nat)
    requires n <= |e.items| && forall i :: 0 <= i < n ==> ItemSuppressed(s, e.id, e.items[i].key)
    ensures PutItems(s, e, flag, entries, n) == PutItems(s, e, flag', entries, n) == entries
  {
    if n > 0 { AllSuppressed(s, e, flag, flag', entries, n - 1); }
  }

  /** What a selection shows besides the flags. */
  function Shown(entries: seq<Entry>): seq<(Envelope, Item)> {
    seq(|entries|, i requires 0 <= i < |entries| => (entries[i].envelope, entries[i].item))
  }

  /** So the order in which a promotion and a live event arrive does not change what is shown. */
  lemma {:induction false} ArrivalOrderIsInvisible(s: State, e: Envelope, c: string)
    requires ':' in c
    ensures Shown(Select(Reduce(Reduce(s, DurablePromoted(c)), Upserted(e)))) ==
            Shown(Select(Reduce(Reduce(s, Upserted(e)), DurablePromoted(c))))
  {
    PromotionCommutesWithUpsert(s, e, c);
    var t, t' := Reduce(Reduce(s, DurablePromoted(c)), Upserted(e)), Reduce(Reduce(s, Upserted(e)), DurablePromoted(c));
    SameShown(t, t', t.order);
  }

  lemma {:induction false} SameShown(s: State, t: State, order: seq<string>)
    requires SameUpToFlags(s, t)
    ensures Shown(SelectFrom(s, order)) == Shown(SelectFrom(t, order))
  {
    if order != [] {
      SameShown(s, t, order[1..]);
      if order[0] in s.envelopes {
        SameItemsShown(s, t, order[0], s.envelopes[order[0]].items);
        ShownConcat(SelectItems(s, order[0], s.envelopes[order[0]].items), SelectFrom(s, order[1..]));
        ShownConcat(SelectItems(t, order[0], t.envelopes[order[0]].items), SelectFrom(t, order[1..]));
      } else {
        ShownConcat([], SelectFrom(s, order[1..]));
        ShownConcat([], SelectFrom(t, order[1..]));
      }
    }
  }

  lemma {:induction false} ShownConcat(a: seq<Entry>, b: seq<Entry>)
    ensures Shown(a + b) == Shown(a) + Shown(b)
  {
  }

  lemma {:induction false} SameItemsShown(s: State, t: State, id: string, items: seq<Item>)
    requires SameUpToFlags(s, t)
    ensures Shown(SelectItems(s, id, items)) == Shown(SelectItems(t, id, items))
  {
    if items != [] {
      SameItemsShown(s, t, id, items[1..]);
      var c := Correlation(id, items[0].key);
      ShownConcat(if c in s.entries then [s.entries[c]] else [], SelectItems(s, id, items[1..]));
      ShownConcat(if c in t.entries then [t.entries[c]] else [], SelectItems(t, id, items[1..]));
    }
  }
}
