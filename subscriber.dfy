/** The subscription objects `StreamSubscriber`, `OnceSubscriber` and
    `PollSubscriber`: a control queue of tokens read by the client stream, an
    inbound queue of responses filled by the receiving side, and two flags.
    The receiving thread itself is outside the model: responses arrive
    through `Deliver`, and a call that would wait for one that has not yet
    arrived reports `Blocked`. The message parser is a parameter. */
module Subscription {
  import opened Wrappers
  import opened GnmiMessages
  import opened Telemetry

  /** Which subclass of `_Subscriber` the object is. */
  datatype Kind = Stream | Once | Poll

  /** How a call ends: it returns, raises, or is still waiting on an empty
      queue without a timeout. */
  datatype Outcome<T> = Returned(value: T) | Raised(error: Exc) | Blocked

  /** `timeout` of a queue read: `None` waits as long as it takes. */
  type Timeout = Option<real>

  /** `telemetryParser`, as the subscriber sees it. */
  type Parser = SubscribeResponse -> Option<Parsed>

  /** The dictionary `_get_updates_till_sync` builds: `{"update": {...}}`
      with the keys seen so far, plus `sync_response` once one arrived. */
  datatype Merged = Merged(timestamp: Option<int>, prefix: Option<string>,
                           updates: Option<seq<UpdateEntry>>, deletes: Option<seq<string>>,
                           sync: Option<bool>)

  /** `{"update": {}}`. */
  const Fresh := Merged(None, None, None, None, None)

  /** What `_next_update` hands back: one parsed message, or the coalesced
      dictionary. */
  datatype Reply = Single(parsed: Option<Parsed>) | Coalesced(merged: Merged)

  /** The two queues and the two flags. */
  datatype SubState = SubState(msgs: seq<string>, updates: seq<SubscribeResponse>,
                               firstUpdateSeen: bool, onceEnd: bool)

  function Got<T>(o: Option<seq<T>>): seq<T>
  {
    if o.Some? then o.value else []
  }

  predicate ValidTimeout(t: Timeout)
  {
    t.None? || t.value >= 0.0
  }

  // ---------------------------------------------------------------------------
  // `_merge_updates`

  /** `_merge_updates(resp, new_resp)`: the `update` and `delete` lists (the
      keys named like a Set operation) are extended, `timestamp` and
      `prefix` take the newer value, `sync_response` is copied. A `None`
      from the parser cannot be searched and raises `TypeError`. */
  function Merge(resp: Merged, newResp: Option<Parsed>): (r: Result<Merged>)
    ensures r.Ok? <==> newResp.Some?
  {
    match newResp
    case None => Err(TypeError)
    case Some(ParsedSync(b)) => Ok(resp.(sync := Some(b)))
    case Some(ParsedUpdate(t, p, us, ds)) =>
      Ok(resp.(timestamp := Some(t),
               prefix := if p.Some? then p else resp.prefix,
               updates := Some(Got(resp.updates) + us),
               deletes := if ds.Some? then Some(Got(resp.deletes) + ds.value) else resp.deletes))
  }

  /** The merge of several messages in arrival order. */
  function MergeAll(resp: Merged, ps: seq<Option<Parsed>>): Result<Merged>
    decreases |ps|
  {
    if |ps| == 0 then Ok(resp)
    else
      var m :- Merge(resp, ps[0]);
      MergeAll(m, ps[1..])
  }

  /** The updates carried by a sequence of messages, concatenated. */
  function AllUpdates(ps: seq<Option<Parsed>>): seq<UpdateEntry>
  {
    if |ps| == 0 then []
    else
      var p := ps[|ps| - 1];
      AllUpdates(ps[..|ps| - 1]) + (if p.Some? && p.value.ParsedUpdate? then p.value.updates else [])
  }

  /** The deleted paths carried by a sequence of messages, concatenated. */
  function AllDeletes(ps: seq<Option<Parsed>>): seq<string>
  {
    if |ps| == 0 then []
    else
      var p := ps[|ps| - 1];
      AllDeletes(ps[..|ps| - 1]) + (if p.Some? && p.value.ParsedUpdate? then Got(p.value.deletes) else [])
  }

  /** The timestamp of the last update message, if any. */
  function LastTimestamp(ps: seq<Option<Parsed>>): Option<int>
  {
    if |ps| == 0 then None
    else
      var p := ps[|ps| - 1];
      if p.Some? && p.value.ParsedUpdate? then Some(p.value.timestamp) else LastTimestamp(ps[..|ps| - 1])
  }

  /** The prefix of the last update message that had one, if any. */
  function LastPrefix(ps: seq<Option<Parsed>>): Option<string>
  {
    if |ps| == 0 then None
    else
      var p := ps[|ps| - 1];
      if p.Some? && p.value.ParsedUpdate? && p.value.prefix.Some? then p.value.prefix else LastPrefix(ps[..|ps| - 1])
  }

  /** The flag of the last sync message, if any. */
  function LastSync(ps: seq<Option<Parsed>>): Option<bool>
  {
    if |ps| == 0 then None
    else
      var p := ps[|ps| - 1];
      if p.Some? && p.value.ParsedSync? then Some(p.value.sync) else LastSync(ps[..|ps| - 1])
  }

  function Or<T>(a: Option<T>, b: Option<T>): Option<T>
  {
    if a.Some? then a else b
  }

  /** Merging one more message merges it into what the earlier ones gave. */
  lemma {:induction false} MergeAllSnoc(resp: Merged, ps: seq<Option<Parsed>>, p: Option<Parsed>)
    requires MergeAll(resp, ps).Ok?
    ensures MergeAll(resp, ps + [p]) == Merge(MergeAll(resp, ps).value, p)
    decreases |ps|
  {
    if |ps| > 0 {
      assert (ps + [p])[0] == ps[0] && (ps + [p])[1..] == ps[1..] + [p];
      MergeAllSnoc(Merge(resp, ps[0]).value, ps[1..], p);
    }
  }

  /** Merging messages the parser accepted: the update and delete lists are
      concatenated in arrival order after what `resp` held; `timestamp`,
      `prefix` and `sync_response` are those of the last message that
      carried one, else what `resp` held. */
  lemma MergeAllContents(resp: Merged, ps: seq<Option<Parsed>>)
    requires forall i :: 0 <= i < |ps| ==> ps[i].Some?
    ensures MergeAll(resp, ps).Ok?
    ensures var m := MergeAll(resp, ps).value;
            Got(m.updates) == Got(resp.updates) + AllUpdates(ps)
            && Got(m.deletes) == Got(resp.deletes) + AllDeletes(ps)
            && m.timestamp == Or(LastTimestamp(ps), resp.timestamp)
            && m.prefix == Or(LastPrefix(ps), resp.prefix)
            && m.sync == Or(LastSync(ps), resp.sync)
  {
    MergeAllLists(resp, ps);
    MergeAllLatest(resp, ps);
  }

  lemma {:induction false} MergeAllLists(resp: Merged, ps: seq<Option<Parsed>>)
    requires forall i :: 0 <= i < |ps| ==> ps[i].Some?
    ensures MergeAll(resp, ps).Ok?
    ensures var m := MergeAll(resp, ps).value;
            Got(m.updates) == Got(resp.updates) + AllUpdates(ps)
            && Got(m.deletes) == Got(resp.deletes) + AllDeletes(ps)
    decreases |ps|
  {
    if |ps| == 0 {
      assert MergeAll(resp, ps) == Ok(resp);
    } else {
      var init := ps[..|ps| - 1];
      var p := ps[|ps| - 1];
      assert ps == init + [p];
      MergeAllLists(resp, init);
      MergeAllSnoc(resp, init, p);
      var m0 := MergeAll(resp, init).value;
      MergeStepLists(m0, p);
      var us := if p.value.ParsedUpdate? then p.value.updates else [];
      var ds := if p.value.ParsedUpdate? then Got(p.value.deletes) else [];
      AllListsSnoc(init, p);
      assert Got(resp.updates) + AllUpdates(init) + us == Got(resp.updates) + (AllUpdates(init) + us);
      assert Got(resp.deletes) + AllDeletes(init) + ds == Got(resp.deletes) + (AllDeletes(init) + ds);
    }
  }

  lemma AllListsSnoc(init: seq<Option<Parsed>>, p: Option<Parsed>)
    ensures AllUpdates(init + [p]) == AllUpdates(init) + (if p.Some? && p.value.ParsedUpdate? then p.value.updates else [])
    ensures AllDeletes(init + [p]) == AllDeletes(init) + (if p.Some? && p.value.ParsedUpdate? then Got(p.value.deletes) else [])
  {
    assert (init + [p])[..|init|] == init;
  }

  lemma MergeStepLists(m: Merged, p: Option<Parsed>)
    requires p.Some?
    ensures Got(Merge(m, p).value.updates) == Got(m.updates) + (if p.value.ParsedUpdate? then p.value.updates else [])
    ensures Got(Merge(m, p).value.deletes) == Got(m.deletes) + (if p.value.ParsedUpdate? then Got(p.value.deletes) else [])
  {
    if p.value.ParsedUpdate? && p.value.deletes.None? {
      assert Got(m.deletes) + [] == Got(m.deletes);
    }
    if p.value.ParsedSync? {
      assert Got(m.deletes) + [] == Got(m.deletes) && Got(m.updates) + [] == Got(m.updates);
    }
  }

  lemma {:induction false} MergeAllLatest(resp: Merged, ps: seq<Option<Parsed>>)
    requires forall i :: 0 <= i < |ps| ==> ps[i].Some?
    ensures MergeAll(resp, ps).Ok?
    ensures var m := MergeAll(resp, ps).value;
            m.timestamp == Or(LastTimestamp(ps), resp.timestamp)
            && m.prefix == Or(LastPrefix(ps), resp.prefix)
            && m.sync == Or(LastSync(ps), resp.sync)
    decreases |ps|
  {
    if |ps| == 0 {
      assert MergeAll(resp, ps) == Ok(resp);
    } else {
      var init := ps[..|ps| - 1];
      var p := ps[|ps| - 1];
      assert ps == init + [p];
      MergeAllLatest(resp, init);
      MergeAllSnoc(resp, init, p);
    }
  }

  // ---------------------------------------------------------------------------
  // Reading the inbound queue

  /** `_get_one_update(timeout)`: `queue.get` refuses a negative timeout with
      `ValueError`; on an empty queue it waits for ever without a timeout and
      raises `queue.Empty` with one; otherwise it takes the oldest response
      and parses it. Returns the outcome and what is left in the queue. */
  function GetOneSpec(parse: Parser, q: seq<SubscribeResponse>, timeout: Timeout): (r: (Outcome<Option<Parsed>>, seq<SubscribeResponse>))
    ensures r.0.Returned? <==> ValidTimeout(timeout) && |q| > 0
    ensures r.0.Returned? ==> r.0.value == parse(q[0]) && r.1 == q[1..]
    ensures !r.0.Returned? ==> r.1 == q
    ensures r.0.Blocked? <==> ValidTimeout(timeout) && |q| == 0 && timeout.None?
    ensures r.0.Raised? ==> r.0.error == (if ValidTimeout(timeout) then QueueEmpty else ValueError)
  {
    if !ValidTimeout(timeout) then (Raised(ValueError), q)
    else if |q| == 0 then (if timeout.None? then Blocked else Raised(QueueEmpty), q)
    else (Returned(parse(q[0])), q[1..])
  }

  /** `_get_updates_till_sync` from the dictionary `resp` on: read and merge
      until the dictionary holds `sync_response`. Returns the outcome and
      what is left in the queue. */
  function TillSyncFrom(parse: Parser, resp: Merged, q: seq<SubscribeResponse>, timeout: Timeout): (Outcome<Merged>, seq<SubscribeResponse>)
    decreases |q|
  {
    if resp.sync.Some? then (Returned(resp), q)
    else
      var (o, rest) := GetOneSpec(parse, q, timeout);
      if o.Blocked? then (Blocked, rest)
      else if o.Raised? then (Raised(o.error), rest)
      else
        var m := Merge(resp, o.value);
        if m.Err? then (Raised(m.error), rest)
        else TillSyncFrom(parse, m.value, rest, timeout)
  }

  /** The parsed form of each queued response. */
  function ParsedAll(parse: Parser, q: seq<SubscribeResponse>): (r: seq<Option<Parsed>>)
    ensures |r| == |q| && forall i :: 0 <= i < |q| ==> r[i] == parse(q[i])
  {
    seq(|q|, i requires 0 <= i < |q| => parse(q[i]))
  }

  predicate IsUpdate(p: Option<Parsed>)
  {
    p.Some? && p.value.ParsedUpdate?
  }

  /** Coalescing stops at the first sync response: the result is the merge
      of every message up to and including it, and every message after it is
      still queued. */
  lemma {:induction false} TillSyncFirstSync(parse: Parser, resp: Merged, q: seq<SubscribeResponse>, timeout: Timeout, k: nat)
    requires ValidTimeout(timeout) && resp.sync.None?
    requires k < |q| && parse(q[k]).Some? && parse(q[k]).value.ParsedSync?
    requires forall i :: 0 <= i < k ==> IsUpdate(parse(q[i]))
    ensures MergeAll(resp, ParsedAll(parse, q[..k + 1])).Ok?
    ensures TillSyncFrom(parse, resp, q, timeout) == (Returned(MergeAll(resp, ParsedAll(parse, q[..k + 1])).value), q[k + 1..])
    decreases k
  {
    var m := Merge(resp, parse(q[0])).value;
    assert ParsedAll(parse, q[..k + 1])[0] == parse(q[0]);
    assert ParsedAll(parse, q[..k + 1])[1..] == ParsedAll(parse, q[1..][..k]);
    if k > 0 {
      forall i | 0 <= i < k - 1 ensures IsUpdate(parse(q[1..][i])) {
        assert q[1..][i] == q[i + 1];
      }
      TillSyncFirstSync(parse, m, q[1..], timeout, k - 1);
      assert q[1..][k..] == q[k + 1..];
    } else {
      assert ParsedAll(parse, q[1..][..0]) == [];
    }
  }

  /** A message the parser rejected, reached before any sync response, makes
      the coalescing raise `TypeError` with that message consumed. */
  lemma {:induction false} TillSyncRejected(parse: Parser, resp: Merged, q: seq<SubscribeResponse>, timeout: Timeout, k: nat)
    requires ValidTimeout(timeout) && resp.sync.None?
    requires k < |q| && parse(q[k]).None?
    requires forall i :: 0 <= i < k ==> IsUpdate(parse(q[i]))
    ensures TillSyncFrom(parse, resp, q, timeout) == (Raised(TypeError), q[k + 1..])
    decreases k
  {
    if k > 0 {
      forall i | 0 <= i < k - 1 ensures IsUpdate(parse(q[1..][i])) {
        assert q[1..][i] == q[i + 1];
      }
      TillSyncRejected(parse, Merge(resp, parse(q[0])).value, q[1..], timeout, k - 1);
      assert q[1..][k..] == q[k + 1..];
    }
  }

  /** Without a sync response in the queue, coalescing empties it: it is
      still waiting without a timeout and raises `queue.Empty` with one, and
      the messages it read are lost either way. */
  lemma {:induction false} TillSyncRunsDry(parse: Parser, resp: Merged, q: seq<SubscribeResponse>, timeout: Timeout)
    requires ValidTimeout(timeout) && resp.sync.None?
    requires forall i :: 0 <= i < |q| ==> IsUpdate(parse(q[i]))
    ensures TillSyncFrom(parse, resp, q, timeout) == (if timeout.None? then Blocked else Raised(QueueEmpty), [])
    decreases |q|
  {
    if |q| > 0 {
      forall i | 0 <= i < |q| - 1 ensures IsUpdate(parse(q[1..][i])) {
        assert q[1..][i] == q[i + 1];
      }
      TillSyncRunsDry(parse, Merge(resp, parse(q[0])).value, q[1..], timeout);
    }
  }

  // ---------------------------------------------------------------------------
  // `_next_update` per subclass, `__next__`, `get_update`

  function SingleSpec(parse: Parser, st: SubState, timeout: Timeout): (Outcome<Reply>, SubState)
  {
    var (o, rest) := GetOneSpec(parse, st.updates, timeout);
    (if o.Returned? then Returned(Single(o.value)) else if o.Raised? then Raised(o.error) else Blocked,
     st.(updates := rest))
  }

  function CoalescedSpec(parse: Parser, st: SubState, timeout: Timeout): (Outcome<Reply>, SubState)
  {
    var (o, rest) := TillSyncFrom(parse, Fresh, st.updates, timeout);
    (if o.Returned? then Returned(Coalesced(o.value)) else if o.Raised? then Raised(o.error) else Blocked,
     st.(updates := rest))
  }

  /** `_next_update(timeout)`: Stream coalesces on its first call only,
      after setting `_first_update_seen`; Once never coalesces; Poll puts a
      `POLL` token on the control queue and then coalesces. */
  function NextUpdateSpec(kind: Kind, parse: Parser, st: SubState, timeout: Timeout): (Outcome<Reply>, SubState)
  {
    match kind
    case Stream =>
      if !st.firstUpdateSeen then CoalescedSpec(parse, st.(firstUpdateSeen := true), timeout)
      else SingleSpec(parse, st, timeout)
    case Once => SingleSpec(parse, st, timeout)
    case Poll => CoalescedSpec(parse, st.(msgs := st.msgs + ["POLL"]), timeout)
  }

  /** `"sync_response" in result`; a `None` result cannot be searched. */
  function HasSync(r: Reply): Result<bool>
  {
    match r
    case Single(None) => Err(TypeError)
    case Single(Some(p)) => Ok(p.ParsedSync?)
    case Coalesced(m) => Ok(m.sync.Some?)
  }

  /** `__next__()`: `StopIteration` once a Once subscription has ended,
      otherwise `next()`, after which a Once subscription that returned a
      sync response ends. */
  function IterNextSpec(kind: Kind, parse: Parser, st: SubState): (Outcome<Reply>, SubState)
  {
    if st.onceEnd then (Raised(StopIteration), st)
    else
      var (o, st') := NextUpdateSpec(kind, parse, st, None);
      if kind == Once && o.Returned? then
        var s := HasSync(o.value);
        if s.Err? then (Raised(s.error), st')
        else if s.value then (o, st'.(onceEnd := true))
        else (o, st')
      else (o, st')
  }

  /** `get_update(timeout)`: `_next_update` with `queue.Empty` turned into
      `TimeoutError`. */
  function GetUpdateSpec(kind: Kind, parse: Parser, st: SubState, timeout: real): (Outcome<Reply>, SubState)
  {
    var (o, st') := NextUpdateSpec(kind, parse, st, Some(timeout));
    (if o == Raised(QueueEmpty) then Raised(TimeoutError) else o, st')
  }

  // ---------------------------------------------------------------------------
  // The subscription object

  class Subscriber {
    const kind: Kind
    const parse: Parser
    /** `_msgs`: the control tokens not yet taken by the client stream. */
    var msgs: seq<string>
    /** `_updates`: the responses received and not yet read. */
    var updates: seq<SubscribeResponse>
    /** `_first_update_seen`; only Stream reads it. */
    var firstUpdateSeen: bool
    /** `_once_end`. */
    var onceEnd: bool

    function State(): SubState
      reads this
    {
      SubState(msgs, updates, firstUpdateSeen, onceEnd)
    }

    /** Both queues empty, both flags clear. */
    constructor(kind: Kind, parse: Parser)
      ensures this.kind == kind && this.parse == parse
      ensures State() == SubState([], [], false, false)
    {
      this.kind := kind;
      this.parse := parse;
      msgs := [];
      updates := [];
      firstUpdateSeen := false;
      onceEnd := false;
    }

    /** A response from the target put on the inbound queue. */
    method Deliver(m: SubscribeResponse)
      modifies this
      ensures State() == old(State()).(updates := old(updates) + [m])
    {
      updates := updates + [m];
    }

    /** `_get_one_update(timeout)`. */
    method GetOne(timeout: Timeout) returns (o: Outcome<Option<Parsed>>)
      modifies this
      ensures (o, updates) == GetOneSpec(parse, old(updates), timeout)
      ensures msgs == old(msgs) && firstUpdateSeen == old(firstUpdateSeen) && onceEnd == old(onceEnd)
    {
      if !ValidTimeout(timeout) {
        return Raised(ValueError);
      }
      if updates == [] {
        o := if timeout.None? then Blocked else Raised(QueueEmpty);
        return;
      }
      o := Returned(parse(updates[0]));
      updates := updates[1..];
    }

    /** `_get_updates_till_sync(timeout)`: the loop that reads and merges until
        a sync response has been merged. */
    method TillSync(timeout: Timeout) returns (o: Outcome<Merged>)
      modifies this
      ensures (o, updates) == TillSyncFrom(parse, Fresh, old(updates), timeout)
      ensures msgs == old(msgs) && firstUpdateSeen == old(firstUpdateSeen) && onceEnd == old(onceEnd)
    {
      var resp := Fresh;
      while resp.sync.None?
        invariant TillSyncFrom(parse, Fresh, old(updates), timeout) == TillSyncFrom(parse, resp, updates, timeout)
        invariant msgs == old(msgs) && firstUpdateSeen == old(firstUpdateSeen) && onceEnd == old(onceEnd)
        decreases |updates|
      {
        var newResp := GetOne(timeout);
        if newResp.Blocked? {
          return Blocked;
        }
        if newResp.Raised? {
          return Raised(newResp.error);
        }
        var m := Merge(resp, newResp.value);
        if m.Err? {
          return Raised(m.error);
        }
        resp := m.value;
      }
      return Returned(resp);
    }

    /** `_next_update(timeout)` of the subclass. */
    method NextUpdate(timeout: Timeout) returns (o: Outcome<Reply>)
      modifies this
      ensures (o, State()) == NextUpdateSpec(kind, parse, old(State()), timeout)
    {
      if kind == Stream && !firstUpdateSeen {
        firstUpdateSeen := true;
        o := Coalesce(timeout);
      } else if kind == Poll {
        msgs := msgs + ["POLL"];
        o := Coalesce(timeout);
      } else {
        var one := GetOne(timeout);
        o := if one.Returned? then Returned(Single(one.value)) else if one.Raised? then Raised(one.error) else Blocked;
      }
    }

    method Coalesce(timeout: Timeout) returns (o: Outcome<Reply>)
      modifies this
      ensures (o, State()) == CoalescedSpec(parse, old(State()), timeout)
    {
      var m := TillSync(timeout);
      o := if m.Returned? then Returned(Coalesced(m.value)) else if m.Raised? then Raised(m.error) else Blocked;
    }

    /** `next()`: `_next_update` without a timeout. */
    method Next() returns (o: Outcome<Reply>)
      modifies this
      ensures (o, State()) == NextUpdateSpec(kind, parse, old(State()), None)
    {
      o := NextUpdate(None);
    }

    /** `__next__()`. */
    method IterNext() returns (o: Outcome<Reply>)
      modifies this
      ensures (o, State()) == IterNextSpec(kind, parse, old(State()))
    {
      if onceEnd {
        return Raised(StopIteration);
      }
      o := Next();
      if kind == Once && o.Returned? {
        var s := HasSync(o.value);
        if s.Err? {
          return Raised(s.error);
        }
        if s.value {
          onceEnd := true;
        }
      }
    }

    /** `get_update(timeout)`. */
    method GetUpdate(timeout: real) returns (o: Outcome<Reply>)
      modifies this
      ensures (o, State()) == GetUpdateSpec(kind, parse, old(State()), timeout)
    {
      o := NextUpdate(Some(timeout));
      if o == Raised(QueueEmpty) {
        o := Raised(TimeoutError);
      }
    }

    /** `peek()`: whether a response is waiting. Changes nothing. */
    method Peek() returns (waiting: bool)
      ensures waiting <==> updates != []
    {
      waiting := updates != [];
    }

    /** `close()`: a `STOP` token on the control queue. */
    method Close()
      modifies this
      ensures State() == old(State()).(msgs := old(msgs) + ["STOP"])
    {
      msgs := msgs + ["STOP"];
    }
  }

  // ---------------------------------------------------------------------------
  // What each kind of subscription promises

  /** Stream: the first call coalesces up to the first sync response and
      sets `_first_update_seen` whatever its outcome, so if it timed out the
      messages it read are gone; every later call returns exactly one parsed
      message and takes exactly one from the queue. */
  lemma StreamFirstThenSingle(parse: Parser, st: SubState, timeout: Timeout)
    requires ValidTimeout(timeout)
    ensures var (o, st') := NextUpdateSpec(Stream, parse, st, timeout);
            st'.firstUpdateSeen && st'.msgs == st.msgs && st'.onceEnd == st.onceEnd
            && (!st.firstUpdateSeen ==> (o, st'.updates) == (var (m, q) := TillSyncFrom(parse, Fresh, st.updates, timeout);
                                                               (if m.Returned? then Returned(Coalesced(m.value)) else if m.Raised? then Raised(m.error) else Blocked, q)))
            && (st.firstUpdateSeen && st.updates != [] ==> o == Returned(Single(parse(st.updates[0]))) && st'.updates == st.updates[1..])
  {
  }

  /** Stream: when the first wait of `get_update` runs out before a sync
      response, it raises `TimeoutError`, the queue is empty and the next
      call reads one message at a time. */
  lemma StreamFirstTimeout(parse: Parser, st: SubState, timeout: real)
    requires timeout >= 0.0 && !st.firstUpdateSeen
    requires forall i :: 0 <= i < |st.updates| ==> IsUpdate(parse(st.updates[i]))
    ensures var (o, st') := GetUpdateSpec(Stream, parse, st, timeout);
            o == Raised(TimeoutError) && st'.updates == [] && st'.firstUpdateSeen
  {
    TillSyncRunsDry(parse, Fresh, st.updates, Some(timeout));
  }

  /** Once: `_next_update` never coalesces and does not look at
      `_once_end`; a sync response returned by `__next__` ends the
      iteration, after which `__next__` raises `StopIteration` and leaves
      the queues alone. */
  lemma OnceStopsAfterSync(parse: Parser, st: SubState, timeout: Timeout, b: bool)
    ensures var (o, st') := NextUpdateSpec(Once, parse, st, timeout);
            !(o.Returned? && o.value.Coalesced?)
            && (o, st'.(onceEnd := false)) == NextUpdateSpec(Once, parse, st.(onceEnd := false), timeout)
    ensures st.onceEnd ==> IterNextSpec(Once, parse, st) == (Raised(StopIteration), st)
    ensures !st.onceEnd && st.updates != [] && parse(st.updates[0]) == Some(ParsedSync(b)) ==>
              IterNextSpec(Once, parse, st) == (Returned(Single(Some(ParsedSync(b)))), st.(updates := st.updates[1..], onceEnd := true))
  {
  }

  /** Once: `__next__` on a message the parser rejected raises `TypeError`,
      since `None` cannot be searched for `sync_response`; Stream and Poll
      hand the `None` back. */
  lemma OnceRejectedMessage(parse: Parser, st: SubState)
    requires !st.onceEnd && st.updates != [] && parse(st.updates[0]).None?
    ensures IterNextSpec(Once, parse, st).0 == Raised(TypeError)
    ensures st.firstUpdateSeen ==> IterNextSpec(Stream, parse, st).0 == Returned(Single(None))
  {
  }

  /** Poll: each `_next_update` puts exactly one `POLL` token on the control
      queue, before coalescing and whatever the outcome; Stream and Once
      never touch the control queue. */
  lemma PollEnqueuesOne(parse: Parser, st: SubState, timeout: Timeout)
    ensures NextUpdateSpec(Poll, parse, st, timeout).1.msgs == st.msgs + ["POLL"]
    ensures NextUpdateSpec(Stream, parse, st, timeout).1.msgs == st.msgs
    ensures NextUpdateSpec(Once, parse, st, timeout).1.msgs == st.msgs
  {
  }

  /** Poll: with the answer to the poll queued, `next()` returns the merge of
      the messages up to and including the sync response, whose updates are
      those of the messages in order, and leaves the rest queued. */
  lemma PollAnswer(parse: Parser, st: SubState, k: nat)
    requires k < |st.updates| && parse(st.updates[k]).Some? && parse(st.updates[k]).value.ParsedSync?
    requires forall i :: 0 <= i < k ==> IsUpdate(parse(st.updates[i]))
    ensures var (o, st') := NextUpdateSpec(Poll, parse, st, None);
            var ps := ParsedAll(parse, st.updates[..k + 1]);
            o.Returned? && o.value.Coalesced?
            && Got(o.value.merged.updates) == AllUpdates(ps)
            && o.value.merged.sync == Some(parse(st.updates[k]).value.sync)
            && st'.updates == st.updates[k + 1..]
  {
    var q := st.updates;
    TillSyncFirstSync(parse, Fresh, q, None, k);
    var ps := ParsedAll(parse, q[..k + 1]);
    MergeAllContents(Fresh, ps);
    assert ps == ps[..k] + [ps[k]];
    assert ps[..k] == ps[..|ps| - 1];
  }

  // ---------------------------------------------------------------------------
  // The client stream

  /** What the client stream sends to the target. */
  datatype Frame<R> = RequestFrame(request: R) | PollFrame

  /** The frames for the tokens taken from the control queue, and whether a
      `STOP` ended the stream; tokens after a `STOP` are never read. */
  function PollFrames<R>(tokens: seq<string>): (seq<Frame<R>>, bool)
  {
    if |tokens| == 0 then ([], false)
    else if tokens[0] == "STOP" then ([], true)
    else
      var (fs, ended) := PollFrames<R>(tokens[1..]);
      (if tokens[0] == "POLL" then [PollFrame] + fs else fs, ended)
  }

  /** `_create_client_stream(request)`: the request first, then the frames
      for the control tokens. */
  function ClientStream<R>(request: R, tokens: seq<string>): (seq<Frame<R>>, bool)
  {
    var (fs, ended) := PollFrames<R>(tokens);
    ([RequestFrame(request)] + fs, ended)
  }

  /** The tokens before the first `STOP`. */
  function BeforeStop(tokens: seq<string>): (r: seq<string>)
    ensures "STOP" !in r
  {
    if |tokens| == 0 || tokens[0] == "STOP" then [] else [tokens[0]] + BeforeStop(tokens[1..])
  }

  /** The stream starts with the request; then one poll frame per `POLL`
      before the first `STOP` and nothing else; it ends exactly when a
      `STOP` was queued. */
  lemma ClientStreamFrames<R>(request: R, tokens: seq<string>)
    ensures var (fs, ended) := ClientStream(request, tokens);
            fs[0] == RequestFrame(request)
            && (forall i :: 1 <= i < |fs| ==> fs[i] == PollFrame)
            && |fs| == 1 + multiset(BeforeStop(tokens))["POLL"]
            && (ended <==> "STOP" in tokens)
  {
    PollFramesShape<R>(tokens);
  }

  lemma {:induction false} PollFramesShape<R>(tokens: seq<string>)
    ensures var (fs, ended) := PollFrames<R>(tokens);
            (forall i :: 0 <= i < |fs| ==> fs[i] == PollFrame)
            && |fs| == multiset(BeforeStop(tokens))["POLL"]
            && (ended <==> "STOP" in tokens)
    decreases |tokens|
  {
    if |tokens| > 0 && tokens[0] != "STOP" {
      PollFramesShape<R>(tokens[1..]);
      assert tokens == [tokens[0]] + tokens[1..];
      assert multiset(BeforeStop(tokens)) == multiset{tokens[0]} + multiset(BeforeStop(tokens[1..]));
    }
  }

  /** `n` polls and then `close()` on a fresh subscription: the control queue
      holds `n` `POLL` tokens and a `STOP`, and the stream sends the request,
      `n` poll frames and ends. */
  lemma {:induction false} PollsThenClose<R>(request: R, n: nat)
    ensures var tokens := seq(n, _ => "POLL") + ["STOP"];
            ClientStream(request, tokens) == ([RequestFrame(request)] + seq(n, _ => Frame<R>.PollFrame), true)
  {
    PollsThenStop<R>(n);
  }

  lemma {:induction false} PollsThenStop<R>(n: nat)
    ensures PollFrames<R>(seq(n, _ => "POLL") + ["STOP"]) == (seq(n, _ => Frame<R>.PollFrame), true)
    decreases n
  {
    var tokens := seq(n, _ => "POLL") + ["STOP"];
    assert "POLL" != "STOP" by {
      assert "POLL"[0] != "STOP"[0];
    }
    if n == 0 {
      assert tokens == ["STOP"];
    } else {
      PollsThenStop<R>(n - 1);
      assert tokens[0] == "POLL";
      assert tokens[1..] == seq(n - 1, _ => "POLL") + ["STOP"];
      assert seq(n, _ => Frame<R>.PollFrame) == [Frame<R>.PollFrame] + seq(n - 1, _ => Frame<R>.PollFrame);
    }
  }
}
