/**
 * One run of `checkGitHub`: read the stored `last-update` value from the key-value
 * store, walk the first page of the repository's activity feed (newest first),
 * stop at the first event that is not newer than that value, skip events that are
 * not pushes, and log the normalised form of each remaining push event.
 * The HTTP request is an input (`page`); the log is the returned sequence.
 */
module Poll {
  import opened Wrappers
  import opened Convert

  /** The key of the stored `last-update` value. */
  const KV_KEY := "last-update"
  /** The `type` of a push event in the feed. */
  const PUSH_EVENT := "PushEvent"

  /**
   * One record of the feed: its numeric id, its `type`, and the record read
   * through the push-event shape (only meaningful when `eventType` is a push).
   */
  datatype FeedEvent = FeedEvent(id: nat, eventType: string, record: PushEvent)

  /** The durable key-value store; a run only reads it. */
  class KvStore {
    var entries: map<string, int>

    /** `kv.get(key).value`: the stored number, or `null`. */
    function Get(key: string): (v: Option<int>)
      reads this
      ensures v.Some? <==> key in entries
      ensures v.Some? ==> v.value == entries[key]
    {
      if key in entries then Some(entries[key]) else None
    }
  }

  /** `stored ?? 0`. */
  function LastId(stored: Option<int>): (r: int)
    ensures stored.None? ==> r == 0
    ensures stored.Some? ==> r == stored.value
  {
    stored.GetOr(0)
  }

  predicate IsPush(e: FeedEvent) {
    e.eventType == PUSH_EVENT
  }

  /** The events the loop converts: push events, in feed order, up to the first one not newer than `lastId`. */
  function Selected(lastId: int, page: seq<FeedEvent>): (r: seq<FeedEvent>)
    ensures |r| <= |page|
    ensures forall e :: e in r ==> e in page && IsPush(e) && e.id > lastId
    decreases |page|
  {
    if page == [] then []
    else if page[0].id <= lastId then []
    else if !IsPush(page[0]) then Selected(lastId, page[1..])
    else [page[0]] + Selected(lastId, page[1..])
  }

  /** `convertPushEvent` applied to each event, in order. */
  function ConvertAll(events: seq<FeedEvent>): (r: seq<WebhookPushEvent>)
    ensures |r| == |events|
    ensures forall i :: 0 <= i < |events| ==> r[i] == ConvertPushEvent(events[i].record)
    decreases |events|
  {
    if events == [] then [] else [ConvertPushEvent(events[0].record)] + ConvertAll(events[1..])
  }

  /** What one run logs, for the stored value `lastId` and the fetched page. */
  function Emitted(lastId: int, page: seq<FeedEvent>): seq<WebhookPushEvent> {
    ConvertAll(Selected(lastId, page))
  }

  /** `checkGitHub`: the store is read once and never written; the result is what `console.log` prints, in order. */
  method CheckGitHub(kv: KvStore, page: seq<FeedEvent>) returns (log: seq<WebhookPushEvent>)
    ensures log == Emitted(LastId(kv.Get(KV_KEY)), page)
  {
    var lastId := LastId(kv.Get(KV_KEY));
    log := [];
    for i := 0 to |page|
      invariant log + Emitted(lastId, page[i..]) == Emitted(lastId, page)
    {
      var ev := page[i];
      var id := ev.id;
      if id <= lastId {
        assert Selected(lastId, page[i..]) == [];
        break;
      }
      assert page[i..][1..] == page[i + 1..];
      if ev.eventType != PUSH_EVENT {
        continue;
      }
      var newEvent := ConvertPushEvent(ev.record);
      log := log + [newEvent];
    }
    assert page[|page|..] == [];
  }

  // ---- An independent description of the selection ----

  /** How many events at the head of the page are newer than `lastId`. */
  function FreshPrefixLength(lastId: int, page: seq<FeedEvent>): (k: nat)
    ensures k <= |page|
    ensures forall i :: 0 <= i < k ==> page[i].id > lastId
    ensures k < |page| ==> page[k].id <= lastId
    decreases |page|
  {
    if page == [] || page[0].id <= lastId then 0 else 1 + FreshPrefixLength(lastId, page[1..])
  }

  /** The push events of a sequence, in order. */
  function Pushes(events: seq<FeedEvent>): (r: seq<FeedEvent>)
    ensures forall e :: e in r <==> e in events && IsPush(e)
    decreases |events|
  {
    if events == [] then []
    else if IsPush(events[0]) then [events[0]] + Pushes(events[1..])
    else Pushes(events[1..])
  }

  /** `xs` is `ys` with some elements left out, the rest in their order. */
  predicate IsSubsequence<T(==)>(xs: seq<T>, ys: seq<T>)
    decreases |ys|
  {
    if xs == [] then true
    else if ys == [] then false
    else if xs[0] == ys[0] then IsSubsequence(xs[1..], ys[1..])
    else IsSubsequence(xs, ys[1..])
  }

  // ---- Properties ----

  /** The selection is exactly the push events among the newer events at the head of the page. */
  lemma {:induction false} SelectedIsPushesOfFreshPrefix(lastId: int, page: seq<FeedEvent>)
    ensures Selected(lastId, page) == Pushes(page[..FreshPrefixLength(lastId, page)])
    decreases |page|
  {
    if page != [] && page[0].id > lastId {
      SelectedIsPushesOfFreshPrefix(lastId, page[1..]);
      var k := FreshPrefixLength(lastId, page);
      assert page[..k][1..] == page[1..][..k - 1];
    }
  }

  /**
   * An event is logged if and only if it is a push event standing before the
   * first event that is not newer than `lastId`.
   */
  lemma SelectedMembership(lastId: int, page: seq<FeedEvent>, e: FeedEvent)
    ensures e in Selected(lastId, page) <==>
      IsPush(e) && (exists i :: 0 <= i < |page| && page[i] == e &&
                            forall j :: 0 <= j <= i ==> page[j].id > lastId)
  {
    SelectedIsPushesOfFreshPrefix(lastId, page);
    var k := FreshPrefixLength(lastId, page);
    if e in Selected(lastId, page) {
      var i :| 0 <= i < k && page[..k][i] == e;
      assert page[i] == e;
    }
    if IsPush(e) && exists i :: 0 <= i < |page| && page[i] == e && forall j :: 0 <= j <= i ==> page[j].id > lastId {
      var i :| 0 <= i < |page| && page[i] == e && forall j :: 0 <= j <= i ==> page[j].id > lastId;
      assert page[..k][i] == e;
    }
  }

  /** The logged events are a subsequence of the page, in feed order. */
  lemma {:induction false} SelectedIsSubsequence(lastId: int, page: seq<FeedEvent>)
    ensures IsSubsequence(Selected(lastId, page), page)
    decreases |page|
  {
    if page != [] && page[0].id > lastId {
      SelectedIsSubsequence(lastId, page[1..]);
      var rest := Selected(lastId, page[1..]);
      if !IsPush(page[0]) && rest != [] {
        assert rest[0] in rest;
        assert rest[0] != page[0];
      }
    }
  }

  /** Once an event not newer than `lastId` is reached, nothing after it is logged, however large its id. */
  lemma {:induction false} StopsAtFirstStale(lastId: int, before: seq<FeedEvent>, stale: FeedEvent, after: seq<FeedEvent>)
    requires stale.id <= lastId
    ensures Selected(lastId, before + [stale] + after) == Selected(lastId, before)
    decreases |before|
  {
    if before == [] {
      assert (before + [stale] + after)[0] == stale;
    } else {
      assert (before + [stale] + after)[1..] == before[1..] + [stale] + after;
      StopsAtFirstStale(lastId, before[1..], stale, after);
    }
  }

  /**
   * Fresh events do not stop the walk: after a run of events newer than `lastId`
   * (push or not), the selection continues with the rest of the page.
   */
  lemma {:induction false} FreshEventsContinue(lastId: int, newer: seq<FeedEvent>, rest: seq<FeedEvent>)
    requires forall i :: 0 <= i < |newer| ==> newer[i].id > lastId
    ensures Selected(lastId, newer + rest) == Pushes(newer) + Selected(lastId, rest)
    decreases |newer|
  {
    if newer == [] {
      assert newer + rest == rest;
    } else {
      assert (newer + rest)[0] == newer[0];
      assert (newer + rest)[1..] == newer[1..] + rest;
      FreshEventsContinue(lastId, newer[1..], rest);
    }
  }

  /** When every event on the page is newer than `lastId`, exactly its push events are logged. */
  lemma AllFreshLogsAllPushes(lastId: int, page: seq<FeedEvent>)
    requires forall i :: 0 <= i < |page| ==> page[i].id > lastId
    ensures Emitted(lastId, page) == ConvertAll(Pushes(page))
  {
  }

  /** With nothing stored and positive ids, nothing is cut off. */
  lemma EmptyStoreLogsAllPushes(kv: KvStore, page: seq<FeedEvent>)
    requires KV_KEY !in kv.entries
    requires forall i :: 0 <= i < |page| ==> page[i].id > 0
    ensures Emitted(LastId(kv.Get(KV_KEY)), page) == ConvertAll(Pushes(page))
  {
  }

  /**
   * A stored id 101 and ids 103, 102, 101, 100 (newest first), all pushes of
   * distinct records: 103 and 102 are logged, newest first, and the walk stops at 101.
   */
  lemma NewestFirstExample(r103: PushEvent, r102: PushEvent, r101: PushEvent, r100: PushEvent)
    ensures
      var page := [FeedEvent(103, PUSH_EVENT, r103), FeedEvent(102, PUSH_EVENT, r102),
                   FeedEvent(101, PUSH_EVENT, r101), FeedEvent(100, PUSH_EVENT, r100)];
      Selected(101, page) == [page[0], page[1]] &&
      Emitted(101, page) == [ConvertPushEvent(r103), ConvertPushEvent(r102)]
  {
    var page := [FeedEvent(103, PUSH_EVENT, r103), FeedEvent(102, PUSH_EVENT, r102),
                 FeedEvent(101, PUSH_EVENT, r101), FeedEvent(100, PUSH_EVENT, r100)];
    assert page[1..] == [page[1], page[2], page[3]];
    assert page[1..][1..] == [page[2], page[3]];
    assert Selected(101, page[1..][1..]) == [];
    assert Selected(101, page[1..]) == [page[1]] + Selected(101, page[1..][1..]);
  }
}
