/**
 Cursor pagination of a session's messages (packages/api/src/services/session-service.ts and the
 route packages/api/src/routes/messages.ts), and a client that follows the cursors while messages
 are being appended.
 */
module Paging {
  import opened Common

  datatype Message = Message(messageId: string, body: string)

  datatype Failure = InvalidCursor

  /** Message ids are generated: never empty, never used twice. */
  ghost predicate ProperIds(all: seq<Message>) {
    && (forall i :: 0 <= i < |all| ==> all[i].messageId != "")
    && (forall i, j :: 0 <= i < j < |all| ==> all[i].messageId != all[j].messageId)
  }

  /** The position of the first message with an id, or the length. */
  function FindIndex(all: seq<Message>, id: string): (i: nat)
    ensures i <= |all|
    ensures i < |all| ==> all[i].messageId == id
    ensures forall j :: 0 <= j < i ==> all[j].messageId != id
  {
    if all == [] || all[0].messageId == id then 0 else 1 + FindIndex(all[1..], id)
  }

  function Slice(all: seq<Message>, start: nat, limit: nat): seq<Message>
    requires start <= |all|
  {
    if start + limit <= |all| then all[start..start + limit] else all[start..]
  }

  /** At most `limit` messages after the one named by the cursor; an unknown cursor is an error. */
  method ListMessages(all: seq<Message>, cursor: Option<string>, limit: nat)
      returns (page: Result<seq<Message>, Failure>)
    ensures page.Err? <==>
      cursor.Some? && cursor.value != "" && forall i :: 0 <= i < |all| ==> all[i].messageId != cursor.value
    ensures page.Ok? && (cursor.None? || cursor.value == "") ==> page.value == Slice(all, 0, limit)
    ensures page.Ok? && cursor.Some? && cursor.value != "" ==>
              var i := FindIndex(all, cursor.value); i < |all| && page.value == Slice(all, i + 1, limit)
  {
    var startIdx := 0;
    if cursor.Some? && cursor.value != "" {
      var cursorIdx := FindIndex(all, cursor.value);
      if cursorIdx == |all| { return Err(InvalidCursor); }
      startIdx := cursorIdx + 1;
    }
    page := Ok(Slice(all, startIdx, limit));
  }

  /** What the list is at each request: messages are only ever appended. */
  ghost predicate Growing(views: seq<seq<Message>>) {
    && (forall k :: 0 <= k < |views| ==> ProperIds(views[k]))
    && (forall k, l :: 0 <= k <= l < |views| ==> views[k] <= views[l])
  }

  lemma {:induction false} CursorIsFound(all: seq<Message>, seen: seq<Message>)
    requires ProperIds(all) && seen <= all && seen != []
    ensures FindIndex(all, seen[|seen| - 1].messageId) == |seen| - 1
  {
    var last := |seen| - 1;
    assert all[last] == seen[last];
    assert forall j :: 0 <= j < last ==> all[j].messageId != all[last].messageId;
  }

  /** The cursor of what was seen leads to what comes next. */
  lemma {:induction false} CursorContinues(all: seq<Message>, seen: seq<Message>)
    requires ProperIds(all) && seen <= all
    ensures seen != [] ==> var id := seen[|seen| - 1].messageId;
                           && id != "" && FindIndex(all, id) == |seen| - 1
                           && exists i :: 0 <= i < |all| && all[i].messageId == id
  {
    if seen != [] {
      CursorIsFound(all, seen);
      assert all[|seen| - 1] == seen[|seen| - 1];
    }
  }

  lemma {:induction false} NextPage(all: seq<Message>, seen: seq<Message>, limit: nat)
    requires seen <= all
    ensures var page := Slice(all, |seen|, limit);
            seen + page <= all && |page| <= limit && (|page| < limit ==> seen + page == all)
  {
    assert all == seen + all[|seen|..];
  }

  lemma {:induction false} GrowsOn(views: seq<seq<Message>>, k: nat)
    requires Growing(views) && k < |views|
    ensures ProperIds(views[k]) && (k > 0 ==> views[k - 1] <= views[k])
  {
  }

  lemma {:induction false} OneMore(k: nat, limit: nat)
    ensures (k + 1) * limit == k * limit + limit
  {
  }

  /**
   A client that asks for pages until one is shorter than the limit. However the list grows between
   its requests, it has seen each message once and in order, and all of them when it stops. A list of `n` messages
   that does not change takes it `n / limit + 1` requests.
   */
  method FollowCursors(views: seq<seq<Message>>, limit: nat) returns (seen: seq<Message>, requests: nat, done: bool)
    requires limit >= 1 && Growing(views)
    ensures requests <= |views| && (requests == 0 ==> seen == []) && (requests > 0 ==> seen <= views[requests - 1])
    ensures done ==> requests > 0 && seen == views[requests - 1] && (requests - 1) * limit <= |seen| < requests * limit
    ensures !done ==> requests == |views| && |seen| == requests * limit
    ensures views != [] && |views| > |views[0]| / limit && (forall k :: 0 <= k < |views| ==> views[k] == views[0]) ==>
              done && seen == views[0] && requests == |views[0]| / limit + 1
  {
    hide *;
    seen, requests, done := [], 0, false;
    var cursor: Option<string> := None;
    while requests < |views| && !done
      invariant requests <= |views| && (requests == 0 ==> seen == []) && (requests > 0 ==> seen <= views[requests - 1])
      invariant !done ==> |seen| == requests * limit
      invariant !done ==> cursor == if seen == [] then None else Some(seen[|seen| - 1].messageId)
      invariant done ==> requests > 0 && seen == views[requests - 1]
                         && (requests - 1) * limit <= |seen| < requests * limit
      decreases |views| - requests
    {
      var all := views[requests];
      GrowsOn(views, requests);
      var page := ListMessages(all, cursor, limit);
      CursorContinues(all, seen);
      NextPage(all, seen, limit);
      OneMore(requests, limit);
      assert page == Ok(Slice(all, |seen|, limit));
      seen := seen + page.value;
      requests := requests + 1;
      if |page.value| == limit {
        cursor := Some(seen[|seen| - 1].messageId);
      } else {
        done := true;
      }
    }
    if views != [] && |views| > |views[0]| / limit && forall k :: 0 <= k < |views| ==> views[k] == views[0] {
      if done {
        RequestsForFixedList(|seen|, limit, requests);
      } else {
        EnoughRequests(|views[0]|, limit, |views|);
      }
    }
  }

  /** The only number of requests whose last page can be a short one. */
  lemma {:induction false} RequestsForFixedList(n: nat, limit: nat, requests: nat)
    requires limit >= 1 && requests >= 1
    requires (requests - 1) * limit <= n < requests * limit
    ensures requests == n / limit + 1
  {
    var q, r := n / limit, n % limit;
    assert n == q * limit + r;
    OneMore(q, limit);
    Fewer(q, requests, limit);
    Fewer(requests - 1, q + 1, limit);
  }

  /** More than `n / limit` full pages are more than `n` messages. */
  lemma {:induction false} EnoughRequests(n: nat, limit: nat, requests: nat)
    requires limit >= 1 && requests > n / limit
    ensures requests * limit > n
  {
    var q, r := n / limit, n % limit;
    assert n == q * limit + r;
    OneMore(q, limit);
    if requests * limit < (q + 1) * limit { Fewer(requests, q + 1, limit); }
  }

  lemma {:induction false} Fewer(a: nat, b: nat, limit: nat)
    requires a * limit < b * limit
    ensures a < b
  {
    assert (b - a) * limit == b * limit - a * limit;
  }
}
