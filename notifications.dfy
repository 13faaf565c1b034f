/** The push-notification service: single and bulk sends through the
    Expo push service, the recipient queries (one member, every member,
    members matching criteria) and the `notification_log` table.

    The Expo SDK is not modelled; its three entry points are oracles
    carried by an `Expo` value. */
module Notifications {
  import opened Wrappers
  import opened Tables
  import opened Targeting

  /** The `data` payload object of a message. */
  type Data = map<string, string>

  /** A push message `{to, sound: 'default', title, body, data}`. */
  datatype Message = Message(to: string, sound: string, title: string, body: string, data: Data)

  /** A push ticket; only its `status` is read (`'ok'` or `'error'`). */
  datatype Ticket = Ticket(status: string)

  /** What one `sendPushNotificationsAsync` call does: it throws, or it
      resolves to an array of tickets. */
  datatype SendOutcome = Thrown(message: string) | Tickets(tickets: seq<Ticket>)

  /** The Expo SDK as oracles: `isExpoPushToken`,
      `chunkPushNotifications`, and `sendPushNotificationsAsync` (whose
      outcome may differ from one call to the next, so the call's
      position is an argument). */
  datatype Expo = Expo(
    isToken: string -> bool,
    chunk: seq<Message> -> seq<seq<Message>>,
    send: (nat, seq<Message>) -> SendOutcome)

  function MessageTo(token: string, title: string, body: string, data: Data): Message {
    Message(token, "default", title, body, data)
  }

  // ---------------------------------------------------------------
  // Sending one notification
  // ---------------------------------------------------------------

  /** The result object of `sendNotification` / `sendToMember`. */
  datatype SendResult =
    | NoToken                          // {success: false, reason: 'no_token'}
    | InvalidToken                     // {success: false, reason: 'invalid_token'}
    | Delivered(ticket: Option<Ticket>) // {success: true, ticket: ticket[0]}
    | Errored(error: string)           // {success: false, error: error.message}
  {
    function Success(): bool { Delivered? }
  }

  /** The first element of an array, `undefined` when it is empty. */
  function First(ts: seq<Ticket>): Option<Ticket> {
    if ts == [] then None else Some(ts[0])
  }

  /** `sendNotification`: reject a malformed token without calling the
      provider, otherwise send a one-message batch. */
  function SendNotification(expo: Expo, pushToken: string, title: string, body: string, data: Data): (r: SendResult)
    ensures r.InvalidToken? <==> !expo.isToken(pushToken)
    ensures !expo.isToken(pushToken) ==> r == InvalidToken
    ensures r.Success() <==> expo.isToken(pushToken) && expo.send(0, [MessageTo(pushToken, title, body, data)]).Tickets?
    ensures r.Errored? ==> r.error == expo.send(0, [MessageTo(pushToken, title, body, data)]).message
    ensures r.Delivered? ==> r.ticket == First(expo.send(0, [MessageTo(pushToken, title, body, data)]).tickets)
    ensures !r.NoToken?
  {
    if !expo.isToken(pushToken) then InvalidToken
    else
      match expo.send(0, [MessageTo(pushToken, title, body, data)])
      case Thrown(message) => Errored(message)
      case Tickets(ts) => Delivered(First(ts))
  }

  /** `sendToMember`: the member's push token, if the member has a
      preference row with a token and notifications switched on, then a
      single send. `member_preferences` is keyed by member. */
  function SendToMember(expo: Expo, prefs: map<MemberId, Preferences>, memberId: MemberId,
                        title: string, body: string, data: Data): (r: SendResult)
    ensures r.NoToken? <==> !(memberId in prefs && Reachable(prefs[memberId]))
    ensures !r.NoToken? ==>
              r == SendNotification(expo, prefs[memberId].pushToken.value, title, body, data)
  {
    if memberId in prefs && Reachable(prefs[memberId]) then
      SendNotification(expo, prefs[memberId].pushToken.value, title, body, data)
    else
      NoToken
  }

  /** The provider calls `sendNotification` makes: one one-message batch
      for a well-formed token, none for a malformed one. */
  function SingleRequests(expo: Expo, pushToken: string, title: string, body: string, data: Data): (reqs: seq<seq<Message>>)
    ensures reqs == [] <==> SendNotification(expo, pushToken, title, body, data).InvalidToken?
    ensures reqs != [] ==>
              && reqs == [[MessageTo(pushToken, title, body, data)]]
              && (SendNotification(expo, pushToken, title, body, data).Success() <==> expo.send(0, reqs[0]).Tickets?)
  {
    if expo.isToken(pushToken) then [[MessageTo(pushToken, title, body, data)]] else []
  }

  /** The provider calls `sendToMember` makes: none without a reachable
      row (`no_token`) or with a malformed token, otherwise the single
      send to the member's token. */
  function MemberRequests(expo: Expo, prefs: map<MemberId, Preferences>, memberId: MemberId,
                          title: string, body: string, data: Data): (reqs: seq<seq<Message>>)
    ensures var r := SendToMember(expo, prefs, memberId, title, body, data);
            reqs == [] <==> r.NoToken? || r.InvalidToken?
    ensures reqs != [] ==>
              && reqs == [[MessageTo(prefs[memberId].pushToken.value, title, body, data)]]
              && (SendToMember(expo, prefs, memberId, title, body, data).Success() <==> expo.send(0, reqs[0]).Tickets?)
  {
    if memberId in prefs && Reachable(prefs[memberId]) then
      SingleRequests(expo, prefs[memberId].pushToken.value, title, body, data)
    else
      []
  }

  // ---------------------------------------------------------------
  // Sending in bulk
  // ---------------------------------------------------------------

  /** The result object of `sendBulkNotifications`; `tickets` is absent
      when there was nothing to send. */
  datatype BulkResult = BulkResult(success: bool, sent: nat, failed: nat, tickets: Option<seq<Ticket>>)

  /** `pushTokens.filter(isExpoPushToken)`. */
  function ValidTokens(isToken: string -> bool, tokens: seq<string>): seq<string> {
    if tokens == [] then []
    else
      var n := |tokens| - 1;
      ValidTokens(isToken, tokens[..n]) + (if isToken(tokens[n]) then [tokens[n]] else [])
  }

  /** A list of malformed tokens filters to nothing. */
  lemma {:induction false} NoValidToken(isToken: string -> bool, tokens: seq<string>)
    requires forall t :: t in tokens ==> !isToken(t)
    ensures ValidTokens(isToken, tokens) == []
  {
    if tokens != [] {
      var n := |tokens| - 1;
      assert forall t :: t in tokens[..n] ==> t in tokens;
      assert tokens[n] in tokens;
      NoValidToken(isToken, tokens[..n]);
    }
  }

  /** Filtering twice drops nothing more. */
  lemma {:induction false} ValidTokensIdempotent(isToken: string -> bool, tokens: seq<string>)
    ensures ValidTokens(isToken, ValidTokens(isToken, tokens)) == ValidTokens(isToken, tokens)
  {
    if tokens != [] {
      var n := |tokens| - 1;
      var front := ValidTokens(isToken, tokens[..n]);
      ValidTokensIdempotent(isToken, tokens[..n]);
      ValidTokensAppendValid(isToken, front, if isToken(tokens[n]) then [tokens[n]] else []);
    }
  }

  /** Appending tokens that all pass the filter appends them unchanged. */
  lemma {:induction false} ValidTokensAppendValid(isToken: string -> bool, front: seq<string>, tail: seq<string>)
    requires forall t :: t in tail ==> isToken(t)
    ensures ValidTokens(isToken, front + tail) == ValidTokens(isToken, front) + tail
  {
    if tail == [] {
      assert front + tail == front;
    } else {
      var n := |tail| - 1;
      var s := front + tail;
      assert s[..|s| - 1] == front + tail[..n];
      assert s[|s| - 1] == tail[n] && tail[n] in tail;
      assert forall t :: t in tail[..n] ==> t in tail;
      ValidTokensAppendValid(isToken, front, tail[..n]);
      calc {
        ValidTokens(isToken, s);
        ValidTokens(isToken, front + tail[..n]) + [tail[n]];
        ValidTokens(isToken, front) + tail[..n] + [tail[n]];
        { assert tail[..n] + [tail[n]] == tail; }
        ValidTokens(isToken, front) + tail;
      }
    }
  }

  /** The filter keeps exactly the tokens that pass the check. */
  lemma {:induction false} ValidTokensMembers(isToken: string -> bool, tokens: seq<string>)
    ensures forall t :: t in ValidTokens(isToken, tokens) <==> t in tokens && isToken(t)
  {
    if tokens != [] {
      var n := |tokens| - 1;
      ValidTokensMembers(isToken, tokens[..n]);
      assert tokens == tokens[..n] + [tokens[n]];
    }
  }

  /** One message per valid token, in order. */
  function Messages(tokens: seq<string>, title: string, body: string, data: Data): (ms: seq<Message>)
    ensures |ms| == |tokens|
  {
    seq(|tokens|, i requires 0 <= i < |tokens| => MessageTo(tokens[i], title, body, data))
  }

  /** The number of tickets whose status is `'ok'`. */
  function CountOk(ts: seq<Ticket>): (n: nat)
    ensures n <= |ts|
  {
    if ts == [] then 0
    else CountOk(ts[..|ts| - 1]) + (if ts[|ts| - 1].status == "ok" then 1 else 0)
  }

  /** What one chunk adds to `sent`. */
  function ChunkSent(o: SendOutcome): nat {
    if o.Tickets? then CountOk(o.tickets) else 0
  }

  /** What one chunk of `size` messages adds to `failed`: every non-`'ok'`
      ticket, or the whole chunk when the call throws. */
  function ChunkFailed(o: SendOutcome, size: nat): nat {
    if o.Tickets? then |o.tickets| - CountOk(o.tickets) else size
  }

  /** What one chunk adds to `tickets`. */
  function ChunkTickets(o: SendOutcome): seq<Ticket> {
    if o.Tickets? then o.tickets else []
  }

  /** `sent` after the first n chunks. */
  function SentOver(expo: Expo, chunks: seq<seq<Message>>, n: nat): nat
    requires n <= |chunks|
  {
    if n == 0 then 0 else SentOver(expo, chunks, n - 1) + ChunkSent(expo.send(n - 1, chunks[n - 1]))
  }

  /** `failed` after the first n chunks. */
  function FailedOver(expo: Expo, chunks: seq<seq<Message>>, n: nat): nat
    requires n <= |chunks|
  {
    if n == 0 then 0
    else FailedOver(expo, chunks, n - 1) + ChunkFailed(expo.send(n - 1, chunks[n - 1]), |chunks[n - 1]|)
  }

  /** `tickets` after the first n chunks. */
  function TicketsOver(expo: Expo, chunks: seq<seq<Message>>, n: nat): seq<Ticket>
    requires n <= |chunks|
  {
    if n == 0 then [] else TicketsOver(expo, chunks, n - 1) + ChunkTickets(expo.send(n - 1, chunks[n - 1]))
  }

  /** The chunks the provider is asked to deliver: none when no token is
      valid, otherwise the SDK's chunking of one message per valid token. */
  function Requests(expo: Expo, pushTokens: seq<string>, title: string, body: string, data: Data): seq<seq<Message>> {
    var valid := ValidTokens(expo.isToken, pushTokens);
    if valid == [] then [] else expo.chunk(Messages(valid, title, body, data))
  }

  /** The result `sendBulkNotifications` resolves to. */
  function Bulk(expo: Expo, pushTokens: seq<string>, title: string, body: string, data: Data): (r: BulkResult)
    ensures r.success
    ensures ValidTokens(expo.isToken, pushTokens) == [] <==> r.tickets.None?
    ensures r.tickets.None? ==> r == BulkResult(true, 0, 0, None)
  {
    var valid := ValidTokens(expo.isToken, pushTokens);
    if valid == [] then BulkResult(true, 0, 0, None)
    else
      var chunks := expo.chunk(Messages(valid, title, body, data));
      BulkResult(true, SentOver(expo, chunks, |chunks|), FailedOver(expo, chunks, |chunks|),
                 Some(TicketsOver(expo, chunks, |chunks|)))
  }

  /** `sendBulkNotifications`: drop invalid tokens, return at once if none
      is left, otherwise send chunk by chunk, counting `'ok'` tickets as
      sent and every other ticket, or every message of a chunk whose send
      throws, as failed. `requests` records the provider calls. */
  method SendBulkNotifications(expo: Expo, pushTokens: seq<string>, title: string, body: string, data: Data)
    returns (r: BulkResult, ghost requests: seq<seq<Message>>)
    ensures r == Bulk(expo, pushTokens, title, body, data)
    ensures requests == Requests(expo, pushTokens, title, body, data)
  {
    var validTokens := ValidTokens(expo.isToken, pushTokens);
    if |validTokens| == 0 {
      return BulkResult(true, 0, 0, None), [];
    }
    var messages := Messages(validTokens, title, body, data);
    var chunks := expo.chunk(messages);
    var tickets: seq<Ticket> := [];
    var sent: nat := 0;
    var failed: nat := 0;
    requests := [];
    for i := 0 to |chunks|
      invariant sent == SentOver(expo, chunks, i)
      invariant failed == FailedOver(expo, chunks, i)
      invariant tickets == TicketsOver(expo, chunks, i)
      invariant requests == chunks[..i]
    {
      var outcome := expo.send(i, chunks[i]);
      requests := requests + [chunks[i]];
      match outcome
      case Thrown(_) =>
        failed := failed + |chunks[i]|;
      case Tickets(ticketChunk) =>
        tickets := tickets + ticketChunk;
        for j := 0 to |ticketChunk|
          invariant sent == SentOver(expo, chunks, i) + CountOk(ticketChunk[..j])
          invariant failed == FailedOver(expo, chunks, i) + j - CountOk(ticketChunk[..j])
        {
          assert ticketChunk[..j + 1][..j] == ticketChunk[..j];
          if ticketChunk[j].status == "ok" {
            sent := sent + 1;
          } else {
            failed := failed + 1;
          }
        }
        assert ticketChunk[..|ticketChunk|] == ticketChunk;
    }
    assert requests == chunks;
    return BulkResult(true, sent, failed, Some(tickets)), requests;
  }

  /** The messages of a list of chunks, in order. */
  function Flatten(chunks: seq<seq<Message>>): seq<Message> {
    if chunks == [] then [] else Flatten(chunks[..|chunks| - 1]) + chunks[|chunks| - 1]
  }

  /** The provider answers every call that does not throw with one ticket
      per message. */
  predicate OneTicketEach(expo: Expo, chunks: seq<seq<Message>>) {
    forall i :: 0 <= i < |chunks| && expo.send(i, chunks[i]).Tickets? ==>
      |expo.send(i, chunks[i]).tickets| == |chunks[i]|
  }

  /** Each chunk counts every one of its messages once, as sent or failed. */
  lemma {:induction false} CountedOver(expo: Expo, chunks: seq<seq<Message>>, n: nat)
    requires n <= |chunks| && OneTicketEach(expo, chunks)
    ensures SentOver(expo, chunks, n) + FailedOver(expo, chunks, n) == |Flatten(chunks[..n])|
  {
    if n > 0 {
      CountedOver(expo, chunks, n - 1);
      assert chunks[..n][..n - 1] == chunks[..n - 1];
    }
  }

  /** When the SDK's chunks put every message back together and each
      answered call returns one ticket per message, `sent + failed` is the
      number of VALID tokens: malformed tokens are counted in neither. */
  lemma BulkCountsEachValidTokenOnce(expo: Expo, pushTokens: seq<string>, title: string, body: string, data: Data)
    requires var chunks := Requests(expo, pushTokens, title, body, data);
             Flatten(chunks) == Messages(ValidTokens(expo.isToken, pushTokens), title, body, data)
             && OneTicketEach(expo, chunks)
    ensures var r := Bulk(expo, pushTokens, title, body, data);
            r.sent + r.failed == |ValidTokens(expo.isToken, pushTokens)|
  {
    var chunks := Requests(expo, pushTokens, title, body, data);
    if ValidTokens(expo.isToken, pushTokens) != [] {
      CountedOver(expo, chunks, |chunks|);
      assert chunks[..|chunks|] == chunks;
    }
  }

  /** Invalid tokens make no difference to a bulk send: sending to the
      whole list is sending to its valid tokens. */
  lemma InvalidTokensIgnored(expo: Expo, pushTokens: seq<string>, title: string, body: string, data: Data)
    ensures Bulk(expo, pushTokens, title, body, data)
            == Bulk(expo, ValidTokens(expo.isToken, pushTokens), title, body, data)
    ensures Requests(expo, pushTokens, title, body, data)
            == Requests(expo, ValidTokens(expo.isToken, pushTokens), title, body, data)
  {
    ValidTokensIdempotent(expo.isToken, pushTokens);
  }

  /** With nothing to send, no provider call is made and nothing is
      counted. */
  lemma NothingToSend(expo: Expo, pushTokens: seq<string>, title: string, body: string, data: Data)
    requires forall t :: t in pushTokens ==> !expo.isToken(t)
    ensures Requests(expo, pushTokens, title, body, data) == []
    ensures Bulk(expo, pushTokens, title, body, data) == BulkResult(true, 0, 0, None)
  {
    NoValidToken(expo.isToken, pushTokens);
  }

  /** The single and the bulk send disagree about an `'error'` ticket: the
      single send reports success (it never reads the ticket's status),
      the bulk send counts the message as failed. */
  lemma ErrorTicketSingleVersusBulk(expo: Expo, token: string, title: string, body: string, data: Data)
    requires expo.isToken(token)
    requires var m := MessageTo(token, title, body, data);
             expo.chunk([m]) == [[m]] && expo.send(0, [m]) == Tickets([Ticket("error")])
    ensures SendNotification(expo, token, title, body, data).Success()
    ensures Bulk(expo, [token], title, body, data) == BulkResult(true, 0, 1, Some([Ticket("error")]))
  {
    var m := MessageTo(token, title, body, data);
    assert ValidTokens(expo.isToken, [token]) == [token] by {
      assert [token][..0] == [];
    }
    assert Messages([token], title, body, data) == [m];
    var chunks := [[m]];
    assert [Ticket("error")][..0] == [];
    assert CountOk([Ticket("error")]) == 0;
    assert SentOver(expo, chunks, 1) == 0;
    assert FailedOver(expo, chunks, 1) == 1;
    assert TicketsOver(expo, chunks, 1) == [Ticket("error")];
  }

  // ---------------------------------------------------------------
  // Recipient queries
  // ---------------------------------------------------------------

  /** `SELECT push_token FROM member_preferences WHERE push_token IS NOT
      NULL AND notifications_enabled = true`, over the rows in scan order. */
  function ReachableTokens(rows: seq<Preferences>): (ts: seq<string>)
    ensures |ts| <= |rows|
    ensures forall t :: t in ts ==> exists p :: p in rows && Reachable(p) && p.pushToken == Some(t)
    ensures forall i :: 0 <= i < |rows| && Reachable(rows[i]) ==> rows[i].pushToken.value in ts
  {
    if rows == [] then []
    else
      var n := |rows| - 1;
      assert forall p :: p in rows[..n] ==> p in rows;
      ReachableTokens(rows[..n]) + (if Reachable(rows[n]) then [rows[n].pushToken.value] else [])
  }

  /** The same query restricted to `member_id = ANY($1)`. */
  function ReachableTokensOf(memberIds: set<MemberId>, rows: seq<(MemberId, Preferences)>): (ts: seq<string>)
    ensures |ts| <= |rows|
    ensures forall t :: t in ts ==>
              exists i :: 0 <= i < |rows| && rows[i].0 in memberIds && Reachable(rows[i].1) && rows[i].1.pushToken == Some(t)
    ensures forall i :: 0 <= i < |rows| && rows[i].0 in memberIds && Reachable(rows[i].1) ==>
              rows[i].1.pushToken.value in ts
  {
    if rows == [] then []
    else
      var n := |rows| - 1;
      ReachableTokensOf(memberIds, rows[..n])
      + (if rows[n].0 in memberIds && Reachable(rows[n].1) then [rows[n].1.pushToken.value] else [])
  }

  /** The database evaluating a WHERE clause over the joined rows, in scan
      order, and projecting the push token. */
  function RunQuery(w: Where, params: seq<Param>, env: Env, rows: seq<Candidate>): (ts: seq<string>)
    ensures |ts| <= |rows|
  {
    if rows == [] then []
    else
      var n := |rows| - 1;
      RunQuery(w, params, env, rows[..n])
      + (if Selects(w, params, env, rows[n]) then [rows[n].prefs.pushToken.value] else [])
  }

  /** The reference recipients of a targeted send: the tokens of the
      reachable rows that match the criteria, in scan order. */
  function TargetedTokens(c: Criteria, env: Env, rows: seq<Candidate>): seq<string> {
    if rows == [] then []
    else
      var n := |rows| - 1;
      TargetedTokens(c, env, rows[..n])
      + (if Reachable(rows[n].prefs) && Matches(c, env, rows[n]) then [rows[n].prefs.pushToken.value] else [])
  }

  /** A WHERE clause with the meaning of the criteria returns exactly the
      reference recipients. */
  lemma {:induction false} RunQueryMeansCriteria(w: Where, params: seq<Param>, c: Criteria, env: Env, rows: seq<Candidate>)
    requires forall row: Candidate {:trigger Selects(w, params, env, row)} ::
               Selects(w, params, env, row) <==> Reachable(row.prefs) && Matches(c, env, row)
    ensures RunQuery(w, params, env, rows) == TargetedTokens(c, env, rows)
  {
    if rows != [] {
      RunQueryMeansCriteria(w, params, c, env, rows[..|rows| - 1]);
    }
  }

  /** Every targeted recipient is also a broadcast recipient, and adding
      criteria never adds a recipient (counting repeats). */
  lemma {:induction false} TargetingNarrows(c2: Criteria, c1: Criteria, env: Env, rows: seq<Candidate>)
    requires Narrows(c2, c1)
    ensures multiset(TargetedTokens(c2, env, rows)) <= multiset(TargetedTokens(c1, env, rows))
    ensures multiset(TargetedTokens(c2, env, rows)) <= multiset(TargetedTokens(NoCriteria, env, rows))
  {
    if rows != [] {
      var n := |rows| - 1;
      TargetingNarrows(c2, c1, env, rows[..n]);
      NarrowingExcludesMore(c2, c1, env, rows[n]);
      NarrowingExcludesMore(c2, NoCriteria, env, rows[n]);
    }
  }

  /** With no criteria a targeted send reaches exactly the broadcast
      recipients among the joined rows. */
  lemma {:induction false} NoCriteriaIsBroadcast(env: Env, rows: seq<Candidate>)
    ensures TargetedTokens(NoCriteria, env, rows) == ReachableTokens(PrefsOf(rows))
  {
    if rows != [] {
      var n := |rows| - 1;
      NoCriteriaIsBroadcast(env, rows[..n]);
      assert PrefsOf(rows)[..n] == PrefsOf(rows[..n]);
      assert PrefsOf(rows)[n] == rows[n].prefs;
      NarrowingExcludesMore(NoCriteria, NoCriteria, env, rows[n]);
    }
  }

  /** The preference columns of the joined rows. */
  function PrefsOf(rows: seq<Candidate>): (ps: seq<Preferences>)
    ensures |ps| == |rows| && forall i :: 0 <= i < |rows| ==> ps[i] == rows[i].prefs
  {
    seq(|rows|, i requires 0 <= i < |rows| => rows[i].prefs)
  }

  /** `sendToAllMembers`: every reachable preference row, in bulk. */
  method SendToAllMembers(expo: Expo, rows: seq<Preferences>, title: string, body: string, data: Data)
    returns (r: BulkResult, ghost requests: seq<seq<Message>>)
    ensures r == Bulk(expo, ReachableTokens(rows), title, body, data)
    ensures requests == Requests(expo, ReachableTokens(rows), title, body, data)
  {
    var tokens := ReachableTokens(rows);
    r, requests := SendBulkNotifications(expo, tokens, title, body, data);
  }

  /** `sendToMembers`: the reachable rows of the given members, in bulk. */
  method SendToMembers(expo: Expo, memberIds: set<MemberId>, rows: seq<(MemberId, Preferences)>,
                       title: string, body: string, data: Data)
    returns (r: BulkResult, ghost requests: seq<seq<Message>>)
    ensures r == Bulk(expo, ReachableTokensOf(memberIds, rows), title, body, data)
    ensures requests == Requests(expo, ReachableTokensOf(memberIds, rows), title, body, data)
  {
    var tokens := ReachableTokensOf(memberIds, rows);
    r, requests := SendBulkNotifications(expo, tokens, title, body, data);
  }

  /** `sendByCriteria`: build the WHERE clause, run it, send in bulk to
      the rows it returns, which are exactly the reachable rows matching
      the criteria. */
  method SendByCriteria(expo: Expo, c: Criteria, env: Env, rows: seq<Candidate>,
                        title: string, body: string, data: Data)
    returns (r: BulkResult, ghost requests: seq<seq<Message>>)
    ensures r == Bulk(expo, TargetedTokens(c, env, rows), title, body, data)
    ensures requests == Requests(expo, TargetedTokens(c, env, rows), title, body, data)
  {
    var query, params := BuildCriteriaQuery(c);
    var tokens := RunQuery(query, params, env, rows);
    RunQueryMeansCriteria(query, params, c, env, rows);
    r, requests := SendBulkNotifications(expo, tokens, title, body, data);
  }

  // ---------------------------------------------------------------
  // The notification log
  // ---------------------------------------------------------------

  /** The `criteria` column: JSON `null`, a criteria object, or
      `{memberId}` for an individual send. */
  datatype LogCriteria = Untargeted | ByCriteria(criteria: Criteria) | ForMember(memberId: MemberId)

  /** A `notification_log` row; `id` is a serial starting at 1. */
  datatype LogRow = LogRow(
    id: nat, kind: string, title: string, body: string, criteria: LogCriteria,
    recipientCount: int, sentCount: int, failedCount: int, status: string)

  /** The final `UPDATE notification_log SET ...` of an endpoint: batch
      sends set all three counts and the status, an individual send only
      the sent and failed counts and the status. */
  datatype Finalisation =
    | BatchTotals(recipientCount: int, sentCount: int, failedCount: int, status: string)
    | SingleOutcome(sentCount: int, failedCount: int, status: string)

  function Apply(row: LogRow, f: Finalisation): (r: LogRow)
    ensures r.id == row.id && r.kind == row.kind && r.title == row.title
            && r.body == row.body && r.criteria == row.criteria
    ensures r.sentCount == f.sentCount && r.failedCount == f.failedCount && r.status == f.status
    ensures r.recipientCount == if f.BatchTotals? then f.recipientCount else row.recipientCount
  {
    match f
    case BatchTotals(n, s, x, st) => row.(recipientCount := n, sentCount := s, failedCount := x, status := st)
    case SingleOutcome(s, x, st) => row.(sentCount := s, failedCount := x, status := st)
  }

  /** `UPDATE ... WHERE id = $n`. An `undefined` id is bound as NULL, and
      `id = NULL` holds for no row. */
  function FinaliseRows(rows: seq<LogRow>, id: Option<nat>, f: Finalisation): (r: seq<LogRow>)
    ensures |r| == |rows|
    ensures forall i :: 0 <= i < |rows| ==>
              r[i] == if id == Some(rows[i].id) then Apply(rows[i], f) else rows[i]
  {
    if rows == [] then []
    else
      var n := |rows| - 1;
      FinaliseRows(rows[..n], id, f) + [if id == Some(rows[n].id) then Apply(rows[n], f) else rows[n]]
  }

  /** An update keyed by an absent id changes no row. */
  lemma FinaliseWithoutIdChangesNothing(rows: seq<LogRow>, f: Finalisation)
    ensures FinaliseRows(rows, None, f) == rows
  {
  }

  /** Serial ids: the i-th row has id i + 1. */
  predicate SerialIds(rows: seq<LogRow>) {
    forall i :: 0 <= i < |rows| ==> rows[i].id == i + 1
  }

  /** An update keyed by a row's own id finalises that row and no other. */
  lemma FinaliseWithIdSettles(rows: seq<LogRow>, id: nat, f: Finalisation)
    requires SerialIds(rows) && 1 <= id <= |rows|
    ensures FinaliseRows(rows, Some(id), f)[id - 1] == Apply(rows[id - 1], f)
    ensures forall i :: 0 <= i < |rows| && i != id - 1 ==> FinaliseRows(rows, Some(id), f)[i] == rows[i]
  {
  }

  /** The `notification_log` table. */
  class NotificationLog {
    var rows: seq<LogRow>

    ghost predicate Valid()
      reads this
    {
      SerialIds(rows)
    }

    constructor()
      ensures Valid() && rows == []
    {
      rows := [];
    }

    /** `logNotification`: insert one row; a failing insert is caught and
        logged, so nothing changes. It returns no value, whatever the
        outcome. `stored` says whether the database accepted the insert. */
    method LogNotification(kind: string, title: string, body: string, criteria: LogCriteria,
                           recipientCount: int, status: string, sentCount: int, failedCount: int,
                           stored: bool)
      requires Valid()
      modifies this
      ensures Valid()
      ensures stored ==> rows == old(rows) + [LogRow(|old(rows)| + 1, kind, title, body, criteria,
                                                     recipientCount, sentCount, failedCount, status)]
      ensures !stored ==> rows == old(rows)
    {
      if stored {
        rows := rows + [LogRow(|rows| + 1, kind, title, body, criteria,
                               recipientCount, sentCount, failedCount, status)];
      }
    }

    /** The same insert with `RETURNING id`: the new row's id, or None when
        the insert failed. */
    method RecordNotification(kind: string, title: string, body: string, criteria: LogCriteria,
                              recipientCount: int, status: string, sentCount: int, failedCount: int,
                              stored: bool)
      returns (id: Option<nat>)
      requires Valid()
      modifies this
      ensures Valid()
      ensures stored ==> rows == old(rows) + [LogRow(|old(rows)| + 1, kind, title, body, criteria,
                                                     recipientCount, sentCount, failedCount, status)]
      ensures stored ==> id == Some(|rows|)
      ensures !stored ==> rows == old(rows) && id == None
    {
      LogNotification(kind, title, body, criteria, recipientCount, status, sentCount, failedCount, stored);
      id := if stored then Some(|rows|) else None;
    }

    /** The endpoints' final `UPDATE notification_log ... WHERE id = $n`. */
    method Finalise(id: Option<nat>, f: Finalisation)
      requires Valid()
      modifies this
      ensures Valid()
      ensures rows == FinaliseRows(old(rows), id, f)
    {
      rows := FinaliseRows(rows, id, f);
    }
  }
}
