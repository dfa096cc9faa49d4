/** The leaderboard routes (routes/index.ts): `POST /score`, `DELETE /score/:id`,
    `GET /top` and `GET /all`. Each handler is a function of the request and of
    the outcomes of the external calls it makes (the key-value table, the
    websocket gateway, `JSON.parse`), and returns the calls it made, in order,
    with the status and body it answered. */
module Leaderboard {
  import opened Wrappers
  import opened JsText
  import Notify

  datatype ScoreRecord = ScoreRecord(id: string, userId: string, userName: string, score: int, timestamp: int)

  /** The table's primary key. */
  datatype Key = Key(id: string)

  datatype ScanRequest =
    | FullScan                                            // every item
    | CountScan                                           // `Select: 'COUNT'`
    | PageScan(limit: int, exclusiveStartKey: Option<Key>)

  /** What a scan returns: `Items`, `Count` and `LastEvaluatedKey`, each possibly absent. */
  datatype ScanOutput = ScanOutput(items: Option<seq<ScoreRecord>>, count: Option<nat>, lastEvaluatedKey: Option<Key>)

  /** An external call made while handling a request. */
  datatype Call =
    | PutItem(item: ScoreRecord)
    | DeleteItem(key: Key)
    | Scan(request: ScanRequest)
    | PostToConnection(post: Notify.Post)

  datatype Body =
    | MessageBody(message: string)                              // { message }
    | StatusBody(success: bool, message: string)                // { success, message }
    | CreatedBody(success: bool, item: ScoreRecord)             // { success, item }
    | TopBody(top: seq<Option<ScoreRecord>>, scanned: Option<nat>)       // { data, count }
    | PageBody(page: seq<ScoreRecord>, total: nat, lastKey: Option<Key>) // { data, count, lastKey }
    | ErrorBody(error: string, reason: Option<string>)                   // { error, message }

  datatype Reply = Reply(status: int, body: Body)

  datatype Exchange = Exchange(calls: seq<Call>, reply: Reply)

  const FieldsRequired: string := "user_id, user_name and score required"
  const ConnectionRequired: string := "Connection ID is required, please reconnect"

  // ---------------------------------------------------------------------------
  // POST /score

  /** The JSON body of a submission; an absent score is `None`. */
  datatype Submission = Submission(userId: Option<string>, userName: Option<string>, score: Option<int>)

  /** `user_id` and `user_name` truthy and `score` not undefined (0 passes). */
  predicate Complete(body: Submission) {
    Truthy(body.userId) && Truthy(body.userName) && body.score.Some?
  }

  /** The handler for `POST /score`. `connectionId` is the `connectionid` header,
      `newId` and `now` the generated uuid and the clock, `put` the outcome of
      the table write and `send` that of the websocket post. */
  function SubmitScore(body: Submission, connectionId: Option<string>, newId: string, now: int,
                       put: Outcome<Thrown>, send: Outcome<Thrown>): (x: Exchange)
    ensures !Complete(body) ==> x == Exchange([], Reply(400, MessageBody(FieldsRequired)))
    ensures Complete(body) && !Truthy(connectionId) ==>
      x == Exchange([], Reply(400, MessageBody(ConnectionRequired)))
    ensures Complete(body) && Truthy(connectionId) ==>
      var item := ScoreRecord(newId, body.userId.value, body.userName.value, body.score.value, now);
      1 <= |x.calls| <= 2 && x.calls[0] == PutItem(item)
      && (put.Fail? ==>
            x.calls == [PutItem(item)]
            && x.reply == Reply(500, StatusBody(false, "Failed to save score: " + Render(put.error.message))))
      && (put.Pass? ==>
            x.reply == Reply(201, CreatedBody(true, item))
            && (|x.calls| == 2 <==> body.score.value > Notify.Threshold)
            && (|x.calls| == 2 ==>
                  (x.calls[1].PostToConnection? && x.calls[1].post.connectionId == connectionId.value)))
  {
    if !Complete(body) then
      Exchange([], Reply(400, MessageBody(FieldsRequired)))
    else if !Truthy(connectionId) then
      Exchange([], Reply(400, MessageBody(ConnectionRequired)))
    else
      var item := ScoreRecord(newId, body.userId.value, body.userName.value, body.score.value, now);
      match put
      case Fail(err) =>
        Exchange([PutItem(item)], Reply(500, StatusBody(false, "Failed to save score: " + Render(err.message))))
      case Pass =>
        var user := Notify.User(body.userId.value, body.score.value, body.userName.value, connectionId.value);
        var n := Notify.NotifyUserIfHighScore(user, send);
        var posts := if n.post.Some? then [PostToConnection(n.post.value)] else [];
        Exchange([PutItem(item)] + posts, Reply(201, CreatedBody(true, item)))
  }

  /** A rejected submission never reaches the table. */
  lemma RejectedSubmissionWritesNothing(body: Submission, connectionId: Option<string>, newId: string, now: int,
                                        put: Outcome<Thrown>, send: Outcome<Thrown>)
    ensures var x := SubmitScore(body, connectionId, newId, now, put, send);
            x.reply.status == 400 <==> x.calls == []
    ensures var x := SubmitScore(body, connectionId, newId, now, put, send);
            x.reply.status == 400 <==> !Complete(body) || !Truthy(connectionId)
  {
  }

  /** The order of effects: a post only ever follows a successful write of the
      same score, and the answer does not depend on how the post went. */
  lemma PostFollowsSuccessfulPut(body: Submission, connectionId: Option<string>, newId: string, now: int,
                                 put: Outcome<Thrown>, s1: Outcome<Thrown>, s2: Outcome<Thrown>)
    ensures var x := SubmitScore(body, connectionId, newId, now, put, s1);
            forall i :: 0 <= i < |x.calls| && x.calls[i].PostToConnection? ==>
              i == 1 && put.Pass? && x.calls[0].PutItem? && x.calls[0].item.score > Notify.Threshold
              && x.reply.status == 201
    ensures SubmitScore(body, connectionId, newId, now, put, s1).reply
            == SubmitScore(body, connectionId, newId, now, put, s2).reply
  {
  }

  /** The post carries a congratulation naming the submitter and the score. */
  lemma SubmissionPostMessage(body: Submission, connectionId: Option<string>, newId: string, now: int,
                              put: Outcome<Thrown>, send: Outcome<Thrown>)
    requires |SubmitScore(body, connectionId, newId, now, put, send).calls| == 2
    ensures var x := SubmitScore(body, connectionId, newId, now, put, send);
            x.calls[1].PostToConnection?
            && Notify.ReadMessage(x.calls[1].post.data)
               == Some(Notify.Congratulation(body.userName.value, body.score.value))
  {
    Notify.ReadMessageData(Notify.Congratulation(body.userName.value, body.score.value));
  }

  // ---------------------------------------------------------------------------
  // DELETE /score/:id

  /** The handler for `DELETE /score/:id`: the `userid` and `username` headers
      and the path id are required; the ids are not checked against the stored
      record, and the store's answer for a missing id is the same as for a
      present one, so `del` alone decides between 200 and 500. */
  function DeleteScore(userId: Option<string>, userName: Option<string>, scoreId: Option<string>,
                       del: Outcome<Thrown>): (x: Exchange)
    ensures !(Truthy(userId) && Truthy(userName) && Truthy(scoreId)) ==>
      x == Exchange([], Reply(400, MessageBody(FieldsRequired)))
    ensures Truthy(userId) && Truthy(userName) && Truthy(scoreId) ==>
      x.calls == [DeleteItem(Key(scoreId.value))]
      && (del.Pass? ==> x.reply == Reply(200, StatusBody(true, "Score deleted successfully")))
      && (del.Fail? ==>
            x.reply == Reply(500, StatusBody(false, "Failed to delete score: " + Render(del.error.message))))
  {
    if !Truthy(userId) || !Truthy(userName) || !Truthy(scoreId) then
      Exchange([], Reply(400, MessageBody(FieldsRequired)))
    else
      var calls := [DeleteItem(Key(scoreId.value))];
      match del
      case Pass => Exchange(calls, Reply(200, StatusBody(true, "Score deleted successfully")))
      case Fail(err) =>
        Exchange(calls, Reply(500, StatusBody(false, "Failed to delete score: " + Render(err.message))))
  }

  // ---------------------------------------------------------------------------
  // GET /top: `Items.sort((a, b) => b.score - a.score)[0]`

  /** Inserts `x` before the first element with a lower score. Placing it ahead
      of equal scores keeps the order of the input among ties, as the stable
      `Array.prototype.sort` does when `x` came first. */
  function InsertByScore(x: ScoreRecord, t: seq<ScoreRecord>): (r: seq<ScoreRecord>)
    ensures |r| == |t| + 1
  {
    if t == [] || x.score >= t[0].score then [x] + t else [t[0]] + InsertByScore(x, t[1..])
  }

  /** A stable sort by descending score. */
  function SortByScore(s: seq<ScoreRecord>): (r: seq<ScoreRecord>)
    ensures |r| == |s|
  {
    if s == [] then [] else InsertByScore(s[0], SortByScore(s[1..]))
  }

  predicate Descending(s: seq<ScoreRecord>) {
    forall i, j :: 0 <= i < j < |s| ==> s[i].score >= s[j].score
  }

  lemma {:induction false} InsertByScorePermutes(x: ScoreRecord, t: seq<ScoreRecord>)
    ensures multiset(InsertByScore(x, t)) == multiset(t) + multiset{x}
  {
    if t != [] && x.score < t[0].score {
      InsertByScorePermutes(x, t[1..]);
      assert t == [t[0]] + t[1..];
    }
  }

  lemma {:induction false} InsertByScoreDescending(x: ScoreRecord, t: seq<ScoreRecord>)
    requires Descending(t)
    ensures Descending(InsertByScore(x, t))
  {
    if t != [] && x.score < t[0].score {
      var r := InsertByScore(x, t[1..]);
      InsertByScoreDescending(x, t[1..]);
      InsertByScorePermutes(x, t[1..]);
      forall j | 0 <= j < |r|
        ensures r[j].score <= t[0].score
      {
        assert r[j] in multiset(r);
        if r[j] != x {
          assert r[j] in multiset(t[1..]);
          var i :| 0 <= i < |t[1..]| && t[1..][i] == r[j];
          assert t[i + 1] == r[j];
        }
      }
      assert InsertByScore(x, t) == [t[0]] + r;
    }
  }

  lemma InsertByScoreSorts(x: ScoreRecord, t: seq<ScoreRecord>)
    requires Descending(t)
    ensures Descending(InsertByScore(x, t))
    ensures multiset(InsertByScore(x, t)) == multiset(t) + multiset{x}
  {
    InsertByScoreDescending(x, t);
    InsertByScorePermutes(x, t);
  }

  /** The sort yields a descending permutation of the scanned items. */
  lemma {:induction false} SortByScoreSorts(s: seq<ScoreRecord>)
    ensures Descending(SortByScore(s)) && multiset(SortByScore(s)) == multiset(s)
  {
    if s != [] {
      SortByScoreSorts(s[1..]);
      InsertByScoreSorts(s[0], SortByScore(s[1..]));
      assert s == [s[0]] + s[1..];
    }
  }

  lemma InsertByScoreHead(x: ScoreRecord, t: seq<ScoreRecord>)
    ensures |InsertByScore(x, t)| == |t| + 1
    ensures InsertByScore(x, t)[0] == (if t == [] || x.score >= t[0].score then x else t[0])
  {
  }

  /** The first element after sorting is the first item, in scan order, that
      has the highest score. */
  lemma {:induction false} SortedHeadIsFirstMaximum(s: seq<ScoreRecord>) returns (k: nat)
    requires s != []
    ensures k < |s| && |SortByScore(s)| == |s| && SortByScore(s)[0] == s[k]
    ensures forall j :: 0 <= j < |s| ==> s[j].score <= s[k].score
    ensures forall j :: 0 <= j < k ==> s[j].score < s[k].score
  {
    var rest := SortByScore(s[1..]);
    InsertByScoreHead(s[0], rest);
    if |s| == 1 {
      k := 0;
    } else {
      var k' := SortedHeadIsFirstMaximum(s[1..]);
      if s[0].score >= rest[0].score {
        k := 0;
      } else {
        k := k' + 1;
        assert s[k] == s[1..][k'];
      }
    }
  }

  lemma SortedHeadIsMaximum(s: seq<ScoreRecord>)
    requires s != []
    ensures |SortByScore(s)| > 0 && SortByScore(s)[0] in s
    ensures forall r :: r in s ==> r.score <= SortByScore(s)[0].score
  {
    var k := SortedHeadIsFirstMaximum(s);
  }

  /** The record `/top` answers with; `None` is `undefined` (an empty scan). */
  function TopOf(items: seq<ScoreRecord>): (top: Option<ScoreRecord>)
    ensures top.None? <==> items == []
    ensures top.Some? ==> top.value in items
    ensures top.Some? ==> forall r :: r in items ==> r.score <= top.value.score
  {
    if items == [] then None
    else
      SortedHeadIsMaximum(items);
      Some(SortByScore(items)[0])
  }

  const TopFailed: string := "Failed to retrieve leaderboard highest score"

  /** The handler for `GET /top`: one full scan; the highest score and the
      number of items scanned. */
  function TopScore(scan: Result<ScanOutput, Thrown>): (x: Exchange)
    ensures x.calls == [Scan(FullScan)]
    ensures scan.Err? ==> x.reply == Reply(500, ErrorBody(TopFailed, scan.error.message))
    ensures scan.Ok? ==> x.reply.status == 200 && x.reply.body.TopBody? && |x.reply.body.top| == 1
    ensures scan.Ok? && scan.value.items.None? ==> x.reply.body == TopBody([None], None)
    ensures scan.Ok? && scan.value.items.Some? ==>
      var items := scan.value.items.value;
      var top := x.reply.body.top[0];
      x.reply.body.scanned == Some(|items|)
      && (items == [] <==> top.None?)
      && (top.Some? ==> top.value in items && forall r :: r in items ==> r.score <= top.value.score)
  {
    match scan
    case Err(err) => Exchange([Scan(FullScan)], Reply(500, ErrorBody(TopFailed, err.message)))
    case Ok(out) =>
      match out.items
      case None => Exchange([Scan(FullScan)], Reply(200, TopBody([None], None)))
      case Some(items) => Exchange([Scan(FullScan)], Reply(200, TopBody([TopOf(items)], Some(|items|))))
  }

  // ---------------------------------------------------------------------------
  // GET /all

  /** `parseInt(limit, 10) || 5`: NaN and zero fall back to 5. An absent query
      parameter reaches parseInt as the text "undefined". */
  function PageSize(limit: Option<string>): (n: int)
    ensures n != 0
    ensures ParseInt(Render(limit)).None? ==> n == 5
    ensures ParseInt(Render(limit)).Some? ==>
      n == (if ParseInt(Render(limit)).value == 0 then 5 else ParseInt(Render(limit)).value)
  {
    match ParseInt(Render(limit))
    case Some(v) => if v != 0 then v else 5
    case None => 5
  }

  /** A written number is read back exactly; zero falls back to the default. */
  lemma PageSizeOfNumber(n: int)
    ensures PageSize(Some(IntToString(n))) == (if n == 0 then 5 else n)
  {
    ParseIntRoundTrip(n);
  }

  /** Text after the number and whitespace before it change nothing. */
  lemma PageSizeIgnoresSurroundings(n: int, ws: string, rest: string)
    requires forall i :: 0 <= i < |ws| ==> IsJsSpace(ws[i])
    requires rest == [] || !IsDigit(rest[0])
    ensures PageSize(Some(ws + (IntToString(n) + rest))) == (if n == 0 then 5 else n)
  {
    ParseIntIgnoresSuffix(n, rest);
    ParseIntSkipsSpace(ws, IntToString(n) + rest);
  }

  /** A missing limit, and one that does not start with a number, give 5. */
  lemma PageSizeDefaults(s: string)
    requires s == [] || (!IsDigit(s[0]) && !IsJsSpace(s[0]) && s[0] != '-' && s[0] != '+')
    ensures PageSize(None) == 5 && PageSize(Some(s)) == 5
  {
    ParseIntOfNonNumeric("undefined");
    if s != [] {
      ParseIntOfNonNumeric(s);
    }
  }

  const AllFailed: string := "Failed to retrieve leaderboard scores"

  /** The scan the page is read with: the page size, and the parsed `lastKey`
      as the exclusive start key when one was given. */
  function PageRequest(limit: Option<string>, lastKey: Option<string>, startKey: Key): (r: ScanRequest)
    ensures r.PageScan? && r.limit == PageSize(limit)
    ensures r.exclusiveStartKey.Some? <==> Truthy(lastKey)
    ensures Truthy(lastKey) ==> r.exclusiveStartKey == Some(startKey)
  {
    PageScan(PageSize(limit), if Truthy(lastKey) then Some(startKey) else None)
  }

  /** The handler for `GET /all`. `parsedKey` is what `JSON.parse(lastKey)`
      gives (consulted only for a truthy `lastKey`); `countScan` and `pageScan`
      are the outcomes of the two scans, made in that order. */
  function ListScores(limit: Option<string>, lastKey: Option<string>, parsedKey: Result<Key, Thrown>,
                      countScan: Result<ScanOutput, Thrown>, pageScan: Result<ScanOutput, Thrown>): (x: Exchange)
    ensures 1 <= |x.calls| <= 2 && x.calls[0] == Scan(CountScan)
    ensures countScan.Err? ==>
      x == Exchange([Scan(CountScan)], Reply(500, ErrorBody(AllFailed, countScan.error.message)))
    ensures countScan.Ok? && Truthy(lastKey) && parsedKey.Err? ==>
      x == Exchange([Scan(CountScan)], Reply(500, ErrorBody(AllFailed, parsedKey.error.message)))
    ensures countScan.Ok? && (Truthy(lastKey) ==> parsedKey.Ok?) ==> |x.calls| == 2
    ensures |x.calls| == 2 ==>
      x.calls[1] == Scan(PageScan(PageSize(limit), if Truthy(lastKey) then Some(parsedKey.value) else None))
    ensures |x.calls| == 2 && pageScan.Err? ==>
      x.reply == Reply(500, ErrorBody(AllFailed, pageScan.error.message))
    ensures x.reply.status == 200 <==> countScan.Ok? && (Truthy(lastKey) ==> parsedKey.Ok?) && pageScan.Ok?
    ensures x.reply.status == 200 ==>
      x.reply.body.PageBody?
      && x.reply.body.page == pageScan.value.items.GetOr([])
      && x.reply.body.total == countScan.value.count.GetOr(0)
      && (x.reply.body.lastKey.None? <==> pageScan.value.lastEvaluatedKey.None?)
      && x.reply.body.lastKey == pageScan.value.lastEvaluatedKey
  {
    var first := [Scan(CountScan)];
    match countScan
    case Err(err) => Exchange(first, Reply(500, ErrorBody(AllFailed, err.message)))
    case Ok(counted) =>
      var total := counted.count.GetOr(0);
      if Truthy(lastKey) && parsedKey.Err? then
        Exchange(first, Reply(500, ErrorBody(AllFailed, parsedKey.error.message)))
      else
        var request := PageRequest(limit, lastKey, if parsedKey.Ok? then parsedKey.value else Key(""));
        var calls := first + [Scan(request)];
        match pageScan
        case Err(err) => Exchange(calls, Reply(500, ErrorBody(AllFailed, err.message)))
        case Ok(page) => Exchange(calls, Reply(200, PageBody(page.items.GetOr([]), total, page.lastEvaluatedKey)))
  }
}
