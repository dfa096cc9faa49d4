/** The high-score notification (helpers/notify.ts): a decision between sending
    nothing and posting one congratulation message to the user's websocket
    connection. The post itself goes to the gateway; its outcome is a parameter. */
module Notify {
  import opened Wrappers
  import opened JsText
  import JsonText

  /** Scores strictly above this earn a message. */
  const Threshold: int := 1000

  datatype User = User(id: string, score: int, username: string, connectionId: string)

  /** One `postToConnection` call: the connection addressed and the data sent. */
  datatype Post = Post(connectionId: string, data: string)

  /** What the function logs; it never reports anything to its caller. */
  datatype Report =
    | BelowThreshold     // falsy score or not above the threshold: nothing happens
    | NoConnection       // high score but empty connection id: warned and returned
    | Delivered          // the post completed
    | StaleConnection    // the gateway answered 410: warned
    | SendFailed         // any other error from the post: logged

  datatype Notification = Notification(post: Option<Post>, report: Report)

  function Congratulation(username: string, score: int): (text: string)
    ensures |text| > 16 + |username| + 31
    ensures text[..16] == "Congratulations " && text[16..16 + |username|] == username
    ensures text[|text| - 1] == '!'
  {
    "Congratulations " + username + ", you have a new high score of " + IntToString(score) + "!"
  }

  const MessagePrefix: string := "{\"message\":"

  /** `JSON.stringify({message: text})`. */
  function MessageData(text: string): string {
    MessagePrefix + JsonText.Quote(text) + "}"
  }

  /** `notifyUserIfHighScore(user)`. `send` is what the gateway does with the post,
      consulted only when a post is made. The result is always a value: every
      path, including a failed post, returns normally. */
  function NotifyUserIfHighScore(user: User, send: Outcome<Thrown>): (n: Notification)
    ensures n.post.Some? <==> user.score > Threshold && user.connectionId != ""
    ensures n.post.Some? ==>
      n.post.value == Post(user.connectionId, MessageData(Congratulation(user.username, user.score)))
    ensures user.score <= Threshold ==> n.report == BelowThreshold
    ensures user.score > Threshold && user.connectionId == "" ==> n.report == NoConnection
    ensures n.post.Some? ==>
      (n.report == Delivered <==> send.Pass?)
      && (n.report == StaleConnection <==> send.Fail? && send.error.statusCode == Some(410))
      && (n.report == SendFailed <==> send.Fail? && send.error.statusCode != Some(410))
  {
    if user.score != 0 && user.score > Threshold then
      if user.connectionId == "" then
        Notification(None, NoConnection)
      else
        var post := Post(user.connectionId, MessageData(Congratulation(user.username, user.score)));
        match send
        case Pass => Notification(Some(post), Delivered)
        case Fail(err) =>
          if err.statusCode == Some(410) then Notification(Some(post), StaleConnection)
          else Notification(Some(post), SendFailed)
    else
      Notification(None, BelowThreshold)
  }

  /** Whether and what is posted does not depend on how the post turns out. */
  lemma PostIndependentOfOutcome(user: User, s1: Outcome<Thrown>, s2: Outcome<Thrown>)
    ensures NotifyUserIfHighScore(user, s1).post == NotifyUserIfHighScore(user, s2).post
  {
  }

  /** Reads back the `message` field of a posted payload. */
  function ReadMessage(data: string): Option<string> {
    if |data| >= |MessagePrefix| + 1 && data[..|MessagePrefix|] == MessagePrefix && data[|data| - 1] == '}'
    then JsonText.Unquote(data[|MessagePrefix|..|data| - 1])
    else None
  }

  /** Round trip: the `message` field read back from the payload is the text. */
  lemma ReadMessageData(text: string)
    ensures ReadMessage(MessageData(text)) == Some(text)
  {
    var data := MessageData(text);
    assert data[..|MessagePrefix|] == MessagePrefix;
    assert data[|MessagePrefix|..|data| - 1] == JsonText.Quote(text);
    JsonText.UnquoteQuote(text);
  }

  /** The congratulation names the user verbatim and ends with the score,
      which reads back as the same number. */
  lemma CongratulationFields(username: string, score: int)
    ensures var text := Congratulation(username, score);
            text[16..16 + |username|] == username
            && ParseInt(text[16 + |username| + 31..]) == Some(score)
  {
    var head := "Congratulations " + username + ", you have a new high score of ";
    var tail := IntToString(score) + "!";
    assert |head| == 16 + |username| + 31;
    assert head[16..16 + |username|] == username;
    var text := Congratulation(username, score);
    assert text == head + tail;
    assert text[|head|..] == tail;
    assert text[16..16 + |username|] == head[16..16 + |username|];
    ParseIntIgnoresSuffix(score, "!");
  }

  /** What a post carries: JSON whose `message` congratulates this user on this score. */
  lemma PostedMessage(user: User, send: Outcome<Thrown>)
    requires NotifyUserIfHighScore(user, send).post.Some?
    ensures var text := Congratulation(user.username, user.score);
            ReadMessage(NotifyUserIfHighScore(user, send).post.value.data) == Some(text)
            && text[16..16 + |user.username|] == user.username
            && ParseInt(text[16 + |user.username| + 31..]) == Some(user.score)
  {
    ReadMessageData(Congratulation(user.username, user.score));
    CongratulationFields(user.username, user.score);
  }
}
