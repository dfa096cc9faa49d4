/** The logging decisions of middlewares/logger.ts: the daily log file name,
    the level filter and colouring of the winston logger, and `logMiddleware`,
    which replaces `response.send` by a wrapper that writes one access-log
    record per response. Files, consoles, colours and the search index are
    external; the model keeps what is decided and recorded. */
module Logger {
  import opened Wrappers
  import opened JsText

  // ---------------------------------------------------------------------------
  // Log file name

  /** `String(n).padStart(2, '0')`. */
  function PadTwo(s: string): (r: string)
    ensures |s| >= 2 ==> r == s
    ensures |s| < 2 ==> |r| == 2 && r[2 - |s|..] == s && forall i :: 0 <= i < 2 - |s| ==> r[i] == '0'
  {
    if |s| >= 2 then s else seq(2 - |s|, _ => '0') + s
  }

  /** `log-${year}-${month}-${day}.log` for a date whose `getMonth()` is
      `monthIndex` (January is 0). */
  function LogFileName(year: int, monthIndex: int, day: int): (name: string)
    ensures |name| >= 15 && name[..4] == "log-" && name[|name| - 4..] == ".log"
  {
    "log-" + IntToString(year) + "-" + PadTwo(IntToString(monthIndex + 1)) + "-" + PadTwo(IntToString(day)) + ".log"
  }

  /** Two-digit fields read back the number they pad. */
  lemma PadTwoReadsBack(n: nat)
    requires n < 100
    ensures |PadTwo(IntToString(n))| == 2 && AllDigits(PadTwo(IntToString(n)))
    ensures DigitsValue(PadTwo(IntToString(n))) == n
  {
    var p := PadTwo(IntToString(n));
    DigitsValueOfNatToDigits(n);
    if n >= 10 {
      assert NatToDigits(n) == NatToDigits(n / 10) + [DigitChar(n % 10)];
    } else {
      assert p == ['0', DigitChar(n)];
      assert p[..1] == ['0'];
    }
  }

  /** For the years 1000 to 9999 the name is 18 characters long and its year,
      month and day fields read back the date. */
  lemma LogFileNameFields(year: int, monthIndex: int, day: int)
    requires 1000 <= year <= 9999 && 0 <= monthIndex <= 11 && 1 <= day <= 31
    ensures var name := LogFileName(year, monthIndex, day);
            |name| == 18 && name[..4] == "log-" && name[14..] == ".log"
            && AllDigits(name[4..8]) && DigitsValue(name[4..8]) == year
            && AllDigits(name[9..11]) && DigitsValue(name[9..11]) == monthIndex + 1
            && AllDigits(name[12..14]) && DigitsValue(name[12..14]) == day
  {
    var y := IntToString(year);
    var m := PadTwo(IntToString(monthIndex + 1));
    var d := PadTwo(IntToString(day));
    YearDigits(year);
    DigitsValueOfNatToDigits(year);
    PadTwoReadsBack(monthIndex + 1);
    PadTwoReadsBack(day);
    var name := LogFileName(year, monthIndex, day);
    assert name == "log-" + y + "-" + m + "-" + d + ".log";
    FieldsAt(y, m, d);
  }

  /** Where the fields sit in a name built from a four-digit year and two-digit
      month and day. */
  lemma FieldsAt(y: string, m: string, d: string)
    requires |y| == 4 && |m| == 2 && |d| == 2
    ensures var name := "log-" + y + "-" + m + "-" + d + ".log";
            |name| == 18 && name[..4] == "log-" && name[14..] == ".log"
            && name[4..8] == y && name[9..11] == m && name[12..14] == d
  {
  }

  lemma YearDigits(year: int)
    requires 1000 <= year <= 9999
    ensures |IntToString(year)| == 4
  {
    assert NatToDigits(year) == NatToDigits(year / 10) + [DigitChar(year % 10)];
    assert NatToDigits(year / 10) == NatToDigits(year / 100) + [DigitChar(year / 10 % 10)];
    assert NatToDigits(year / 100) == NatToDigits(year / 1000) + [DigitChar(year / 100 % 10)];
  }

  /** Two dates share a file exactly when they are the same day. */
  lemma LogFileNameInjective(y1: int, m1: int, d1: int, y2: int, m2: int, d2: int)
    requires 1000 <= y1 <= 9999 && 0 <= m1 <= 11 && 1 <= d1 <= 31
    requires 1000 <= y2 <= 9999 && 0 <= m2 <= 11 && 1 <= d2 <= 31
    ensures LogFileName(y1, m1, d1) == LogFileName(y2, m2, d2) <==> y1 == y2 && m1 == m2 && d1 == d2
  {
    LogFileNameFields(y1, m1, d1);
    LogFileNameFields(y2, m2, d2);
  }

  // ---------------------------------------------------------------------------
  // Levels and colouring

  datatype Entry = Entry(level: string, message: string)

  /** The format `onlyLevels(levels)` builds, applied to one entry: the entry
      itself when its level is listed, and `false` (dropped) otherwise. */
  function OnlyLevels(levels: seq<string>, e: Entry): (r: Option<Entry>)
    ensures r.Some? <==> e.level in levels
    ensures r.Some? ==> r.value == e
  {
    if e.level in levels then Some(e) else None
  }

  /** The levels the application's logger lets through. */
  const LoggerLevels: seq<string> := ["info", "error"]

  datatype Colour = Red | Green

  /** `colorise(level)`: the upper-cased level, red for 'error' and green otherwise. */
  function Colorise(level: string): (r: (Colour, string))
    ensures r.0 == Red <==> level == "error"
    ensures r.1 == ToUpper(level)
  {
    (if level == "error" then Red else Green, ToUpper(level))
  }

  // ---------------------------------------------------------------------------
  // The access-log record

  datatype Tag = Info | Error

  /** What a handler passes to `send`: a string, or any other value, which is
      logged as its `JSON.stringify` text (`None` when that is undefined). */
  datatype Payload = Text(text: string) | Value(json: Option<string>)

  function ParsedBody(p: Payload): Option<string> {
    match p
    case Text(s) => Some(s)
    case Value(j) => j
  }

  /** `${Buffer.byteLength(parsedBody)} kb`, or '0 kb' for an empty or undefined body. */
  function ContentLength(parsed: Option<string>): (text: string)
    ensures |text| >= 4 && text[|text| - 3..] == " kb"
    ensures !Truthy(parsed) ==> text == "0 kb"
  {
    if Truthy(parsed) then IntToString(Utf8Length(parsed.value)) + " kb" else "0 kb"
  }

  /** The label is "0 kb" only for an empty body, and otherwise starts with the
      byte count, which is at least the number of characters. */
  lemma ContentLengthLabel(parsed: Option<string>)
    ensures ContentLength(parsed) == "0 kb" <==> !Truthy(parsed)
    ensures Truthy(parsed) ==>
      ParseInt(ContentLength(parsed)) == Some(Utf8Length(parsed.value))
      && Utf8Length(parsed.value) >= |parsed.value| > 0
  {
    if Truthy(parsed) {
      var n := Utf8Length(parsed.value);
      Utf8LengthBounds(parsed.value);
      ParseIntIgnoresSuffix(n, " kb");
      var digits := NatToDigits(n);
      DigitsValueOfNatToDigits(n);
      assert digits != "0";
      if |digits| == 1 {
        assert (digits + " kb")[0] != "0 kb"[0];
      } else {
        assert |digits + " kb"| != |"0 kb"|;
      }
    }
  }

  /** `statusCode < 400` is success: labelled INFO and logged at 'info';
      anything else is labelled ERROR and logged at 'error'. */
  function TagOf(statusCode: int): (t: Tag)
    ensures t == Info <==> statusCode < 400
  {
    if statusCode < 400 then Info else Error
  }

  function LevelOf(statusCode: int): (level: string)
    ensures level == "info" || level == "error"
    ensures level == "error" <==> statusCode >= 400
  {
    if statusCode >= 400 then "error" else "info"
  }

  /** One access-log record: what the file line and the logger call carry. */
  datatype Record = Record(tag: Tag, level: string, statusCode: int, contentLength: string, body: Option<string>)

  function RecordFor(statusCode: int, p: Payload): (r: Record)
    ensures r.statusCode == statusCode && r.body == ParsedBody(p) && r.contentLength == ContentLength(r.body)
    ensures r.tag == Info <==> statusCode < 400
    ensures r.level == "error" <==> statusCode >= 400
  {
    Record(TagOf(statusCode), LevelOf(statusCode), statusCode, ContentLength(ParsedBody(p)), ParsedBody(p))
  }

  /** The file tag and the logger level always agree, the logger's level filter
      never drops an access record, and it is coloured red exactly when it is an
      error. */
  lemma RecordLevelsAgree(statusCode: int, p: Payload)
    ensures var r := RecordFor(statusCode, p);
            (r.tag == Info <==> r.level == "info")
            && OnlyLevels(LoggerLevels, Entry(r.level, "")).Some?
            && (Colorise(r.level).0 == Red <==> r.tag == Error)
            && Colorise(r.level).1 == (if r.tag == Info then "INFO" else "ERROR")
  {
    var r := RecordFor(statusCode, p);
    assert r.level in LoggerLevels;
  }

  // ---------------------------------------------------------------------------
  // logMiddleware and the wrapped send

  /** The parts of an Express response that `logMiddleware` touches: the status,
      whether `send` has been wrapped, the closure's `logged` flag, every body
      that reached the original `send`, and the access-log records written. */
  class LoggedResponse {
    var statusCode: int
    var wrapped: bool
    var logged: bool
    var sent: seq<Payload>
    var records: seq<Record>

    /** At most one record, and one exactly when `logged` is set. */
    ghost predicate Valid()
      reads this
    {
      |records| <= 1 && (logged <==> |records| == 1) && (logged ==> wrapped)
    }

    constructor ()
      ensures Valid() && statusCode == 200 && !wrapped && !logged && sent == [] && records == []
    {
      statusCode := 200;
      wrapped := false;
      logged := false;
      sent := [];
      records := [];
    }

    /** `response.status(code)`. */
    method Status(code: int)
      requires Valid()
      modifies this`statusCode
      ensures Valid() && statusCode == code
    {
      statusCode := code;
    }

    /** `response.send(body)`: the wrapper when one is installed, the original
        `send` otherwise. The body always reaches the original `send` unchanged;
        only the first call through the wrapper writes a record. */
    method Send(body: Payload)
      requires Valid()
      modifies this`logged, this`sent, this`records
      ensures Valid()
      ensures sent == old(sent) + [body]
      ensures logged == (old(logged) || wrapped)
      ensures records == if wrapped && !old(logged) then [RecordFor(statusCode, body)] else old(records)
    {
      if wrapped {
        if logged {
          sent := sent + [body];
          return;
        }
        logged := true;
        records := records + [RecordFor(statusCode, body)];
      }
      sent := sent + [body];
    }
  }

  /** `logMiddleware(request, response, next)` for a response not yet wrapped:
      wraps `send` unless the URL starts with '/api-docs', and calls `next`
      once in every case. */
  method LogMiddleware(url: string, response: LoggedResponse) returns (nextCalls: nat)
    requires response.Valid() && !response.wrapped
    modifies response`wrapped
    ensures response.Valid()
    ensures nextCalls == 1
    ensures response.wrapped <==> !StartsWith(url, "/api-docs")
  {
    if !StartsWith(url, "/api-docs") {
      response.wrapped := true;
    }
    nextCalls := 1;
  }

  /** A request that answers twice through the wrapper: the record describes the
      first body with the status set at that time, and both bodies are sent. */
  method TwoSends(url: string, code: int, first: Payload, second: Payload) returns (r: LoggedResponse)
    requires !StartsWith(url, "/api-docs")
    ensures r.sent == [first, second] && r.records == [RecordFor(code, first)]
  {
    r := new LoggedResponse();
    var calls := LogMiddleware(url, r);
    assert calls == 1 && r.wrapped;
    r.Status(code);
    r.Send(first);
    r.Send(second);
  }
}
