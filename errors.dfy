/**
 * The error records that reach the error-handling middleware and its
 * translation of each into an HTTP status and a failure body
 * (middleware/error.js).
 */
module Errors {
  import opened Common

  /**
   * The fields of a thrown error that the middleware inspects: `name`,
   * `message`, the storage driver's `code`, the `statusCode` an ErrorResponse
   * carries, and, for a schema ValidationError, the `properties.message` of
   * each entry of `errors`, in order.
   */
  datatype Error = Error(
    name: string,
    message: string,
    code: Option<int>,
    statusCode: Option<int>,
    fieldMessages: seq<string>)

  /** `new Error("CastError")`, thrown by a handler whose lookup found nothing. */
  function CastError(): Error {
    Error("Error", "CastError", None, None, [])
  }

  /** `new ErrorResponse(message, statusCode)`. */
  function ErrorResponse(message: string, statusCode: int): Error {
    Error("Error", message, None, Some(statusCode), [])
  }

  /** The storage engine's error for an insert that breaks a unique index. */
  function DuplicateKeyError(): Error {
    Error("MongoError", "E11000 duplicate key error", Some(11000), None, [])
  }

  /** A schema ValidationError with one message per failed field. */
  function ValidationError(model: string, messages: seq<string>): Error {
    Error("ValidationError", model + " validation failed", None, None, messages)
  }

  /** The failure response: its status and the body `{success, err}`. */
  datatype Reply = Reply(status: int, success: bool, err: string)

  const NotFoundReply := Reply(404, false, "Resource not found")
  const DuplicateReply := Reply(400, false, "Duplicate field value entered")

  /**
   * A JavaScript array converted to a string, as the Error constructor does
   * with the array of messages it is given: the elements joined by commas.
   */
  function JoinWithCommas(parts: seq<string>): (s: string)
    ensures parts == [] ==> s == ""
    ensures |parts| == 1 ==> s == parts[0]
  {
    if parts == [] then ""
    else if |parts| == 1 then parts[0]
    else parts[0] + "," + JoinWithCommas(parts[1..])
  }

  /** String.prototype.split(","): the pieces of `s` between commas. */
  function SplitOnCommas(s: string): (parts: seq<string>)
    ensures |parts| >= 1
  {
    if s == [] then [""]
    else
      var rest := SplitOnCommas(s[1..]);
      if s[0] == ',' then [""] + rest
      else [[s[0]] + rest[0]] + rest[1..]
  }

  lemma {:induction false} SplitNoComma(a: string, tail: seq<string>, t: string)
    requires ',' !in a
    requires SplitOnCommas(t) == tail
    ensures SplitOnCommas(a + t) == [a + tail[0]] + tail[1..]
    decreases |a|
  {
    if a == [] {
      assert a + t == t && a + tail[0] == tail[0];
      assert [tail[0]] + tail[1..] == tail;
    } else {
      assert (a + t)[1..] == a[1..] + t;
      SplitNoComma(a[1..], tail, t);
      assert [a[0]] + (a[1..] + tail[0]) == a + tail[0];
    }
  }

  /**
   * The joined text keeps every message apart: when no message contains a
   * comma, splitting it again gives back exactly the list of messages.
   */
  lemma {:induction false} SplitJoin(parts: seq<string>)
    requires parts != []
    requires forall i :: 0 <= i < |parts| ==> ',' !in parts[i]
    ensures SplitOnCommas(JoinWithCommas(parts)) == parts
    decreases |parts|
  {
    if |parts| == 1 {
      SplitNoComma(parts[0], [""], "");
      assert parts[0] + "" == parts[0];
    } else {
      var rest := JoinWithCommas(parts[1..]);
      SplitJoin(parts[1..]);
      assert SplitOnCommas("," + rest) == [""] + parts[1..];
      SplitNoComma(parts[0], [""] + parts[1..], "," + rest);
      assert parts[0] + "," + rest == parts[0] + ("," + rest);
      assert parts[0] + "" == parts[0];
    }
  }

  /** The `statusCode || 500` of the response: a missing or zero code is 500. */
  function StatusOr500(statusCode: Option<int>): int {
    if statusCode.Some? && statusCode.value != 0 then statusCode.value else 500
  }

  /** The `message || "Server error"` of the response body. */
  function MessageOrDefault(message: string): string {
    if message == "" then "Server error" else message
  }

  predicate IsCast(err: Error) {
    err.name == "CastError" || err.message == "CastError"
  }

  /**
   * errorHandler: three checks in a row, each of which may replace the error
   * by an ErrorResponse, and then the response built from whatever error is
   * left. An ErrorResponse is named "Error" and has no driver code, so once a
   * check has replaced the error no later check fires: the translation is a
   * priority order, not-found before duplicate before validation.
   */
  function ErrorHandler(err: Error): (r: Reply)
    ensures !r.success && r.err != ""
    ensures IsCast(err) ==> r == NotFoundReply
    ensures !IsCast(err) && err.code == Some(11000) ==> r == DuplicateReply
    ensures !IsCast(err) && err.code != Some(11000) && err.name == "ValidationError" ==>
      r.status == 400 && r.err == MessageOrDefault(JoinWithCommas(err.fieldMessages))
    ensures !IsCast(err) && err.code != Some(11000) && err.name != "ValidationError" ==>
      r.status == StatusOr500(err.statusCode) && r.err == MessageOrDefault(err.message)
    ensures r.status in {400, 404} || r.status == StatusOr500(err.statusCode)
  {
    var e1 := if IsCast(err) then ErrorResponse("Resource not found", 404) else err;
    var e2 := if e1.code == Some(11000) then ErrorResponse("Duplicate field value entered", 400) else e1;
    var e3 := if e2.name == "ValidationError" then ErrorResponse(JoinWithCommas(e2.fieldMessages), 400) else e2;
    Reply(StatusOr500(e3.statusCode), false, MessageOrDefault(e3.message))
  }

  /**
   * A validation failure reaches the client as status 400 whose `err` text
   * splits back into one message per failed field.
   */
  lemma ValidationReply(model: string, messages: seq<string>)
    requires messages != [] && messages[0] != ""
    requires forall i :: 0 <= i < |messages| ==> ',' !in messages[i]
    ensures ErrorHandler(ValidationError(model, messages)).status == 400
    ensures SplitOnCommas(ErrorHandler(ValidationError(model, messages)).err) == messages
  {
    var joined := JoinWithCommas(messages);
    SplitJoin(messages);
    if |messages| > 1 {
      assert joined[0] == messages[0][0];
    }
    assert joined != "";
  }

  /** An error that names no status of its own (a raw storage failure) is a 500. */
  lemma UnclassifiedIsServerError(err: Error)
    requires !IsCast(err) && err.code != Some(11000) && err.name != "ValidationError"
    requires err.statusCode.None?
    ensures ErrorHandler(err).status == 500
    ensures err.message == "" ==> ErrorHandler(err).err == "Server error"
  {
  }

  /** An ErrorResponse passes through with its own status and message. */
  lemma ErrorResponsePassesThrough(message: string, statusCode: int)
    requires message != "CastError" && message != "" && statusCode != 0
    ensures ErrorHandler(ErrorResponse(message, statusCode)) == Reply(statusCode, false, message)
  {
  }
}
