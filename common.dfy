/**
 * Values shared by the whole store: abstract document ids, the optional and
 * failure-carrying wrappers, the acting user attached to a request, and the
 * two JavaScript string primitives the schema validators rely on
 * (String.prototype.trim and String.prototype.length).
 */
module Common {

  /** A document id (a Mongo ObjectId, kept abstract). */
  type Id = nat

  datatype Option<+T> = None | Some(value: T) {
    function GetOr(default: T): T {
      match this
      case Some(v) => v
      case None => default
    }
  }

  datatype Result<+T, +E> = Ok(value: T) | Err(error: E)

  /** The user the authentication middleware attaches to a request (`req.user`). */
  datatype Actor = Actor(id: Id, role: string)

  /** ECMAScript WhiteSpace and LineTerminator code points: what `trim` removes. */
  predicate IsJsWhiteSpace(c: char) {
    var n := c as int;
    n == 0x09 || n == 0x0A || n == 0x0B || n == 0x0C || n == 0x0D || n == 0x20
    || n == 0xA0 || n == 0x1680 || (0x2000 <= n <= 0x200A)
    || n == 0x2028 || n == 0x2029 || n == 0x202F || n == 0x205F
    || n == 0x3000 || n == 0xFEFF
  }

  /** `s` without its leading white space. */
  function TrimStart(s: string): string {
    if s != [] && IsJsWhiteSpace(s[0]) then TrimStart(s[1..]) else s
  }

  /** `s` without its trailing white space. */
  function TrimEnd(s: string): string {
    if s != [] && IsJsWhiteSpace(s[|s| - 1]) then TrimEnd(s[..|s| - 1]) else s
  }

  /** TrimStart drops a prefix of white space and stops at the first other character. */
  lemma {:induction false} TrimStartSpec(s: string)
    ensures var r := TrimStart(s);
      && |r| <= |s| && r == s[|s| - |r|..]
      && (r == [] || !IsJsWhiteSpace(r[0]))
      && (forall i :: 0 <= i < |s| - |r| ==> IsJsWhiteSpace(s[i]))
  {
    if s != [] && IsJsWhiteSpace(s[0]) {
      var t := s[1..];
      TrimStartSpec(t);
      var r := TrimStart(t);
      assert TrimStart(s) == r;
      assert s[|s| - |r|..] == t[|t| - |r|..];
      forall i | 0 <= i < |s| - |r|
        ensures IsJsWhiteSpace(s[i])
      {
        if i > 0 {
          assert s[i] == t[i - 1];
        }
      }
    }
  }

  /** TrimEnd drops a suffix of white space and stops at the last other character. */
  lemma {:induction false} TrimEndSpec(s: string)
    ensures var r := TrimEnd(s);
      && |r| <= |s| && r == s[..|r|]
      && (r == [] || !IsJsWhiteSpace(r[|r| - 1]))
      && (forall i :: |r| <= i < |s| ==> IsJsWhiteSpace(s[i]))
  {
    if s != [] && IsJsWhiteSpace(s[|s| - 1]) {
      var t := s[..|s| - 1];
      TrimEndSpec(t);
      var r := TrimEnd(t);
      assert TrimEnd(s) == r;
      assert s[..|r|] == t[..|r|];
      forall i | |r| <= i < |s|
        ensures IsJsWhiteSpace(s[i])
      {
        if i < |s| - 1 {
          assert s[i] == t[i];
        }
      }
    }
  }

  /**
   * `r` sits at offset `i` of `s` and everything of `s` around it is white
   * space.
   */
  ghost predicate TrimmedAt(r: string, s: string, i: int) {
    && 0 <= i <= |s| - |r|
    && r == s[i..i + |r|]
    && (forall j :: 0 <= j < i ==> IsJsWhiteSpace(s[j]))
    && (forall j :: i + |r| <= j < |s| ==> IsJsWhiteSpace(s[j]))
  }

  /**
   * String.prototype.trim: an infix of `s` obtained by dropping only white
   * space, with no white space left at either end.
   */
  function Trim(s: string): string {
    TrimEnd(TrimStart(s))
  }

  lemma TrimSpec(s: string)
    ensures exists i :: TrimmedAt(Trim(s), s, i)
    ensures Trim(s) == [] || (!IsJsWhiteSpace(Trim(s)[0]) && !IsJsWhiteSpace(Trim(s)[|Trim(s)| - 1]))
  {
    var t := TrimStart(s);
    TrimStartSpec(s);
    TrimEndSpec(t);
    assert TrimmedAt(Trim(s), s, |s| - |t|);
  }

  /** Trimming an already trimmed value changes nothing. */
  lemma TrimIdempotent(s: string)
    ensures Trim(Trim(s)) == Trim(s)
  {
    TrimSpec(s);
    TrimOfTrimmed(Trim(s));
  }

  /** A value with no white space at either end is its own trim. */
  lemma TrimOfTrimmed(s: string)
    requires s == [] || (!IsJsWhiteSpace(s[0]) && !IsJsWhiteSpace(s[|s| - 1]))
    ensures Trim(s) == s
  {
    assert TrimStart(s) == s;
    assert TrimEnd(s) == s;
  }

  /**
   * String.prototype.length: the number of UTF-16 code units, so a code point
   * outside the Basic Multilingual Plane counts twice.
   */
  function JsLength(s: string): (n: nat)
    ensures |s| <= n <= 2 * |s|
  {
    if s == [] then 0
    else (if s[0] as int > 0xFFFF then 2 else 1) + JsLength(s[1..])
  }

  /** Text within the Basic Multilingual Plane has one unit per character. */
  lemma {:induction false} JsLengthOfBmp(s: string)
    requires forall i :: 0 <= i < |s| ==> s[i] as int <= 0xFFFF
    ensures JsLength(s) == |s|
  {
    if s != [] {
      JsLengthOfBmp(s[1..]);
    }
  }

  /** A `required: [true, message]` rule: fails exactly when the field is absent. */
  function PresenceCheck<T>(v: Option<T>, message: string): Option<string> {
    if v.None? then Some(message) else None
  }

  /**
   * The messages of the checks that failed, in the order the checks ran: the
   * `errors` of a schema ValidationError.
   */
  function Failures(checks: seq<Option<string>>): (messages: seq<string>)
    ensures messages == [] <==> forall i :: 0 <= i < |checks| ==> checks[i].None?
    ensures |messages| <= |checks|
  {
    if checks == [] then []
    else (if checks[0].Some? then [checks[0].value] else []) + Failures(checks[1..])
  }

  /** The message of a failed check appears among the failures. */
  lemma {:induction false} FailureListed(checks: seq<Option<string>>, j: nat)
    requires j < |checks| && checks[j].Some?
    ensures checks[j].value in Failures(checks)
  {
    if j > 0 {
      FailureListed(checks[1..], j - 1);
    }
  }
}
