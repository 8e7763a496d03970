/** Length framing of the runtime challenge and of the controller's signing frame: both can be read back in
    exactly one way. */
module Framing {
  import opened ControllerTypes
  import Decimal

  // ---------------------------------------------------------------- frameRuntimeChallenge

  // A field is its UTF-8 encoding, one char for each byte.

  function FrameOne(field: string): string {
    Decimal.Print(|field|) + ":" + field
  }

  function FrameRuntimeChallenge(fields: seq<string>): string {
    if fields == [] then "" else FrameOne(fields[0]) + FrameRuntimeChallenge(fields[1..])
  }

  /** A field behind its length in decimal and a colon. */
  function Framed(field: string): string {
    Decimal.Print(|field|) + ":" + field
  }

  /** The frame's text: field after field, nothing between them. */
  lemma RuntimeFrameText(field: string, rest: seq<string>)
    ensures FrameRuntimeChallenge([]) == ""
    ensures FrameRuntimeChallenge([field] + rest) == Framed(field) + FrameRuntimeChallenge(rest)
  {
    assert ([field] + rest)[1..] == rest;
  }

  datatype Read = Read(field: string, rest: string)

  /** Reads one length, one colon and that many bytes. */
  function ReadOne(s: string): (r: Option<Read>)
    ensures r.Some? ==> |r.value.rest| < |s|
  {
    var k := Decimal.DigitRun(s);
    if k == 0 || k == |s| || s[k] != ':' then None
    else
      var n := Decimal.Value(s[..k]);
      if k + 1 + n > |s| then None
      else Some(Read(s[k + 1..k + 1 + n], s[k + 1 + n..]))
  }

  function Decode(s: string): Option<seq<string>>
    decreases |s|
  {
    if s == "" then Some([])
    else match ReadOne(s)
      case None => None
      case Some(read) =>
        match Decode(read.rest)
        case None => None
        case Some(fields) => Some([read.field] + fields)
  }

  lemma ReadFrame(field: string, rest: string)
    ensures ReadOne(FrameOne(field) + rest) == Some(Read(field, rest))
  {
    var digits := Decimal.Print(|field|);
    Decimal.ParsePrint(|field|);
    var tail := ":" + field + rest;
    Decimal.RunOfPrint(digits, tail);
    var s := FrameOne(field) + rest;
    assert s == digits + tail;
    assert s[|digits|] == ':';
    assert s[|digits| + 1..|digits| + 1 + |field|] == field;
    assert s[|digits| + 1 + |field|..] == rest;
  }

  lemma {:induction false} DecodeFrame(fields: seq<string>)
    ensures Decode(FrameRuntimeChallenge(fields)) == Some(fields)
  {
    if fields != [] {
      ReadFrame(fields[0], FrameRuntimeChallenge(fields[1..]));
      DecodeFrame(fields[1..]);
      assert FrameRuntimeChallenge(fields) != "";
      assert fields == [fields[0]] + fields[1..];
    }
  }

  /** Two lists of byte strings have the same frame only if they are the same list. */
  lemma RuntimeFrameInjective(a: seq<string>, b: seq<string>)
    ensures FrameRuntimeChallenge(a) == FrameRuntimeChallenge(b) <==> a == b
  {
    DecodeFrame(a);
    DecodeFrame(b);
  }

  // ---------------------------------------------------------------- the controller's signing frame

  datatype Signed = Signed(
    httpMethod: string, path: string, issuedAt: string, expiresAt: string, requestId: string, requestDigest: string)

  predicate Ascii(s: string) {
    forall i :: 0 <= i < |s| ==> ' ' <= s[i] <= '~'
  }

  function Fields(upper: string -> string, input: Signed): seq<string> {
    [upper(input.httpMethod), input.path, input.issuedAt, input.expiresAt, input.requestId, input.requestDigest]
  }

  function JoinFrames(fields: seq<string>): string {
    if fields == [] then ""
    else if |fields| == 1 then FrameOne(fields[0])
    else FrameOne(fields[0]) + "|" + JoinFrames(fields[1..])
  }

  /** None where the source throws: a part outside printable ASCII.  `upper` is the platform's upper-casing. */
  function SigningFrame(upper: string -> string, input: Signed): Option<string> {
    if forall i :: 0 <= i < 6 ==> Ascii(Fields(upper, input)[i]) then Some(JoinFrames(Fields(upper, input))) else None
  }

  /** The frame's text: the upper-cased method, the path, the times of issue and expiry, the request's id and its digest, in this
      order, each behind its length and a colon, with a bar between them; and none at all exactly if one of them has a character
      outside printable ASCII. */
  lemma SigningFrameText(upper: string -> string, input: Signed)
    ensures SigningFrame(upper, input).Some? <==>
      && Ascii(upper(input.httpMethod)) && Ascii(input.path) && Ascii(input.issuedAt)
      && Ascii(input.expiresAt) && Ascii(input.requestId) && Ascii(input.requestDigest)
    ensures SigningFrame(upper, input).Some? ==>
      SigningFrame(upper, input).value ==
        Framed(upper(input.httpMethod)) + ("|" + (Framed(input.path) + ("|" + (Framed(input.issuedAt) + ("|" + (
          Framed(input.expiresAt) + ("|" + (Framed(input.requestId) + ("|" + Framed(input.requestDigest))))))))))
  {
    var fields := Fields(upper, input);
    assert Ascii(fields[0]) == Ascii(upper(input.httpMethod)) && Ascii(fields[1]) == Ascii(input.path);
    assert Ascii(fields[2]) == Ascii(input.issuedAt) && Ascii(fields[3]) == Ascii(input.expiresAt);
    assert Ascii(fields[4]) == Ascii(input.requestId) && Ascii(fields[5]) == Ascii(input.requestDigest);
    SixJoined(upper(input.httpMethod), input.path, input.issuedAt, input.expiresAt, input.requestId, input.requestDigest);
  }

  lemma SixJoined(f0: string, f1: string, f2: string, f3: string, f4: string, f5: string)
    ensures JoinFrames([f0, f1, f2, f3, f4, f5]) ==
      Framed(f0) + ("|" + (Framed(f1) + ("|" + (Framed(f2) + ("|" + (Framed(f3) + ("|" + (Framed(f4) + ("|" + Framed(f5))))))))))
  {
    JoinedOne(f0, [f1, f2, f3, f4, f5]);
    JoinedOne(f1, [f2, f3, f4, f5]);
    JoinedOne(f2, [f3, f4, f5]);
    JoinedOne(f3, [f4, f5]);
    JoinedOne(f4, [f5]);
  }

  lemma JoinedOne(field: string, rest: seq<string>)
    requires rest != []
    ensures JoinFrames([field] + rest) == Framed(field) + ("|" + JoinFrames(rest))
  {
    assert ([field] + rest)[1..] == rest;
    BarRegroup(field, JoinFrames(rest));
  }

  /** Reads `n` frames with a bar between them and nothing after the last. */
  function DecodeJoined(s: string, n: nat): Option<seq<string>>
    decreases n
  {
    if n == 0 then if s == "" then Some([]) else None
    else match ReadOne(s)
      case None => None
      case Some(read) =>
        if n == 1 then if read.rest == "" then Some([read.field]) else None
        else if read.rest == "" || read.rest[0] != '|' then None
        else match DecodeJoined(read.rest[1..], n - 1)
          case None => None
          case Some(fields) => Some([read.field] + fields)
  }

  lemma ReadLast(field: string)
    ensures DecodeJoined(FrameOne(field), 1) == Some([field])
  {
    ReadFrame(field, "");
    assert FrameOne(field) + "" == FrameOne(field);
  }

  lemma ReadBar(field: string, rest: string, fields: seq<string>)
    requires |fields| > 0 && DecodeJoined(rest, |fields|) == Some(fields)
    ensures DecodeJoined(FrameOne(field) + "|" + rest, |fields| + 1) == Some([field] + fields)
  {
    ReadFrame(field, "|" + rest);
    BarRegroup(field, rest);
    DecodeBar(FrameOne(field) + ("|" + rest), field, rest, fields);
  }

  lemma BarRegroup(field: string, rest: string)
    ensures FrameOne(field) + "|" + rest == FrameOne(field) + ("|" + rest)
  {
  }

  lemma DecodeBar(s: string, field: string, rest: string, fields: seq<string>)
    requires |fields| > 0 && DecodeJoined(rest, |fields|) == Some(fields)
    requires ReadOne(s) == Some(Read(field, "|" + rest))
    ensures DecodeJoined(s, |fields| + 1) == Some([field] + fields)
  {
    assert ("|" + rest)[1..] == rest;
  }

  predicate Decodes(fields: seq<string>) {
    DecodeJoined(JoinFrames(fields), |fields|) == Some(fields)
  }

  lemma DecodesOne(fields: seq<string>)
    requires |fields| == 1
    ensures Decodes(fields)
  {
    ReadLast(fields[0]);
    assert fields == [fields[0]];
  }

  lemma DecodesMore(fields: seq<string>)
    requires |fields| > 1 && Decodes(fields[1..])
    ensures Decodes(fields)
  {
    ReadBar(fields[0], JoinFrames(fields[1..]), fields[1..]);
    assert fields == [fields[0]] + fields[1..];
  }

  lemma {:induction false} DecodeJoinedFrames(fields: seq<string>)
    requires fields != []
    ensures Decodes(fields)
    decreases |fields|
  {
    if |fields| == 1 {
      DecodesOne(fields);
    } else {
      DecodeJoinedFrames(fields[1..]);
      DecodesMore(fields);
    }
  }

  /** Two requests that can be framed have the same signing frame exactly when the six fields agree, the method up
      to upper-casing. */
  lemma SigningFrameInjective(upper: string -> string, a: Signed, b: Signed)
    requires SigningFrame(upper, a).Some? && SigningFrame(upper, b).Some?
    ensures SigningFrame(upper, a) == SigningFrame(upper, b) <==>
      upper(a.httpMethod) == upper(b.httpMethod) && a == b.(httpMethod := a.httpMethod)
  {
    DecodeJoinedFrames(Fields(upper, a));
    DecodeJoinedFrames(Fields(upper, b));
    assert Fields(upper, a) == Fields(upper, b) ==>
      forall i :: 0 <= i < 6 ==> Fields(upper, a)[i] == Fields(upper, b)[i];
    if Fields(upper, a) == Fields(upper, b) {
      assert Fields(upper, a)[0] == Fields(upper, b)[0] && Fields(upper, a)[1] == Fields(upper, b)[1];
      assert Fields(upper, a)[2] == Fields(upper, b)[2] && Fields(upper, a)[3] == Fields(upper, b)[3];
      assert Fields(upper, a)[4] == Fields(upper, b)[4] && Fields(upper, a)[5] == Fields(upper, b)[5];
    }
  }
}
