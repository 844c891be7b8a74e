/** PDF string literals (src/agents/pdf_writer.py, _literal), and reading them back by
    section 7.3.4.2 of ISO 32000-1. */
module PdfLiteral {
  import opened Wrappers
  import opened PdfText

  const BACKSLASH: byte := 0x5C
  const OPEN: byte := 0x28
  const CLOSE: byte := 0x29
  const ZERO: byte := 0x30
  const LF: byte := 0x0A
  const CR: byte := 0x0D

  // ----- writing ------------------------------------------------------------------------

  function Escaped(b: byte): seq<byte> {
    if b == BACKSLASH || b == OPEN || b == CLOSE then [BACKSLASH, b]
    else if 32 <= b <= 126 then [b]
    else [BACKSLASH, ZERO + b / 64, ZERO + b / 8 % 8, ZERO + b % 8]
  }

  function Body(bytes: seq<byte>): seq<byte> {
    if bytes == [] then [] else Escaped(bytes[0]) + Body(bytes[1..])
  }

  function Literal(bytes: seq<byte>): seq<byte> {
    [OPEN] + Body(bytes) + [CLOSE]
  }

  lemma {:induction false} BodyNext(bytes: seq<byte>, b: byte)
    ensures Body(bytes + [b]) == Body(bytes) + Escaped(b)
  {
    hide Escaped;
    if bytes == [] {
      assert [b][1..] == [] && bytes + [b] == [b];
    } else {
      assert (bytes + [b])[1..] == bytes[1..] + [b];
      BodyNext(bytes[1..], b);
    }
  }

  method WriteLiteral(text: string) returns (out: seq<byte>)
    ensures out == Literal(Encode(text))
  {
    hide Body, Encode;
    var bytes := Encode(text);
    out := [OPEN];
    assert Body([]) == [] by {
      EmptyBody();
    }
    for i := 0 to |bytes|
      invariant out == [OPEN] + Body(bytes[..i])
    {
      assert bytes[..i + 1] == bytes[..i] + [bytes[i]];
      BodyNext(bytes[..i], bytes[i]);
      var b := bytes[i];
      if b == BACKSLASH || b == OPEN || b == CLOSE {
        out := out + [BACKSLASH, b];
      } else if 32 <= b <= 126 {
        out := out + [b];
      } else {
        out := out + [BACKSLASH, ZERO + b / 64, ZERO + b / 8 % 8, ZERO + b % 8];
      }
    }
    assert bytes[..|bytes|] == bytes;
    out := out + [CLOSE];
  }

  lemma EmptyBody()
    ensures Body([]) == []
  {
  }

  // ----- reading --------------------------------------------------------------------------

  predicate IsOctal(b: byte) {
    ZERO <= b <= ZERO + 7
  }

  /** How many octal digits, at most three, stand at the front. */
  function OctalLength(s: seq<byte>): (n: nat)
    ensures n <= 3 && n <= |s|
  {
    if |s| == 0 || !IsOctal(s[0]) then 0
    else if |s| == 1 || !IsOctal(s[1]) then 1
    else if |s| == 2 || !IsOctal(s[2]) then 2
    else 3
  }

  function OctalValue(s: seq<byte>): nat {
    if s == [] || !IsOctal(s[|s| - 1]) then 0 else 8 * OctalValue(s[..|s| - 1]) + (s[|s| - 1] - ZERO)
  }

  /** The single-character escapes of table 3. */
  function Named(b: byte): Option<byte> {
    if b == 0x6E then Some(LF)
    else if b == 0x72 then Some(CR)
    else if b == 0x74 then Some(0x09)
    else if b == 0x62 then Some(0x08)
    else if b == 0x66 then Some(0x0C)
    else if b == OPEN || b == CLOSE || b == BACKSLASH then Some(b)
    else None
  }

  /** What a backslash followed by `s` stands for, and how much of `s` it uses: a named
      character, up to three octal digits (high-order overflow ignored), a line
      continuation, or nothing when what follows is none of these. */
  function Escape(s: seq<byte>): (r: (seq<byte>, nat))
    ensures r.1 <= |s|
  {
    if s == [] then ([], 0)
    else if Named(s[0]).Some? then ([Named(s[0]).value], 1)
    else if IsOctal(s[0]) then ([OctalValue(s[..OctalLength(s)]) % 256], OctalLength(s))
    else if s[0] == CR && |s| > 1 && s[1] == LF then ([], 2)
    else if s[0] == CR || s[0] == LF then ([], 1)
    else ([], 0)
  }

  function Prepend(content: seq<byte>, r: Option<(seq<byte>, seq<byte>)>): Option<(seq<byte>, seq<byte>)> {
    if r.Some? then Some((content + r.value.0, r.value.1)) else None
  }

  /** A string's content and what follows its closing parenthesis. Balanced parentheses
      are content, and an end of line, however written, is a line feed. */
  function ReadBody(s: seq<byte>, depth: nat): Option<(seq<byte>, seq<byte>)>
    decreases |s|
  {
    if s == [] then None
    else if s[0] == BACKSLASH then
      var (content, used) := Escape(s[1..]);
      Prepend(content, ReadBody(s[1 + used..], depth))
    else if s[0] == OPEN then Prepend([OPEN], ReadBody(s[1..], depth + 1))
    else if s[0] == CLOSE then
      if depth == 0 then Some(([], s[1..])) else Prepend([CLOSE], ReadBody(s[1..], depth - 1))
    else if s[0] == CR && |s| > 1 && s[1] == LF then Prepend([LF], ReadBody(s[2..], depth))
    else Prepend([if s[0] == CR then LF else s[0]], ReadBody(s[1..], depth))
  }

  function Read(s: seq<byte>): Option<(seq<byte>, seq<byte>)> {
    if s == [] || s[0] != OPEN then None else ReadBody(s[1..], 0)
  }

  // ----- there and back ---------------------------------------------------------------------

  lemma OctalOf(b: byte)
    ensures var s := [ZERO + b / 64, ZERO + b / 8 % 8, ZERO + b % 8]; OctalValue(s) == b && OctalLength(s) == 3
  {
    var s: seq<byte> := [ZERO + b / 64, ZERO + b / 8 % 8, ZERO + b % 8];
    assert s[..2] == [s[0], s[1]] && s[..2][..1] == [s[0]] && [s[0]][..0] == [];
    assert OctalValue([s[0]]) == b / 64;
    assert OctalValue(s[..2]) == 8 * (b / 64) + b / 8 % 8;
  }

  lemma OctalReads(d: seq<byte>, more: seq<byte>)
    requires |d| == 3 && IsOctal(d[0]) && IsOctal(d[1]) && IsOctal(d[2]) && OctalValue(d) < 256
    ensures Escape(d + more) == ([OctalValue(d)], 3)
  {
    assert (d + more)[..3] == d;
    hide OctalValue;
  }

  lemma NamedReads(b: byte, more: seq<byte>)
    requires b == BACKSLASH || b == OPEN || b == CLOSE
    ensures Escape([b] + more) == ([b], 1)
  {
  }

  lemma EscapeReads(escape: seq<byte>, b: byte, more: seq<byte>)
    requires escape != [] && escape[0] == BACKSLASH && Escape(escape[1..] + more) == ([b], |escape| - 1)
    ensures ReadBody(escape + more, 0) == Prepend([b], ReadBody(more, 0))
  {
    hide Escape, Prepend;
    var s := escape + more;
    assert s[1..] == escape[1..] + more && s[|escape|..] == more;
  }

  lemma PlainReads(b: byte, more: seq<byte>)
    requires 32 <= b <= 126 && b != BACKSLASH && b != OPEN && b != CLOSE
    ensures ReadBody([b] + more, 0) == Prepend([b], ReadBody(more, 0))
  {
    hide Escape, Prepend;
    assert ([b] + more)[1..] == more;
  }

  /** One byte's escape reads as that byte, whatever follows - a digit included. */
  lemma EscapedReads(b: byte, more: seq<byte>)
    ensures ReadBody(Escaped(b) + more, 0) == Prepend([b], ReadBody(more, 0))
  {
    hide Escape, Prepend, ReadBody, OctalValue;
    if b == BACKSLASH || b == OPEN || b == CLOSE {
      NamedReads(b, more);
      assert [BACKSLASH, b][1..] == [b];
      EscapeReads([BACKSLASH, b], b, more);
    } else if 32 <= b <= 126 {
      PlainReads(b, more);
    } else {
      var digits: seq<byte> := [ZERO + b / 64, ZERO + b / 8 % 8, ZERO + b % 8];
      OctalOf(b);
      OctalReads(digits, more);
      assert Escaped(b) == [BACKSLASH] + digits && Escaped(b)[1..] == digits;
      EscapeReads(Escaped(b), b, more);
    }
  }

  lemma {:induction false} BodyReads(bytes: seq<byte>, rest: seq<byte>)
    ensures ReadBody(Body(bytes) + [CLOSE] + rest, 0) == Some((bytes, rest))
  {
    if bytes == [] {
      assert Body(bytes) + [CLOSE] + rest == [CLOSE] + rest;
      assert ([CLOSE] + rest)[1..] == rest;
    } else {
      var more := Body(bytes[1..]) + [CLOSE] + rest;
      BodyReads(bytes[1..], rest);
      EscapedReads(bytes[0], more);
      assert Body(bytes) + [CLOSE] + rest == Escaped(bytes[0]) + more;
      assert [bytes[0]] + bytes[1..] == bytes;
    }
  }

  /** For every text and whatever follows: reading the literal gives back exactly the
      encoded bytes and stops right behind it. */
  lemma LiteralReadsBack(text: string, rest: seq<byte>)
    ensures Read(Literal(Encode(text)) + rest) == Some((Encode(text), rest))
  {
    var bytes := Encode(text);
    BodyReads(bytes, rest);
    assert (Literal(bytes) + rest)[1..] == Body(bytes) + [CLOSE] + rest;
  }

  /** A literal is printable ASCII: no line end or control character can reach the file. */
  lemma {:induction false} BodyIsPrintable(bytes: seq<byte>)
    ensures forall i :: 0 <= i < |Body(bytes)| ==> 32 <= Body(bytes)[i] <= 126
  {
    if bytes != [] {
      BodyIsPrintable(bytes[1..]);
      var b := bytes[0];
      assert forall i :: 0 <= i < |Escaped(b)| ==> 32 <= Escaped(b)[i] <= 126;
    }
  }
}
