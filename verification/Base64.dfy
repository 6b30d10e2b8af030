/** Base64 with padding, as in section 4 of RFC 4648.

`Decode` discards pad bits, as the library decoder may; the frame reader accepts only text that `Encode` reproduces,
which is the canonical form of section 3.5.
*/
module Base64 {
  import opened Wrappers

  type Byte = b: int | 0 <= b < 256

  type Sextet = s: int | 0 <= s < 64

  function CharOf(s: Sextet): char {
    if s < 26 then 'A' + (s as char)
    else if s < 52 then 'a' + ((s - 26) as char)
    else if s < 62 then '0' + ((s - 52) as char)
    else if s == 62 then '+' else '/'
  }

  function SextetOf(c: char): Option<Sextet> {
    if 'A' <= c <= 'Z' then Some((c - 'A') as int)
    else if 'a' <= c <= 'z' then Some((c - 'a') as int + 26)
    else if '0' <= c <= '9' then Some((c - '0') as int + 52)
    else if c == '+' then Some(62)
    else if c == '/' then Some(63) else None
  }

  lemma CharRoundTrip(s: Sextet)
    ensures SextetOf(CharOf(s)) == Some(s) && CharOf(s) != '='
  {
  }

  // The bit regrouping of up to three bytes into four sextets, and back.

  function S0(a: Byte): Sextet { a / 4 }

  function S1(a: Byte, b: Byte): Sextet { a % 4 * 16 + b / 16 }

  function S2(b: Byte, c: Byte): Sextet { b % 16 * 4 + c / 64 }

  function S3(c: Byte): Sextet { c % 64 }

  function B0(s: Sextet, t: Sextet): Byte { s * 4 + t / 16 }

  function B1(t: Sextet, u: Sextet): Byte { t % 16 * 16 + u / 4 }

  function B2(u: Sextet, v: Sextet): Byte { u % 4 * 64 + v }

  lemma Regroup(a: Byte, b: Byte, c: Byte)
    ensures B0(S0(a), S1(a, b)) == a
    ensures B1(S1(a, b), S2(b, c)) == b
    ensures B2(S2(b, c), S3(c)) == c
  {
  }

  /* The four characters of a group of up to three bytes; missing bytes count as zero and show as padding. */
  function Group(a: Byte, b: Option<Byte>, c: Option<Byte>): (r: string)
    ensures |r| == 4
  {
    var b' := if b.Some? then b.value else 0;
    var c' := if c.Some? then c.value else 0;
    [CharOf(S0(a)), CharOf(S1(a, b')),
     if b.Some? then CharOf(S2(b', c')) else '=', if c.Some? then CharOf(S3(c')) else '=']
  }

  /* The bytes of a group of four characters; padding is allowed in the last group only. */
  function Ungroup(text: string, last: bool): Option<seq<Byte>>
    requires |text| == 4
  {
    var s, t, u, v := SextetOf(text[0]), SextetOf(text[1]), SextetOf(text[2]), SextetOf(text[3]);
    if s.None? || t.None? then None
    else if last && text[2] == '=' && text[3] == '=' then Some([B0(s.value, t.value)])
    else if u.None? then None
    else if last && text[3] == '=' then Some([B0(s.value, t.value), B1(t.value, u.value)])
    else if v.None? then None
    else Some([B0(s.value, t.value), B1(t.value, u.value), B2(u.value, v.value)])
  }

  lemma OneByte(a: Byte)
    ensures Ungroup(Group(a, None, None), true) == Some([a])
  {
    var s, t := S0(a), S1(a, 0);
    CharRoundTrip(s);
    CharRoundTrip(t);
    assert B0(s, t) == a by { Regroup(a, 0, 0); }
    var text := Group(a, None, None);
    assert text[2] == '=' && text[3] == '=';
    assert SextetOf(text[0]) == Some(s) && SextetOf(text[1]) == Some(t);
  }

  lemma TwoBytes(a: Byte, b: Byte)
    ensures Ungroup(Group(a, Some(b), None), true) == Some([a, b])
  {
    CharRoundTrip(S0(a));
    CharRoundTrip(S1(a, b));
    CharRoundTrip(S2(b, 0));
    Regroup(a, b, 0);
  }

  lemma ThreeBytes(a: Byte, b: Byte, c: Byte, last: bool)
    ensures Ungroup(Group(a, Some(b), Some(c)), last) == Some([a, b, c])
  {
    CharRoundTrip(S0(a));
    CharRoundTrip(S1(a, b));
    CharRoundTrip(S2(b, c));
    CharRoundTrip(S3(c));
    Regroup(a, b, c);
  }

  lemma GroupRoundTrip(data: seq<Byte>, group: string)
    requires data != []
    requires group == if |data| == 1 then Group(data[0], None, None)
                      else if |data| == 2 then Group(data[0], Some(data[1]), None)
                      else Group(data[0], Some(data[1]), Some(data[2]))
    ensures |data| <= 3 ==> Ungroup(group, true) == Some(data)
    ensures |data| > 3 ==> Ungroup(group, false) == Some(data[..3])
  {
    if |data| == 1 {
      OneByte(data[0]);
      assert data == [data[0]];
    } else if |data| == 2 {
      TwoBytes(data[0], data[1]);
      assert data == [data[0], data[1]];
    } else {
      ThreeBytes(data[0], data[1], data[2], |data| == 3);
      assert data[..3] == [data[0], data[1], data[2]];
      assert |data| == 3 ==> data[..3] == data;
    }
  }

  function Encode(data: seq<Byte>): (text: string)
    ensures |text| == 4 * ((|data| + 2) / 3)
  {
    if |data| == 0 then []
    else if |data| == 1 then Group(data[0], None, None)
    else if |data| == 2 then Group(data[0], Some(data[1]), None)
    else Group(data[0], Some(data[1]), Some(data[2])) + Encode(data[3..])
  }

  function Decode(text: string): Option<seq<Byte>> {
    if |text| == 0 then Some([])
    else if |text| < 4 then None
    else
      var head := Ungroup(text[..4], |text| == 4);
      var rest := Decode(text[4..]);
      if head.None? || rest.None? then None else Some(head.value + rest.value)
  }

  lemma {:induction false} RoundTrip(data: seq<Byte>)
    ensures Decode(Encode(data)) == Some(data)
  {
    if |data| != 0 {
      var group := if |data| == 1 then Group(data[0], None, None)
                   else if |data| == 2 then Group(data[0], Some(data[1]), None)
                   else Group(data[0], Some(data[1]), Some(data[2]));
      var n := if |data| < 3 then |data| else 3;
      assert Encode(data) == group + Encode(data[n..]);
      GroupRoundTrip(data, group);
      assert data[..n] == if |data| <= 3 then data else data[..3];
      RoundTrip(data[n..]);
      DecodeStep(group, Encode(data[n..]), data[..n], data[n..]);
      assert data[..n] + data[n..] == data;
    }
  }

  lemma DecodeStep(group: string, rest: string, head: seq<Byte>, tail: seq<Byte>)
    requires |group| == 4 && Ungroup(group, rest == []) == Some(head) && Decode(rest) == Some(tail)
    ensures Decode(group + rest) == Some(head + tail)
  {
    assert (group + rest)[..4] == group && (group + rest)[4..] == rest;
  }

  /* The reader's canonicality check: text is accepted exactly when it encodes something, and then yields it. */
  lemma CanonicalText(text: string, data: seq<Byte>)
    ensures (Decode(text) == Some(data) && Encode(data) == text) <==> text == Encode(data)
  {
    RoundTrip(data);
  }
}
