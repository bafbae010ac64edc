/** String helpers: Truncate (strlib/truncate.go), TrimLineBreaks
    (strlib/strings.go) and the random alphanumeric string generator
    (strlib/randomstr.go), whose random bytes are an input here. */
module StrLib {

  /** Go strings are byte sequences when their length is taken or they are sliced. */
  newtype byte = x: int | 0 <= x < 256

  /** Truncate appends suffix to str, cutting str short so the result fits in n
      bytes. The slice in the source panics when the suffix alone is longer than n
      and the whole does not fit; callers must not ask for that. */
  function Truncate(str: seq<byte>, suffix: seq<byte>, n: int): (r: seq<byte>)
    requires |str| + |suffix| <= n || |suffix| <= n
    ensures |str| + |suffix| <= n ==> r == str + suffix
    ensures |str| + |suffix| > n ==> |r| == n && r == str[..n - |suffix|] + suffix
  {
    var s := str + suffix;
    if |s| <= n then s else s[..|str| - (|s| - n)] + suffix
  }

  /** Whatever n is, the result ends with the whole suffix, what precedes it is a
      prefix of str, and it is no longer than the larger of n and the untruncated text. */
  lemma TruncateShape(str: seq<byte>, suffix: seq<byte>, n: int)
    requires |str| + |suffix| <= n || |suffix| <= n
    ensures var r := Truncate(str, suffix, n);
      |suffix| <= |r| && r[|r| - |suffix|..] == suffix
      && r[..|r| - |suffix|] == str[..|r| - |suffix|]
      && (|r| == |str| + |suffix| || |r| == n)
  {
    var r := Truncate(str, suffix, n);
    if |str| + |suffix| <= n {
      assert r[..|r| - |suffix|] == str;
    } else {
      assert r[..|r| - |suffix|] == str[..n - |suffix|];
    }
  }

  /** strings.ReplaceAll(s, [c], ""): every c removed. */
  function RemoveChar(s: string, c: char): (r: string)
    ensures c !in r
    ensures |r| <= |s|
    ensures forall x :: x in r ==> x in s
    ensures c !in s ==> r == s
  {
    if s == [] then [] else (if s[0] == c then [] else [s[0]]) + RemoveChar(s[1..], c)
  }

  predicate IsLineBreak(c: char) { c == '\n' || c == '\r' }

  /** TrimLineBreaks: remove every '\n', then every '\r'. */
  function TrimLineBreaks(s: string): (r: string)
    ensures '\n' !in r && '\r' !in r
    ensures |r| <= |s|
  {
    RemoveChar(RemoveChar(s, '\n'), '\r')
  }

  /** The reference: one pass keeping exactly the characters that are not line breaks. */
  function KeepNonBreaks(s: string): (r: string)
  {
    if s == [] then [] else (if IsLineBreak(s[0]) then [] else [s[0]]) + KeepNonBreaks(s[1..])
  }

  /** The two ReplaceAll passes delete the line breaks and keep every other
      character, in order. */
  lemma {:induction false} TrimLineBreaksKeepsTheRest(s: string)
    ensures TrimLineBreaks(s) == KeepNonBreaks(s)
  {
    if s != [] {
      TrimLineBreaksKeepsTheRest(s[1..]);
      var head := if s[0] == '\n' then [] else [s[0]];
      assert RemoveChar(s, '\n') == head + RemoveChar(s[1..], '\n');
      RemoveCharAppend(head, RemoveChar(s[1..], '\n'), '\r');
    }
  }

  lemma {:induction false} RemoveCharAppend(a: string, b: string, c: char)
    ensures RemoveChar(a + b, c) == RemoveChar(a, c) + RemoveChar(b, c)
  {
    if a == [] {
      assert a + b == b;
    } else {
      assert (a + b)[0] == a[0];
      assert (a + b)[1..] == a[1..] + b;
      RemoveCharAppend(a[1..], b, c);
    }
  }

  /** Trimming twice is trimming once, and a string without line breaks is
      returned as it is. */
  lemma TrimLineBreaksIdempotent(s: string)
    ensures TrimLineBreaks(TrimLineBreaks(s)) == TrimLineBreaks(s)
    ensures '\n' !in s && '\r' !in s ==> TrimLineBreaks(s) == s
  {
  }

  /** The constant "abcdefghijklmnopqrstuvwxyzABCDEFGHIJKLMNOPQRSTUVWXYZ0123456789"
      as bytes: position i holds the i-th lower-case letter, then the upper-case
      letters, then the digits. */
  const Chars: seq<byte> := seq(62, i requires 0 <= i < 62 => CharAt(i))

  function CharAt(i: int): byte
    requires 0 <= i < 62
  {
    if i < 26 then ('a' as int + i) as byte
    else if i < 52 then ('A' as int + (i - 26)) as byte
    else ('0' as int + (i - 52)) as byte
  }

  /** The alphabet starts and ends where the source's constant does. */
  lemma CharsSpelling()
    ensures Chars[0] == 'a' as byte && Chars[25] == 'z' as byte
    ensures Chars[26] == 'A' as byte && Chars[51] == 'Z' as byte
    ensures Chars[52] == '0' as byte && Chars[61] == '9' as byte
  {
  }

  /** An independent description of the alphabet: ASCII letters and digits. */
  predicate IsAlphanumeric(b: byte) {
    ('a' as byte <= b <= 'z' as byte) || ('A' as byte <= b <= 'Z' as byte) || ('0' as byte <= b <= '9' as byte)
  }

  /** The alphabet is exactly the ASCII letters and digits, 62 of them. */
  lemma CharsAreAlphanumeric()
    ensures |Chars| == 62
    ensures forall i :: 0 <= i < |Chars| ==> IsAlphanumeric(Chars[i])
    ensures forall b: byte :: IsAlphanumeric(b) ==> b in Chars
  {
    forall b: byte | IsAlphanumeric(b)
      ensures b in Chars
    {
      var i := if 'a' as byte <= b <= 'z' as byte then b as int - 'a' as int
               else if 'A' as byte <= b <= 'Z' as byte then 26 + b as int - 'A' as int
               else 52 + b as int - '0' as int;
      assert Chars[i] == b;
    }
  }

  /** GenerateRandomStringWithLen: `random` is what crypto/rand wrote into the
      buffer (whatever it holds if the read failed); each byte is then replaced by
      the alphabet character at its value modulo 62. */
  method GenerateRandomStringWithLen(length: nat, random: seq<byte>) returns (s: seq<byte>)
    requires |random| == length
    ensures |s| == length
    ensures forall i :: 0 <= i < length ==> s[i] == Chars[random[i] as int % |Chars|]
    ensures forall i :: 0 <= i < length ==> IsAlphanumeric(s[i])
  {
    CharsAreAlphanumeric();
    var l := |Chars|;
    var result := new byte[length](i requires 0 <= i < length => random[i]);
    for i := 0 to length
      invariant forall j :: 0 <= j < i ==> result[j] == Chars[random[j] as int % l]
      invariant forall j :: i <= j < length ==> result[j] == random[j]
    {
      result[i] := Chars[result[i] as int % l];
    }
    s := result[..];
  }

  /** GenerateRandomString: 32 random alphanumeric bytes. */
  method GenerateRandomString(random: seq<byte>) returns (s: seq<byte>)
    requires |random| == 32
    ensures |s| == 32
    ensures forall i :: 0 <= i < 32 ==> s[i] == Chars[random[i] as int % |Chars|]
  {
    s := GenerateRandomStringWithLen(32, random);
  }
}
