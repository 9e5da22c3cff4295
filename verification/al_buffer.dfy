/** `ALBuffer`: the immutable descriptor of an audio buffer resident on the device,
    and its `toString`. The getters of the source are the datatype's fields; no
    operation changes a descriptor once it is built. */
module ALBuffer {
  import opened Base

  datatype Buffer = Buffer(bufferId: int, size: int, channels: int)

  predicate IsDigit(c: char) {
    '0' <= c <= '9'
  }

  /** Decimal digits of `n` without leading zeros, as `Integer.toString` writes them. */
  function NatToString(n: nat): (r: string)
    ensures |r| >= 1
    ensures forall i :: 0 <= i < |r| ==> IsDigit(r[i])
    decreases n
  {
    if n < 10 then [('0' as int + n) as char]
    else NatToString(n / 10) + [('0' as int + n % 10) as char]
  }

  /** `Integer.toString`: a minus sign in front of the magnitude of a negative number. */
  function IntToString(i: int): string {
    if i < 0 then "-" + NatToString(-i) else NatToString(i)
  }

  /** The number a non-empty string of decimal digits denotes. */
  function DigitsValue(s: string): nat
    requires forall i :: 0 <= i < |s| ==> IsDigit(s[i])
    decreases |s|
  {
    if |s| == 0 then 0
    else
      assert IsDigit(s[|s| - 1]);
      DigitsValue(s[..|s| - 1]) * 10 + (s[|s| - 1] as int - '0' as int)
  }

  /** Reads back what `IntToString` writes: an optional minus sign and at least one digit. */
  function ParseInt(s: string): Option<int> {
    if |s| >= 2 && s[0] == '-' && forall i :: 1 <= i < |s| ==> IsDigit(s[i]) then
      Some(-(DigitsValue(s[1..]) as int))
    else if |s| >= 1 && forall i :: 0 <= i < |s| ==> IsDigit(s[i]) then
      Some(DigitsValue(s) as int)
    else None
  }

  lemma {:induction false} DigitsOfNat(n: nat)
    ensures DigitsValue(NatToString(n)) == n
    decreases n
  {
    var r := NatToString(n);
    if n >= 10 {
      DigitsOfNat(n / 10);
      assert r[..|r| - 1] == NatToString(n / 10);
    }
  }

  lemma IntToStringRoundTrip(i: int)
    ensures ParseInt(IntToString(i)) == Some(i)
  {
    if i < 0 {
      DigitsOfNat(-i);
      assert IntToString(i)[1..] == NatToString(-i);
    } else {
      DigitsOfNat(i);
    }
  }

  /** Index of the first `c` in `s`, or `|s|` when there is none. */
  function IndexOf(s: string, c: char): (k: nat)
    ensures k <= |s|
    ensures k < |s| ==> s[k] == c
    ensures forall j :: 0 <= j < k ==> s[j] != c
    decreases |s|
  {
    if |s| == 0 then 0
    else if s[0] == c then 0
    else 1 + IndexOf(s[1..], c)
  }

  /** Reads `tag`, then an integer up to (not including) the next `stop`, and returns
      the integer with the rest of the text. */
  function Field(s: string, tag: string, stop: char): Option<(int, string)> {
    if |tag| <= |s| && s[..|tag|] == tag then
      var rest := s[|tag|..];
      var k := IndexOf(rest, stop);
      match ParseInt(rest[..k])
      case Some(n) => Some((n, rest[k..]))
      case None => None
    else None
  }

  /** Reads back the text `toString` produces. */
  function Parse(s: string): Option<Buffer> {
    match Field(s, "ALBuffer(size: ", ',')
    case None => None
    case Some((size, s1)) =>
      match Field(s1, ", bufferID: ", ',')
      case None => None
      case Some((id, s2)) =>
        match Field(s2, ", channels: ", ')')
        case None => None
        case Some((channels, s3)) =>
          if s3 == ")" then Some(Buffer(id, size, channels)) else None
  }

  lemma FieldOfNumber(tag: string, i: int, stop: char, tail: string)
    requires stop != '-' && !IsDigit(stop)
    requires |tail| >= 1 && tail[0] == stop
    ensures Field(tag + IntToString(i) + tail, tag, stop) == Some((i, tail))
  {
    var s := tag + IntToString(i) + tail;
    assert s[..|tag|] == tag;
    var rest := s[|tag|..];
    assert rest == IntToString(i) + tail;
    var digits := IntToString(i);
    assert forall j :: 0 <= j < |digits| ==> digits[j] != stop by {
      if i < 0 {
        assert digits == "-" + NatToString(-i);
        forall j | 1 <= j < |digits| ensures IsDigit(digits[j]) {
          assert digits[j] == NatToString(-i)[j - 1];
        }
      }
    }
    assert rest[|digits|] == stop;
    assert IndexOf(rest, stop) == |digits|;
    assert rest[..|digits|] == digits;
    assert rest[|digits|..] == tail;
    IntToStringRoundTrip(i);
  }

  /** `toString`. It loses nothing: the descriptor can be read back from its text. */
  function ToString(b: Buffer): (r: string)
    ensures Parse(r) == Some(b)
  {
    var sz, id, ch := IntToString(b.size), IntToString(b.bufferId), IntToString(b.channels);
    var t2 := ", channels: " + ch + ")";
    var t1 := ", bufferID: " + id + t2;
    FieldOfNumber("ALBuffer(size: ", b.size, ',', t1);
    FieldOfNumber(", bufferID: ", b.bufferId, ',', t2);
    FieldOfNumber(", channels: ", b.channels, ')', ")");
    "ALBuffer(size: " + sz + t1
  }
}
