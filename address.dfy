/** Canonical form of a Sui address, as both indexers compute it
    (`normalizeSuiAddress`; the JSON-RPC indexer carries an identical copy). */
module Address {
  import opened Strings

  const HexPrefix := "0x"
  const BodyLength := 64

  /** The address without one leading lower-case "0x". */
  function StripPrefix(addr: string): (r: string)
    ensures StartsWith(addr, HexPrefix) ==> r == addr[2..]
    ensures !StartsWith(addr, HexPrefix) ==> r == addr
  {
    if StartsWith(addr, HexPrefix) then addr[2..] else addr
  }

  /** `normalizeSuiAddress`: "" stays ""; otherwise strip "0x", left-pad with
      '0' to 64 characters, lower-case, and put "0x" back in front. */
  function Normalize(addr: string): (r: string)
    ensures r == "" <==> addr == ""
  {
    if addr == "" then ""
    else HexPrefix + ToLower(PadStart(StripPrefix(addr), BodyLength, '0'))
  }

  /** The shape of a normalized address: the "0x" prefix, a lower-case body of
      at least 64 characters (exactly 64 unless the input body was longer, as
      padding never truncates), ending in the lower-cased input body and
      padded with '0' in front. */
  lemma NormalizeShape(addr: string)
    requires addr != ""
    ensures var r := Normalize(addr);
            var body := StripPrefix(addr);
            && StartsWith(r, HexPrefix)
            && IsLower(r[2..])
            && |r| == 2 + (if |body| <= BodyLength then BodyLength else |body|)
            && (|r| == 2 + BodyLength <==> |body| <= BodyLength)
            && EndsWith(r, ToLower(body))
            && forall i :: 2 <= i < |r| - |body| ==> r[i] == '0'
  {
    var r := Normalize(addr);
    var body := StripPrefix(addr);
    var padded := PadStart(body, BodyLength, '0');
    var low := ToLower(padded);
    assert r == HexPrefix + low;
    assert low[|low| - |body|..] == ToLower(body);
  }

  /** Lower-casing a lower-case string changes nothing. */
  lemma ToLowerOfLower(s: string)
    requires IsLower(s)
    ensures ToLower(s) == s
  {
    assert forall i :: 0 <= i < |s| ==> ToLower(s)[i] == s[i];
  }

  /** Normalizing twice is normalizing once. */
  lemma NormalizeIdempotent(addr: string)
    ensures Normalize(Normalize(addr)) == Normalize(addr)
  {
    if addr != "" {
      var r := Normalize(addr);
      var low := ToLower(PadStart(StripPrefix(addr), BodyLength, '0'));
      assert r == HexPrefix + low;
      assert StartsWith(r, HexPrefix);
      assert StripPrefix(r) == low;
      assert PadStart(low, BodyLength, '0') == low;
      ToLowerOfLower(low);
    }
  }

  /** With or without the lower-case prefix, a body normalizes the same. */
  lemma PrefixOptional(body: string)
    requires body != "" && !StartsWith(body, HexPrefix)
    ensures Normalize(HexPrefix + body) == Normalize(body)
  {
    assert (HexPrefix + body)[..2] == HexPrefix;
    assert (HexPrefix + body)[2..] == body;
  }

  /** Normalization ignores the case of ASCII letters in the body: two
      addresses whose bodies lower-case alike normalize the same. */
  lemma CaseInsensitiveBody(a: string, b: string)
    requires a != "" && b != ""
    requires ToLower(StripPrefix(a)) == ToLower(StripPrefix(b))
    ensures Normalize(a) == Normalize(b)
  {
    LowerPadded(StripPrefix(a));
    LowerPadded(StripPrefix(b));
  }

  /** Lower-casing commutes with padding by '0'. */
  lemma LowerPadded(x: string)
    ensures ToLower(PadStart(x, BodyLength, '0')) == PadStart(ToLower(x), BodyLength, '0')
  {
    var p := PadStart(x, BodyLength, '0');
    var q := PadStart(ToLower(x), BodyLength, '0');
    var pad := |q| - |x|;
    forall i | 0 <= i < |q| ensures ToLower(p)[i] == q[i] {
      if i >= pad {
        assert p[i] == x[i - pad];
        assert q[i] == ToLower(x)[i - pad];
      }
    }
  }

  /** Only a lower-case "0x" is stripped: an upper-case "0X" stays in the body,
      so "0XAB" and "0xab" normalize to different addresses. */
  lemma UpperCasePrefixKept()
    ensures Normalize("0XAB") != Normalize("0xab")
  {
    var a := Normalize("0XAB");
    var b := Normalize("0xab");
    assert "0XAB"[..2][1] == 'X';
    assert !StartsWith("0XAB", HexPrefix);
    assert StartsWith("0xab", HexPrefix);
    assert StripPrefix("0xab") == "ab";
    var padded := PadStart("0XAB", BodyLength, '0');
    assert padded == seq(60, _ => '0') + "0XAB";
    assert padded[61] == "0XAB"[1] == 'X';
    assert a == HexPrefix + ToLower(padded);
    assert a[63] == LowerChar('X') == 'x';
    assert b[63] == '0';
  }
}
