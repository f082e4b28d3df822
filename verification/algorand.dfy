/** The front end's address shortening. */
module Algorand {
  import opened Bytes

  /** `formatAddress`: the first four characters, "...", the last four (JavaScript `slice` semantics). */
  function FormatAddress(address: string): (r: string)
    ensures |address| >= 4 ==> |r| == 11
    ensures |address| < 4 ==> r == address + "..." + address
  {
    JsSlice(address, 0, 4) + "..." + JsSliceFrom(address, -4)
  }

  function Min4(n: nat): nat {
    if n < 4 then n else 4
  }

  /** The result starts with the address's first min(4, length) characters and ends with its last min(4, length). */
  lemma FormatAddressEnds(address: string)
    ensures var r := FormatAddress(address); var k := Min4(|address|);
      && |r| == 2 * k + 3
      && r[..k] == address[..k]
      && r[k..k + 3] == "..."
      && r[k + 3..] == address[|address| - k..]
  {
    var k := Min4(|address|);
    assert JsSlice(address, 0, 4) == address[..k];
    assert JsSliceFrom(address, -4) == address[|address| - k..];
  }

  /** Two addresses with the same shortening agree on their first and last four characters. */
  lemma FormatAddressDeterminesEnds(a: string, b: string)
    requires |a| >= 4 && |b| >= 4 && FormatAddress(a) == FormatAddress(b)
    ensures a[..4] == b[..4] && a[|a| - 4..] == b[|b| - 4..]
  {
    FormatAddressEnds(a);
    FormatAddressEnds(b);
  }
}
