/** The address helper of the shared package (shared/src/index.js). */
module Shared {
  import opened Wrappers
  import opened JsString

  function Min(a: int, b: int): int { if a < b then a else b }

  /**
   * `shortenAddress(address, chars = 4)`: the first `chars + 2` characters,
   * an ellipsis, and the last `chars` characters; '' for a falsy address.
   * `slice(-0)` is `slice(0)`, so `chars == 0` keeps the whole address as the
   * tail, and so does an address no longer than `chars`.
   */
  function ShortenAddress(address: Option<string>, chars: int := 4): (r: string)
    ensures !Truthy(address) ==> r == ""
    ensures Truthy(address) && chars >= 0 ==>
              var a := address.value;
              r == a[..Min(chars + 2, |a|)] + "..." +
                   (if chars == 0 || |a| <= chars then a else a[|a| - chars..])
  {
    if !Truthy(address) then ""
    else Slice(address.value, 0, chars + 2) + "..." + SliceFrom(address.value, -chars)
  }

  /** With the default of four characters, a 42-character address shortens to 13 characters. */
  lemma DefaultShortenLength(a: string)
    requires |a| == 42
    ensures ShortenAddress(Some(a)) == a[..6] + "..." + a[38..]
    ensures |ShortenAddress(Some(a))| == 13
  {
  }
}
