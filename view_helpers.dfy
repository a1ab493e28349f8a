/**
 * src/viewmodels/helpers.py: `image_bag`, the row of bright and pale
 * pictures that draws a score on a scale of `maximum` (five by default).
 */
module ViewHelpers {

  /** Python's `int(x)` on a float: the integer part, truncated toward zero. */
  function TruncToInt(x: real): (n: int)
    ensures x >= 0.0 ==> 0 <= n && n as real <= x < n as real + 1.0
    ensures x < 0.0 ==> n <= 0 && n as real - 1.0 < x <= n as real
  {
    if x >= 0.0 then x.Floor else -((-x).Floor)
  }

  /** `max(0, n)`: the number of steps in `range(1, n + 1)`. */
  function Steps(n: int): nat {
    if n > 0 then n else 0
  }

  /** `x` repeated `n` times; no copies when `n` is not positive. */
  function Repeat<T>(x: T, n: int): (r: seq<T>)
    ensures |r| == Steps(n)
    ensures forall i :: 0 <= i < |r| ==> r[i] == x
  {
    if n <= 0 then [] else Repeat(x, n - 1) + [x]
  }

  /**
   * The list `image_bag` returns: `int(number)` bright images, then
   * `maximum - int(number)` pale ones, each count clamped at zero.
   */
  function Bag(number: real, pale: string, bright: string, maximum: int := 5): (r: seq<string>)
    ensures |r| == Steps(TruncToInt(number)) + Steps(maximum - TruncToInt(number))
    ensures 0 <= TruncToInt(number) <= maximum ==> |r| == maximum
    ensures TruncToInt(number) >= maximum ==> |r| == Steps(TruncToInt(number))
    ensures forall i :: 0 <= i < |r| ==> r[i] == (if i < Steps(TruncToInt(number)) then bright else pale)
    ensures forall i :: 0 <= i < |r| ==> r[i] == bright || r[i] == pale
  {
    var full := TruncToInt(number);
    Repeat(bright, full) + Repeat(pale, maximum - full)
  }

  /** `image_bag`, with its two `append` loops. */
  method ImageBag(number: real, imagePale: string, imageBright: string, maximum: int := 5) returns (images: seq<string>)
    ensures images == Bag(number, imagePale, imageBright, maximum)
  {
    images := [];
    var fullImages := TruncToInt(number);
    var emptyImages := maximum - fullImages;

    var k := 1;
    while k <= fullImages
      invariant 1 <= k <= Steps(fullImages) + 1
      invariant images == Repeat(imageBright, k - 1)
    {
      images := images + [imageBright];
      k := k + 1;
    }
    assert images == Repeat(imageBright, fullImages);

    var j := 1;
    while j <= emptyImages
      invariant 1 <= j <= Steps(emptyImages) + 1
      invariant images == Repeat(imageBright, fullImages) + Repeat(imagePale, j - 1)
    {
      images := images + [imagePale];
      j := j + 1;
    }
    assert Repeat(imagePale, j - 1) == Repeat(imagePale, emptyImages);
  }

  /** A whole score from 0 to 5 is drawn as that many bright images followed by pale ones, five in all. */
  lemma BagOfWholeScore(score: nat, pale: string, bright: string)
    requires score <= 5
    ensures Bag(score as real, pale, bright) == Repeat(bright, score) + Repeat(pale, 5 - score)
  {
    assert TruncToInt(score as real) == score;
  }
}
