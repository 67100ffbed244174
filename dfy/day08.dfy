/**
 * The space image format (`Day08`): the input is a sequence of 25 by 6 layers of digits.
 * Part 1 picks the layer with the fewest '0' digits and multiplies its counts of '1' and '2';
 * part 2 lays the layers on top of each other, '2' being transparent, and renders the '1'
 * pixels.
 */
module Day08 {

  const WIDTH := 25
  const HEIGHT := 6
  /** The number of pixels of one layer. */
  const LAYER := WIDTH * HEIGHT
  /** `Long.MAX_VALUE`, the first fewest count of zeros. */
  const LONG_MAX := 0x7fff_ffff_ffff_ffff
  /** The value of a fresh `char` array's cells. */
  const UNSET := '\0'
  const TRANSPARENT := '2'

  /** The number of times c occurs in s (`chars().filter(...).count()`). */
  function Count(s: seq<char>, c: char): (n: nat)
    ensures n <= |s|
    ensures n == 0 <==> c !in s
  {
    if s == [] then 0 else Count(s[..|s| - 1], c) + (if s[|s| - 1] == c then 1 else 0)
  }

  /** The complete layers of the input, from the front; an incomplete tail is dropped. */
  function Layers(s: seq<char>): (layers: seq<seq<char>>)
    ensures |layers| == |s| / LAYER
    ensures forall k :: 0 <= k < |layers| ==> |layers[k]| == LAYER
    decreases |s|
  {
    if |s| < LAYER then [] else [s[..LAYER]] + Layers(s[LAYER..])
  }

  // ---------------------------------------------------------------------------------
  // Part 1

  /**
   * The state of `part01`'s loop after the given layers: the fewest zeros so far and the
   * product for the first layer that had them.
   */
  function Best(layers: seq<seq<char>>): (int, int)
  {
    if layers == [] then (LONG_MAX, 0)
    else
      var (m, r) := Best(layers[..|layers| - 1]);
      var last := layers[|layers| - 1];
      if Count(last, '0') < m then Product(last) else (m, r)
  }

  /** One pass of `part01`'s loop: count the zeros of the layer at `currentIndex` and keep the better. */
  method ScanLayer(input: seq<char>, currentIndex: nat, next: nat, minZeroes: int, result: int, ghost done: seq<seq<char>>)
    returns (minZeroes': int, result': int, ghost done': seq<seq<char>>)
    requires next == currentIndex + LAYER <= |input|
    requires Layers(input) == done + Layers(input[currentIndex..])
    requires (minZeroes, result) == Best(done)
    ensures Layers(input) == done' + Layers(input[next..])
    ensures (minZeroes', result') == Best(done')
  {
    var currentLayer := input[currentIndex..next];
    var zeroes := Count(currentLayer, '0');
    minZeroes', result' := minZeroes, result;
    if zeroes < minZeroes {
      minZeroes' := zeroes;
      result' := Count(currentLayer, '1') * Count(currentLayer, '2');
    }
    done' := done + [currentLayer];
    assert (minZeroes', result') == Best(done') by {
      BestNext(done, currentLayer);
    }
    assert Layers(input) == done' + Layers(input[next..]) by {
      LayersFront(input, currentIndex);
      assert done + ([currentLayer] + Layers(input[next..])) == done' + Layers(input[next..]);
    }
  }

  /** `Best` one layer further. */
  lemma BestNext(layers: seq<seq<char>>, layer: seq<char>)
    ensures Best(layers + [layer]) == if Count(layer, '0') < Best(layers).0 then Product(layer) else Best(layers)
  {
    assert (layers + [layer])[..|layers|] == layers;
  }

  /** A layer's count of zeros, with the product of its counts of '1' and '2'. */
  function Product(layer: seq<char>): (int, int)
  {
    (Count(layer, '0'), Count(layer, '1') * Count(layer, '2'))
  }

  /** The number of zeros of each layer. */
  function ZeroCounts(layers: seq<seq<char>>): (zeros: seq<int>)
    ensures |zeros| == |layers|
    ensures forall j :: 0 <= j < |layers| ==> zeros[j] == Count(layers[j], '0')
  {
    seq(|layers|, j requires 0 <= j < |layers| => Count(layers[j], '0'))
  }

  /** The first position of the smallest value: none is smaller, and every earlier one is larger. */
  function Fewest(zeros: seq<int>): (k: nat)
    requires zeros != []
    ensures k < |zeros|
    ensures forall j :: 0 <= j < |zeros| ==> zeros[k] <= zeros[j]
    ensures forall j :: 0 <= j < k ==> zeros[k] < zeros[j]
  {
    if |zeros| == 1 then 0
    else
      var k := Fewest(zeros[..|zeros| - 1]);
      assert forall j :: 0 <= j < |zeros| - 1 ==> zeros[..|zeros| - 1][j] == zeros[j];
      if zeros[|zeros| - 1] < zeros[k] then |zeros| - 1 else k
  }

  /**
   * The loop's result is the product of the counts of '1' and '2' in the first layer with the
   * fewest zeros, and 0 when there is no complete layer.
   */
  lemma {:induction false} BestIsFewest(layers: seq<seq<char>>)
    requires forall k :: 0 <= k < |layers| ==> |layers[k]| <= LAYER
    ensures layers == [] ==> Best(layers) == (LONG_MAX, 0)
    ensures layers != [] ==> Best(layers) == Product(layers[Fewest(ZeroCounts(layers))])
  {
    if |layers| > 1 {
      var front := layers[..|layers| - 1];
      BestIsFewest(front);
      assert ZeroCounts(layers)[..|layers| - 1] == ZeroCounts(front);
    }
  }

  /** `part01`: walk the complete layers, keeping the product of the first layer with the fewest zeros. */
  method Part01(input: seq<char>) returns (result: int)
    ensures result == Best(Layers(input)).1
  {
    var currentIndex := 0;
    var minZeroes := LONG_MAX;
    result := 0;
    ghost var done: seq<seq<char>> := [];
    while currentIndex + LAYER <= |input|
      invariant 0 <= currentIndex <= |input|
      invariant Layers(input) == done + Layers(input[currentIndex..])
      invariant (minZeroes, result) == Best(done)
      decreases |input| - currentIndex
    {
      var next := currentIndex + LAYER;
      minZeroes, result, done := ScanLayer(input, currentIndex, next, minZeroes, result, done);
      currentIndex := next;
    }
    assert done + [] == done;
  }

  // ---------------------------------------------------------------------------------
  // Part 2

  /** The pixel at i seen from the front: the first layer's pixel that is not transparent. */
  function Visible(layers: seq<seq<char>>, i: nat): (pixel: char)
    requires forall k :: 0 <= k < |layers| ==> i < |layers[k]|
    ensures forall k :: 0 <= k < |layers| && layers[k][i] != TRANSPARENT && (forall m :: 0 <= m < k ==> layers[m][i] == TRANSPARENT) ==> pixel == layers[k][i]
    ensures (forall k :: 0 <= k < |layers| ==> layers[k][i] == TRANSPARENT) ==> pixel == UNSET
    ensures pixel != TRANSPARENT
  {
    if layers == [] then UNSET
    else if layers[0][i] != TRANSPARENT then layers[0][i]
    else
      var pixel := Visible(layers[1..], i);
      assert forall k :: 1 <= k < |layers| ==> layers[1..][k - 1] == layers[k];
      pixel
  }

  /** A layer in front shows its pixel unless it is transparent there. */
  lemma VisibleFront(layer: seq<char>, behind: seq<seq<char>>, i: nat)
    requires i < |layer| && forall k :: 0 <= k < |behind| ==> i < |behind[k]|
    ensures Visible([layer] + behind, i) == if layer[i] != TRANSPARENT then layer[i] else Visible(behind, i)
  {
    assert ([layer] + behind)[1..] == behind;
  }

  /** Dropping the front layer of a layered string. */
  lemma LayersFront(s: seq<char>, k: nat)
    requires k + LAYER <= |s|
    ensures Layers(s[k..]) == [s[k..k + LAYER]] + Layers(s[k + LAYER..])
  {
    assert s[k..][LAYER..] == s[k + LAYER..];
    assert s[k..][..LAYER] == s[k..k + LAYER];
  }

  /**
   * `part02`: take the layers from the back and let each non-transparent pixel overwrite the
   * output, so each pixel ends as the front-most non-transparent one, or unset.
   */
  method Part02(input: seq<char>) returns (output: array<char>)
    requires |input| % LAYER == 0
    ensures output.Length == LAYER
    ensures forall i :: 0 <= i < LAYER ==> output[i] == Visible(Layers(input), i)
  {
    output := new char[LAYER](_ => UNSET);
    var rest := input;
    while |rest| > 0
      invariant |rest| % LAYER == 0 && rest == input[..|rest|]
      invariant forall i :: 0 <= i < LAYER ==> output[i] == Visible(Layers(input[|rest|..]), i)
      decreases |rest|
    {
      var currentLayer := rest[|rest| - LAYER..];
      rest := rest[..|rest| - LAYER];
      ghost var behind := Layers(input[|rest| + LAYER..]);
      LayersFront(input, |rest|);
      Overlay(output, currentLayer, behind);
    }
  }

  /** The inner loop of `part02`: the layer's non-transparent pixels overwrite the output. */
  method Overlay(output: array<char>, layer: seq<char>, ghost behind: seq<seq<char>>)
    requires output.Length == LAYER && |layer| == LAYER
    requires forall k :: 0 <= k < |behind| ==> |behind[k]| == LAYER
    requires forall i :: 0 <= i < LAYER ==> output[i] == Visible(behind, i)
    modifies output
    ensures forall i :: 0 <= i < LAYER ==> output[i] == Visible([layer] + behind, i)
  {
    for i := 0 to |layer|
      invariant forall k :: 0 <= k < i ==> output[k] == Visible([layer] + behind, k)
      invariant forall k :: i <= k < LAYER ==> output[k] == Visible(behind, k)
    {
      VisibleFront(layer, behind, i);
      if layer[i] != TRANSPARENT {
        output[i] := layer[i];
      }
    }
  }

  /** The printed image: row j, column i is '#' for a '1' pixel and ' ' for any other. */
  function Render(image: seq<char>): (rows: seq<seq<char>>)
    requires |image| == LAYER
    ensures |rows| == HEIGHT
    ensures forall j :: 0 <= j < HEIGHT ==> |rows[j]| == WIDTH
    ensures forall j, i :: 0 <= j < HEIGHT && 0 <= i < WIDTH ==> (rows[j][i] == '#' <==> image[i + j * WIDTH] == '1')
  {
    seq(HEIGHT, j requires 0 <= j < HEIGHT => seq(WIDTH, i requires 0 <= i < WIDTH => if image[i + j * WIDTH] == '1' then '#' else ' '))
  }

  lemma Examples()
    ensures Visible(["0222", "1122", "2212", "0000"], 0) == '0'
    ensures Visible(["0222", "1122", "2212", "0000"], 1) == '1'
    ensures Visible(["0222", "1122", "2212", "0000"], 3) == '0'
    ensures Visible(["2", "2"], 0) == UNSET
  {
    var layers := ["0222", "1122", "2212", "0000"];
    assert layers[0][0] == '0' && layers[0][3] == '2';
    assert layers[1..][0][1] == '1';
    assert layers[1..][1..][0][3] == '2' && layers[1..][1..][1..][0][3] == '0';
    assert layers[1..][1..][1..][1..] == [];
  }
}
