/**
 * The Voron dictionary generator: it gathers the lines of the training
 * files, then searches by bisection for the largest dictionary size the
 * 3-gram HOPE encoder can still train into the fixed table, and finally
 * trains once more at the size it settled on.
 *
 * The encoder is not part of this model: whether `Train` succeeds at a
 * size (on the collected lines, into the same table) is the parameter
 * `train`.
 */
module DictionaryGenerator {
  import opened Common

  const ShortMaxValue: int := 32767

  /** The bisection's starting bounds. */
  const InitialLowerBound: int := 128
  const InitialHigherBound: int := ShortMaxValue - 1

  // ---------------------------------------------------------------------
  // Collecting the training lines
  // ---------------------------------------------------------------------

  /** Every line of every file, file after file, in order. */
  function AllLines(files: seq<seq<string>>): seq<string>
  {
    if |files| == 0 then [] else AllLines(files[..|files| - 1]) + files[|files| - 1]
  }

  /** Line `j` of file `i` is in the collected dictionary. */
  lemma {:induction false} AllLinesKeepsEveryLine(files: seq<seq<string>>, i: int, j: int)
    requires 0 <= i < |files| && 0 <= j < |files[i]|
    ensures files[i][j] in AllLines(files)
    decreases |files|
  {
    if i < |files| - 1 {
      AllLinesKeepsEveryLine(files[..|files| - 1], i, j);
      assert files[..|files| - 1][i] == files[i];
    } else {
      assert AllLines(files)[|AllLines(files[..|files| - 1])| + j] == files[i][j];
    }
  }

  /** The collected dictionary holds no line that is not in some file. */
  lemma {:induction false} AllLinesComeFromFiles(files: seq<seq<string>>, line: string)
    requires line in AllLines(files)
    ensures exists i, j :: 0 <= i < |files| && 0 <= j < |files[i]| && files[i][j] == line
    decreases |files|
  {
    var prefix := files[..|files| - 1];
    if line in AllLines(prefix) {
      AllLinesComeFromFiles(prefix, line);
      var i, j :| 0 <= i < |prefix| && 0 <= j < |prefix[i]| && prefix[i][j] == line;
      assert files[i][j] == line;
    } else {
      var k :| 0 <= k < |AllLines(files)| && AllLines(files)[k] == line;
      var j := k - |AllLines(prefix)|;
      assert files[|files| - 1][j] == line;
    }
  }

  /** The nested loops appending each file's lines to the dictionary list. */
  method CollectLines(files: seq<seq<string>>) returns (dictionary: seq<string>)
    ensures dictionary == AllLines(files)
  {
    dictionary := [];
    for i := 0 to |files|
      invariant dictionary == AllLines(files[..i])
    {
      assert files[..i + 1][..i] == files[..i];
      var lines := files[i];
      for j := 0 to |lines|
        invariant dictionary == AllLines(files[..i]) + lines[..j]
      {
        dictionary := dictionary + [lines[j]];
        assert lines[..j + 1] == lines[..j] + [lines[j]];
      }
      assert lines[..|lines|] == lines;
    }
    assert files[..|files|] == files;
  }

  // ---------------------------------------------------------------------
  // The bisection
  // ---------------------------------------------------------------------

  /**
   * The size the search settles on from bounds `lower` and `higher`: probe
   * the midpoint, stop if it equals `lower`, raise `lower` to it when
   * training succeeds, else drop `higher` below it.
   */
  function Bisect(train: int -> bool, lower: int, higher: int): int
    decreases higher - lower
  {
    if lower >= higher then lower
    else
      var current := (lower + higher) / 2;
      if current == lower then lower
      else if train(current) then Bisect(train, current, higher)
      else Bisect(train, lower, current - 1)
  }

  /** The result lies between the bounds and is `lower` or a size that trained. */
  lemma {:induction false} BisectInBounds(train: int -> bool, lower: int, higher: int)
    requires lower <= higher
    ensures lower <= Bisect(train, lower, higher) <= higher
    ensures Bisect(train, lower, higher) == lower || train(Bisect(train, lower, higher))
    decreases higher - lower
  {
    if lower < higher {
      var current := (lower + higher) / 2;
      if current != lower {
        if train(current) {
          BisectInBounds(train, current, higher);
        } else {
          BisectInBounds(train, lower, current - 1);
        }
      }
    }
  }

  /**
   * When training succeeds exactly up to some size `largest` within the
   * bounds, the search ends on `largest` or one below it: once the bounds
   * are adjacent the midpoint is the lower one, so the higher is never
   * probed.
   */
  lemma {:induction false} BisectWithinOneOfLargest(train: int -> bool, lower: int, higher: int, largest: int)
    requires lower <= largest <= higher
    requires forall k :: lower < k <= higher ==> (train(k) <==> k <= largest)
    ensures largest - 1 <= Bisect(train, lower, higher) <= largest
    decreases higher - lower
  {
    if lower < higher {
      var current := (lower + higher) / 2;
      if current != lower {
        if train(current) {
          BisectWithinOneOfLargest(train, current, higher, largest);
        } else {
          BisectWithinOneOfLargest(train, lower, current - 1, largest);
        }
      }
    }
  }

  /** Adjacent bounds: the higher size is not tried even when it would train. */
  lemma AdjacentBoundsSkipHigher()
    ensures Bisect(k => k <= 129, 128, 129) == 128
  {
  }

  /**
   * The search loop from bounds 128 and short.MaxValue - 1; the size it
   * returns is the one the final Train call and the generated constant use.
   */
  method FindDictionarySize(train: int -> bool) returns (dictionarySize: int)
    ensures dictionarySize == Bisect(train, InitialLowerBound, InitialHigherBound)
    ensures InitialLowerBound <= dictionarySize <= InitialHigherBound
    ensures dictionarySize == InitialLowerBound || train(dictionarySize)
  {
    var lowerBound := InitialLowerBound;
    var higherBound := InitialHigherBound;
    while lowerBound < higherBound
      invariant InitialLowerBound <= lowerBound <= higherBound <= InitialHigherBound
      invariant lowerBound == InitialLowerBound || train(lowerBound)
      invariant Bisect(train, lowerBound, higherBound) == Bisect(train, InitialLowerBound, InitialHigherBound)
      decreases higherBound - lowerBound
    {
      var current := (lowerBound + higherBound) / 2;
      if current == lowerBound {
        break;
      }
      if train(current) {
        lowerBound := current;
      } else {
        higherBound := current - 1;
      }
    }
    dictionarySize := lowerBound;
  }

  /**
   * The program: collect the lines, then search with a Train that sees
   * those lines.
   */
  method Generate(files: seq<seq<string>>, train: (seq<string>, int) -> bool) returns (dictionary: seq<string>, dictionarySize: int)
    ensures dictionary == AllLines(files)
    ensures dictionarySize == Bisect(k => train(dictionary, k), InitialLowerBound, InitialHigherBound)
    ensures InitialLowerBound <= dictionarySize <= InitialHigherBound
  {
    dictionary := CollectLines(files);
    dictionarySize := FindDictionarySize(k => train(dictionary, k));
  }

  // ---------------------------------------------------------------------
  // StringArrayIterator and UTF-8
  // ---------------------------------------------------------------------

  type byte = x: int | 0 <= x < 256

  /** The UTF-8 encoding of one Unicode scalar value. */
  function EncodeScalar(c: char): (r: seq<byte>)
    ensures 1 <= |r| <= 4
  {
    var cp := c as int;
    if cp < 0x80 then [cp]
    else if cp < 0x800 then [0xC0 + cp / 64, 0x80 + cp % 64]
    else if cp < 0x10000 then [0xE0 + cp / 4096, 0x80 + (cp / 64) % 64, 0x80 + cp % 64]
    else [0xF0 + cp / 262144, 0x80 + (cp / 4096) % 64, 0x80 + (cp / 64) % 64, 0x80 + cp % 64]
  }

  /** Encoding.UTF8.GetBytes: the scalars' encodings, in order. */
  function Utf8Encode(s: string): seq<byte>
  {
    if |s| == 0 then [] else EncodeScalar(s[0]) + Utf8Encode(s[1..])
  }

  /** How many bytes a sequence starting with `lead` takes. */
  function SequenceLength(lead: byte): nat
  {
    if lead < 0x80 then 1 else if lead < 0xE0 then 2 else if lead < 0xF0 then 3 else 4
  }

  /** The scalar value of one encoded sequence. */
  function ScalarValue(b: seq<byte>): int
    requires |b| > 0 && |b| == SequenceLength(b[0])
  {
    var b0: int := b[0];
    if |b| == 1 then b0
    else
      var b1: int := b[1];
      if |b| == 2 then (b0 - 0xC0) * 64 + (b1 - 0x80)
      else
        var b2: int := b[2];
        if |b| == 3 then (b0 - 0xE0) * 4096 + (b1 - 0x80) * 64 + (b2 - 0x80)
        else
          var b3: int := b[3];
          (b0 - 0xF0) * 262144 + (b1 - 0x80) * 4096 + (b2 - 0x80) * 64 + (b3 - 0x80)
  }

  /** The scalar values a byte sequence encodes, or None when it ends inside a sequence. */
  function Utf8Decode(b: seq<byte>): Option<seq<int>>
    decreases |b|
  {
    if |b| == 0 then Some([])
    else
      var n := SequenceLength(b[0]);
      if |b| < n then None
      else
        var rest := Utf8Decode(b[n..]);
        if rest.None? then None else Some([ScalarValue(b[..n])] + rest.value)
  }

  /** The scalar values of a string. */
  function CodePoints(s: string): seq<int>
  {
    seq(|s|, i requires 0 <= i < |s| => s[i] as int)
  }

  /** One character's bytes start with the right lead byte and decode back to it. */
  lemma EncodeScalarDecodes(c: char)
    ensures SequenceLength(EncodeScalar(c)[0]) == |EncodeScalar(c)|
    ensures ScalarValue(EncodeScalar(c)) == c as int
  {
    var cp := c as int;
    var q1, r0 := cp / 64, cp % 64;
    var q2, r1 := q1 / 64, q1 % 64;
    var q3, r2 := q2 / 64, q2 % 64;
    assert cp == q1 * 64 + r0;
    assert q1 == q2 * 64 + r1;
    assert q2 == q3 * 64 + r2;
    if cp < 0x80 {
    } else if cp < 0x800 {
      assert EncodeScalar(c) == [0xC0 + q1, 0x80 + r0];
    } else if cp < 0x10000 {
      assert cp == q2 * 4096 + (r1 * 64 + r0);
      assert cp / 4096 == q2;
      assert EncodeScalar(c) == [0xE0 + q2, 0x80 + r1, 0x80 + r0];
    } else {
      assert cp == q2 * 4096 + (r1 * 64 + r0);
      assert cp == q3 * 262144 + (r2 * 4096 + r1 * 64 + r0);
      assert cp / 4096 == q2 && cp / 262144 == q3;
      assert EncodeScalar(c) == [0xF0 + q3, 0x80 + r2, 0x80 + r1, 0x80 + r0];
    }
  }

  /** Decoding an encoded string gives back its scalar values. */
  lemma {:induction false} Utf8RoundTrip(s: string)
    ensures Utf8Decode(Utf8Encode(s)) == Some(CodePoints(s))
    decreases |s|
  {
    if |s| > 0 {
      var head := EncodeScalar(s[0]);
      var b := Utf8Encode(s);
      EncodeScalarDecodes(s[0]);
      assert b == head + Utf8Encode(s[1..]);
      assert b[0] == head[0];
      assert b[..|head|] == head;
      assert b[|head|..] == Utf8Encode(s[1..]);
      Utf8RoundTrip(s[1..]);
      assert Utf8Decode(b) == Some([ScalarValue(head)] + CodePoints(s[1..]));
      assert CodePoints(s) == [s[0] as int] + CodePoints(s[1..]);
    } else {
      assert CodePoints(s) == [];
    }
  }

  /** The training input: the collected lines, handed to the encoder as UTF-8 byte spans. */
  class StringArrayIterator {
    const values: seq<string>

    constructor (values: seq<string>)
      ensures this.values == values
    {
      this.values := values;
    }

    function Length(): (r: int)
      ensures r == |values|
    {
      |values|
    }

    /** Element `i`: the UTF-8 bytes of string `i`; an index outside the array throws. */
    function At(i: int): (r: Result<seq<byte>>)
      ensures r.Ok? <==> 0 <= i < Length()
      ensures r.Ok? ==> Utf8Decode(r.value) == Some(CodePoints(values[i]))
    {
      if 0 <= i < |values| then
        Utf8RoundTrip(values[i]);
        Ok(Utf8Encode(values[i]))
      else Err(IndexOutOfRange)
    }
  }
}
