/**
 * PredictionHelper.predict: the feature vector built from an expense
 * history, its packing into a 40-byte input tensor, one run of the
 * regression model, and the scale transform back to an amount.
 *
 * Floating point is modelled over reals. The maths library (log1p, expm1,
 * sin, cos, pi), the 4-byte float encoding of the platform and the
 * model's weights are parameters, not definitions.
 */
module Prediction {
  import opened Common

  /** The calibration constant shared by normalisation and denormalisation. */
  const Scale: real := 187.85

  /** Features per model input, and bytes per float in a ByteBuffer. */
  const FeatureCount: nat := 10
  const FloatBytes: nat := 4

  /** The exception `expenses.last()` throws on an empty history. */
  datatype PredictError = NoSuchElement

  /** The four bytes of one float in native byte order. */
  datatype Word = Word(b0: bv8, b1: bv8, b2: bv8, b3: bv8)

  function WordBytes(w: Word): (bytes: seq<bv8>)
    ensures |bytes| == FloatBytes
  {
    [w.b0, w.b1, w.b2, w.b3]
  }

  function WordAt(bytes: seq<bv8>, offset: nat): (w: Word)
    requires offset + FloatBytes <= |bytes|
    ensures WordBytes(w) == bytes[offset..offset + FloatBytes]
  {
    Word(bytes[offset], bytes[offset + 1], bytes[offset + 2], bytes[offset + 3])
  }

  /** putFloat / getFloat's conversion between a float and its four bytes. */
  datatype FloatCodec = FloatCodec(encode: real -> Word, decode: Word -> real)

  /** The number a putFloat of x followed by a getFloat reads back: x rounded to a float. */
  function Rounded(c: FloatCodec, x: real): real {
    c.decode(c.encode(x))
  }

  /** Every number of a vector, rounded through the float encoding. */
  function RoundedAll(c: FloatCodec, v: seq<real>): (r: seq<real>)
    ensures |r| == |v|
    ensures forall i :: 0 <= i < |v| ==> r[i] == Rounded(c, v[i])
  {
    seq(|v|, i requires 0 <= i < |v| => Rounded(c, v[i]))
  }

  /** Each number of xs is already a float: the encoding reads it back unchanged. */
  ghost predicate LosslessOn(c: FloatCodec, xs: seq<real>) {
    forall i :: 0 <= i < |xs| ==> Rounded(c, xs[i]) == xs[i]
  }

  /** java.lang.Math as the prediction uses it. */
  datatype Numerics = Numerics(
    log1p: real -> real,
    expm1: real -> real,
    sin: real -> real,
    cos: real -> real,
    pi: real)

  /** expm1 undoes log1p wherever log1p is defined. */
  ghost predicate Expm1InvertsLog1p(m: Numerics) {
    forall y: real :: y > -1.0 ==> m.expm1(m.log1p(y)) == y
  }

  /** The day-of-week angle 2π·2/7: the day index is fixed at 2. */
  function DayAngle(m: Numerics): real {
    2.0 * m.pi * 2.0 / 7.0
  }

  /** log1p(amount / SCALE); Denormalize undoes it wherever log1p is defined. */
  function Normalize(m: Numerics, amount: real): (log: real)
    ensures Expm1InvertsLog1p(m) && amount > -Scale ==> Denormalize(m, log) == amount
  {
    assert amount > -Scale ==> amount / Scale > -1.0;
    m.log1p(amount / Scale)
  }

  /** expm1(log) · SCALE. */
  function Denormalize(m: Numerics, log: real): real {
    m.expm1(log) * Scale
  }

  /** getOrNull(i) ?: 0. */
  function GetOrZero(s: seq<real>, i: int): real {
    if 0 <= i < |s| then s[i] else 0.0
  }

  /**
   * The 10-slot input: two raw lags, the category placeholder, the fixed
   * day-of-week encoding, the weekend placeholder, the log amount three
   * times, and the extra constant 10.
   */
  function Features(m: Numerics, expenses: seq<real>): (v: seq<real>)
    requires expenses != []
    ensures |v| == FeatureCount
    ensures v[0] == (if |expenses| >= 2 then expenses[|expenses| - 2] else 0.0)
    ensures v[1] == (if |expenses| >= 3 then expenses[|expenses| - 3] else 0.0)
    ensures v[2] == 1.0 && v[5] == 0.0 && v[9] == 10.0
    ensures v[3] == m.sin(DayAngle(m)) && v[4] == m.cos(DayAngle(m))
    ensures v[6] == v[7] == v[8] == Normalize(m, expenses[|expenses| - 1])
  {
    var logAmount := Normalize(m, expenses[|expenses| - 1]);
    [ GetOrZero(expenses, |expenses| - 2),
      GetOrZero(expenses, |expenses| - 3),
      1.0,
      m.sin(DayAngle(m)),
      m.cos(DayAngle(m)),
      0.0,
      logAmount,
      logAmount,
      logAmount,
      10.0 ]
  }

  /** The bytes of a float vector put one after another, four per float. */
  function Pack(c: FloatCodec, v: seq<real>): (bytes: seq<bv8>)
    ensures |bytes| == FloatBytes * |v|
  {
    if v == [] then []
    else Pack(c, v[..|v| - 1]) + WordBytes(c.encode(v[|v| - 1]))
  }

  /** The floats a byte tensor holds, four bytes each. */
  function Unpack(c: FloatCodec, bytes: seq<bv8>): (v: seq<real>)
    requires |bytes| % FloatBytes == 0
    ensures |v| == |bytes| / FloatBytes
  {
    if bytes == [] then []
    else Unpack(c, bytes[..|bytes| - FloatBytes]) + [c.decode(WordAt(bytes, |bytes| - FloatBytes))]
  }

  /** `n` zero bytes, the contents of a freshly allocated direct buffer. */
  function Zeros(n: nat): (bytes: seq<bv8>)
    ensures |bytes| == n
    ensures forall i :: 0 <= i < n ==> bytes[i] == 0
  {
    seq(n, _ => 0 as bv8)
  }

  /** One putFloat of v[i] extends the packed prefix v[..i] into the zero-filled rest. */
  lemma {:induction false} PackStep(c: FloatCodec, v: seq<real>, i: nat, before: seq<bv8>)
    requires i < |v|
    requires before == Pack(c, v[..i]) + Zeros(FloatBytes * (|v| - i))
    ensures before[..FloatBytes * i] + WordBytes(c.encode(v[i])) + before[FloatBytes * i + FloatBytes..]
            == Pack(c, v[..i + 1]) + Zeros(FloatBytes * (|v| - (i + 1)))
  {
    assert v[..i + 1][..i] == v[..i];
    assert before[..FloatBytes * i] == Pack(c, v[..i]);
    assert before[FloatBytes * i + FloatBytes..] == Zeros(FloatBytes * (|v| - (i + 1)));
  }

  /** Slot i of a packed vector holds the encoding of v[i]: the floats are written in order. */
  lemma {:induction false} PackSlot(c: FloatCodec, v: seq<real>, i: nat)
    requires i < |v|
    ensures Pack(c, v)[FloatBytes * i..FloatBytes * i + FloatBytes] == WordBytes(c.encode(v[i]))
  {
    var n := |v| - 1;
    if i < n {
      PackSlot(c, v[..n], i);
      assert Pack(c, v)[..FloatBytes * n] == Pack(c, v[..n]);
    }
  }

  /** Unpacking bytes with one more word at the end gives one more number at the end. */
  lemma UnpackSnoc(c: FloatCodec, front: seq<bv8>, w: Word)
    requires |front| % FloatBytes == 0
    ensures Unpack(c, front + WordBytes(w)) == Unpack(c, front) + [c.decode(w)]
  {
    var bytes := front + WordBytes(w);
    assert bytes[..|bytes| - FloatBytes] == front;
    assert WordAt(bytes, |bytes| - FloatBytes) == w;
  }

  lemma RoundedAllSnoc(c: FloatCodec, v: seq<real>)
    requires v != []
    ensures RoundedAll(c, v) == RoundedAll(c, v[..|v| - 1]) + [Rounded(c, v[|v| - 1])]
  {
  }

  /**
   * Unpacking a packed vector gives back each number rounded through the
   * float encoding, in order; the vector itself when its numbers are floats.
   */
  lemma {:induction false} UnpackPack(c: FloatCodec, v: seq<real>)
    ensures Unpack(c, Pack(c, v)) == RoundedAll(c, v)
    ensures LosslessOn(c, v) ==> Unpack(c, Pack(c, v)) == v
  {
    if v != [] {
      var n := |v| - 1;
      UnpackPack(c, v[..n]);
      UnpackSnoc(c, Pack(c, v[..n]), c.encode(v[n]));
      RoundedAllSnoc(c, v);
    }
    if LosslessOn(c, v) {
      assert RoundedAll(c, v) == v;
    }
  }

  /**
   * What predict returns: the exception on an empty history; otherwise
   * the model's output for the packed features, read back from its four
   * output bytes and denormalised.
   */
  function PredictResult(m: Numerics, native: FloatCodec, model: seq<real> -> real, expenses: seq<real>): (r: Result<real, PredictError>)
    ensures r.Failure? <==> expenses == []
  {
    if expenses == [] then Failure(NoSuchElement)
    else
      var input := Pack(native, Features(m, expenses));
      var output := native.encode(model(Unpack(native, input)));
      Success(Denormalize(m, native.decode(output)))
  }

  /**
   * predict over numbers: the model sees the features rounded to floats,
   * its output is rounded to a float, and that is denormalised; when those
   * numbers are already floats the byte buffers are transparent.
   */
  lemma {:induction false} PredictionOverReals(m: Numerics, native: FloatCodec, model: seq<real> -> real, expenses: seq<real>)
    ensures expenses == [] ==> PredictResult(m, native, model, expenses) == Failure(NoSuchElement)
    ensures expenses != [] ==>
      PredictResult(m, native, model, expenses)
      == Success(Denormalize(m, Rounded(native, model(RoundedAll(native, Features(m, expenses))))))
    ensures expenses != [] && LosslessOn(native, Features(m, expenses))
            && LosslessOn(native, [model(Features(m, expenses))]) ==>
      PredictResult(m, native, model, expenses) == Success(Denormalize(m, model(Features(m, expenses))))
  {
    if expenses != [] {
      var v := Features(m, expenses);
      UnpackPack(native, v);
      if LosslessOn(native, v) && LosslessOn(native, [model(v)]) {
        assert Rounded(native, [model(v)][0]) == [model(v)][0];
      }
    }
  }

  /** A model that returns its smoothed-log input unchanged. */
  function PassSmoothedLog(v: seq<real>): real {
    if |v| == FeatureCount then v[6] else 0.0
  }

  /** The same SCALE in both directions: with a pass-through model, predict([x]) == x. */
  lemma SingletonRoundTrip(m: Numerics, native: FloatCodec, x: real)
    requires Expm1InvertsLog1p(m)
    requires x > -Scale
    requires LosslessOn(native, Features(m, [x]))
    ensures PredictResult(m, native, PassSmoothedLog, [x]) == Success(x)
  {
    var v := Features(m, [x]);
    PredictionOverReals(m, native, PassSmoothedLog, [x]);
    assert RoundedAll(native, v) == v;
    assert Rounded(native, v[6]) == v[6];
    assert x / Scale > -1.0;
  }

  /** A one-element history: both lags are 0 and only x reaches slots 6 to 8. */
  lemma SingletonFeatures(m: Numerics, x: real)
    ensures Features(m, [x]) == [0.0, 0.0, 1.0, m.sin(DayAngle(m)), m.cos(DayAngle(m)), 0.0,
                                Normalize(m, x), Normalize(m, x), Normalize(m, x), 10.0]
  {
  }

  /** Only the last three amounts of a history reach the feature vector. */
  lemma {:induction false} FeaturesUseLastThree(m: Numerics, expenses: seq<real>)
    requires |expenses| >= 3
    ensures Features(m, expenses) == Features(m, expenses[|expenses| - 3..])
  {
  }

  /**
   * A java.nio.ByteBuffer allocated direct in native order: a fixed array
   * of bytes and a position that relative puts and gets advance.
   */
  class ByteBuffer {
    const data: array<bv8>
    const codec: FloatCodec
    var position: nat

    ghost predicate Valid()
      reads this
    {
      position <= data.Length
    }

    /** allocateDirect(capacity).order(nativeOrder()): zero-filled, position 0. */
    constructor AllocateDirect(capacity: nat, codec: FloatCodec)
      ensures Valid() && fresh(data) && position == 0 && this.codec == codec
      ensures data[..] == Zeros(capacity)
    {
      data := new bv8[capacity](_ => 0 as bv8);
      this.codec := codec;
      position := 0;
    }

    /** put of four raw bytes at the position, which advances by four. */
    method PutWord(w: Word)
      requires Valid() && position + FloatBytes <= data.Length
      modifies this, data
      ensures Valid() && position == old(position) + FloatBytes
      ensures data[..] == old(data[..])[..old(position)] + WordBytes(w) + old(data[..])[old(position) + FloatBytes..]
    {
      data[position] := w.b0;
      data[position + 1] := w.b1;
      data[position + 2] := w.b2;
      data[position + 3] := w.b3;
      position := position + FloatBytes;
    }

    /** putFloat: the float's four bytes at the position. */
    method PutFloat(x: real)
      requires Valid() && position + FloatBytes <= data.Length
      modifies this, data
      ensures Valid() && position == old(position) + FloatBytes
      ensures data[..] == old(data[..])[..old(position)] + WordBytes(codec.encode(x)) + old(data[..])[old(position) + FloatBytes..]
    {
      PutWord(codec.encode(x));
    }

    /** rewind: position back to 0, contents unchanged. */
    method Rewind()
      requires Valid()
      modifies this
      ensures Valid() && position == 0
    {
      position := 0;
    }

    /** getFloat: the float in the four bytes at the position, which advances by four. */
    method GetFloat() returns (x: real)
      requires Valid() && position + FloatBytes <= data.Length
      modifies this
      ensures Valid() && position == old(position) + FloatBytes
      ensures x == codec.decode(WordAt(data[..], old(position)))
    {
      x := codec.decode(Word(data[position], data[position + 1], data[position + 2], data[position + 3]));
      position := position + FloatBytes;
    }
  }

  /**
   * The TensorFlow Lite interpreter with its loaded model: one input tensor
   * of 10 floats and one output tensor of one float, in the platform's
   * native float encoding.
   */
  class Interpreter {
    const model: seq<real> -> real
    const native: FloatCodec

    constructor (model: seq<real> -> real, native: FloatCodec)
      ensures this.model == model && this.native == native
    {
      this.model := model;
      this.native := native;
    }

    /**
     * run(input, output): reads the whole input buffer as the input tensor
     * and puts the model's result into output at its position.
     */
    method Run(input: ByteBuffer, output: ByteBuffer)
      requires input.data.Length == FeatureCount * FloatBytes
      requires output.Valid() && output.position + FloatBytes <= output.data.Length
      requires input.data != output.data
      modifies output, output.data
      ensures output.Valid() && output.position == old(output.position) + FloatBytes
      ensures output.data[..] ==
                old(output.data[..])[..old(output.position)]
                + WordBytes(native.encode(model(Unpack(native, old(input.data[..])))))
                + old(output.data[..])[old(output.position) + FloatBytes..]
    {
      var result := model(Unpack(native, input.data[..]));
      output.PutWord(native.encode(result));
    }
  }

  /**
   * The input-buffer step of predict: allocate 4 bytes per feature and
   * putFloat each feature in turn.
   */
  method PackInputBuffer(features: seq<real>, native: FloatCodec) returns (buffer: ByteBuffer)
    ensures fresh(buffer) && fresh(buffer.data) && buffer.codec == native
    ensures buffer.data[..] == Pack(native, features)
  {
    buffer := new ByteBuffer.AllocateDirect(|features| * FloatBytes, native);
    for i := 0 to |features|
      invariant buffer.Valid() && buffer.position == FloatBytes * i
      invariant buffer.data[..] == Pack(native, features[..i]) + Zeros(FloatBytes * (|features| - i))
    {
      PackStep(native, features, i, buffer.data[..]);
      buffer.PutFloat(features[i]);
    }
    assert features[..|features|] == features;
  }

  class PredictionHelper {
    const interpreter: Interpreter
    const numerics: Numerics

    constructor (interpreter: Interpreter, numerics: Numerics)
      ensures this.interpreter == interpreter && this.numerics == numerics
    {
      this.interpreter := interpreter;
      this.numerics := numerics;
    }

    /** predict(expenses): the forecast for the amount after the history's last one. */
    method Predict(expenses: seq<real>) returns (r: Result<real, PredictError>)
      ensures r == PredictResult(numerics, interpreter.native, interpreter.model, expenses)
    {
      if expenses == [] {
        return Failure(NoSuchElement);
      }
      var inputFeatures := Features(numerics, expenses);
      var native := interpreter.native;
      var inputBuffer := PackInputBuffer(inputFeatures, native);
      ghost var inputBytes := inputBuffer.data[..];

      var outputBuffer := new ByteBuffer.AllocateDirect(FloatBytes, native);
      interpreter.Run(inputBuffer, outputBuffer);
      ghost var written := native.encode(interpreter.model(Unpack(native, inputBytes)));
      assert outputBuffer.data[..] == WordBytes(written);
      outputBuffer.Rewind();
      var predictionLog := outputBuffer.GetFloat();
      assert predictionLog == native.decode(written);
      r := Success(numerics.expm1(predictionLog) * Scale);
    }
  }
}
