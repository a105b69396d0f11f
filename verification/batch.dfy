/** The pure batch logic both command-line programs share: grouping bytes into 4-byte
    words, splitting the parameter vector, cutting the data into rows, and turning
    each row's prediction into one output line. */
module Batch {
  import opened Outcomes
  import opened DotProduct
  import opened Activation
  import Division
  import Logistic
  import Svm

  newtype byte = b: int | 0 <= b < 256

  /** Four consecutive bytes, the argument of `f32::from_le_bytes`. */
  datatype Word = Word(b0: byte, b1: byte, b2: byte, b3: byte)

  /** The k-th 4-byte word of a byte stream. */
  function WordAt(bytes: seq<byte>, k: nat): Word
    requires 4 * k + 4 <= |bytes|
  {
    Word(bytes[4 * k], bytes[4 * k + 1], bytes[4 * k + 2], bytes[4 * k + 3])
  }

  /** `bytes.chunks(4).map(|b| [b[0], b[1], b[2], b[3]])`: a short last chunk panics when indexed. */
  function GroupWords(bytes: seq<byte>): (r: Result<seq<Word>>)
    ensures r.Panic? <==> |bytes| % 4 != 0
    ensures r.Panic? ==> r.failure == ShortWord
    ensures r.Ok? ==> 4 * |r.value| == |bytes|
    ensures r.Ok? ==> forall k :: 0 <= k < |r.value| ==> r.value[k] == WordAt(bytes, k)
    decreases |bytes|
  {
    if |bytes| == 0 then Ok([])
    else if |bytes| < 4 then Panic(ShortWord)
    else
      var rest :- GroupWords(bytes[4..]);
      assert forall k :: 1 <= k <= |rest| ==> WordAt(bytes[4..], k - 1) == WordAt(bytes, k);
      Ok([WordAt(bytes, 0)] + rest)
  }

  /** The bytes of a sequence of words, in order. */
  function Ungroup(words: seq<Word>): (bytes: seq<byte>)
    ensures |bytes| == 4 * |words|
  {
    if |words| == 0 then []
    else [words[0].b0, words[0].b1, words[0].b2, words[0].b3] + Ungroup(words[1..])
  }

  /** Grouping the bytes of any word sequence gives the words back. */
  lemma {:induction false} GroupUngroup(words: seq<Word>)
    ensures GroupWords(Ungroup(words)) == Ok(words)
  {
    if |words| > 0 {
      var bytes := Ungroup(words);
      assert bytes[4..] == Ungroup(words[1..]);
      GroupUngroup(words[1..]);
      assert words == [WordAt(bytes, 0)] + words[1..];
    }
  }

  /** Grouping loses no byte: the words spell out the whole stream. */
  lemma {:induction false} UngroupGroup(bytes: seq<byte>)
    requires GroupWords(bytes).Ok?
    ensures Ungroup(GroupWords(bytes).value) == bytes
    decreases |bytes|
  {
    if |bytes| > 0 {
      var words := GroupWords(bytes).value;
      UngroupGroup(bytes[4..]);
      assert words[1..] == GroupWords(bytes[4..]).value;
      assert bytes == bytes[..4] + bytes[4..];
    }
  }

  /** `.map(f32::from_le_bytes).collect()`, with the bit reinterpretation as a parameter. */
  function DecodeAll(words: seq<Word>, decode: Word -> real): seq<real> {
    seq(|words|, k requires 0 <= k < |words| => decode(words[k]))
  }

  /** The weights and the bias read from the parameter vector. */
  datatype Parameters = Parameters(weights: seq<real>, bias: real)

  /** `params[params.len() - 1]` and `params[..params.len() - 1]`. */
  function SplitParams(params: seq<real>): (r: Result<Parameters>)
    ensures r.Panic? <==> |params| == 0
    ensures r.Panic? ==> r.failure == EmptyParameters
    ensures r.Ok? ==> r.value.weights + [r.value.bias] == params
  {
    if |params| == 0 then Panic(EmptyParameters)
    else Ok(Parameters(params[..|params| - 1], params[|params| - 1]))
  }

  /** `num_samples = data.len() / num_features`: the number of whole rows. */
  function NumSamples(dataLen: nat, numFeatures: nat): (r: Result<nat>)
    ensures r.Panic? <==> numFeatures == 0
    ensures r.Panic? ==> r.failure == DivideByZero
    ensures r.Ok? ==> r.value * numFeatures <= dataLen < (r.value + 1) * numFeatures
  {
    if numFeatures == 0 then Panic(DivideByZero)
    else
      Division.DivModUnique(dataLen, numFeatures, dataLen / numFeatures, dataLen % numFeatures);
      Ok(dataLen / numFeatures)
  }

  /** Concatenation of a sequence of rows. */
  function Flatten<T>(rows: seq<seq<T>>): seq<T> {
    if |rows| == 0 then [] else rows[0] + Flatten(rows[1..])
  }

  /** `s.chunks(size)`: consecutive rows of `size` elements, the last one possibly shorter. */
  function Chunks<T>(s: seq<T>, size: nat): (rows: seq<seq<T>>)
    requires 0 < size
    ensures Flatten(rows) == s
    ensures forall r :: 0 <= r < |rows| ==> 0 < |rows[r]| <= size
    ensures forall r :: 0 <= r < |rows| - 1 ==> |rows[r]| == size
    decreases |s|
  {
    if |s| == 0 then []
    else if |s| <= size then
      assert Flatten([s]) == s + Flatten([s][1..]);
      [s]
    else
      var rest := Chunks(s[size..], size);
      var rows := [s[..size]] + rest;
      assert rows[1..] == rest;
      assert s == s[..size] + s[size..];
      rows
  }

  /** `chunks` of q * size + m elements (0 <= m < size) yields q full rows and,
      when m > 0, one last row of m elements. */
  lemma {:induction false} ChunkCount<T>(s: seq<T>, size: nat, q: nat, m: nat)
    requires 0 < size && m < size && |s| == q * size + m
    ensures var rows := Chunks(s, size);
      && |rows| == (if m == 0 then q else q + 1)
      && (m == 0 ==> forall r :: 0 <= r < |rows| ==> |rows[r]| == size)
      && (m != 0 ==> |rows[|rows| - 1]| == m)
    decreases q
  {
    Division.MultipleAwayFromZero(q, size);
    Division.MultipleAwayFromZero(q - 1, size);
    if q > 0 {
      assert q * size == (q - 1) * size + size;
    }
    if |s| > size {
      var t := s[size..];
      assert |t| == (q - 1) * size + m;
      ChunkCount(t, size, q - 1, m);
      var rows, rest := Chunks(s, size), Chunks(t, size);
      assert rows[1..] == rest;
      if m != 0 {
        assert rows[|rows| - 1] == rest[|rest| - 1];
      }
    }
  }

  /** How many rows `chunks` yields and when the last one is short. */
  lemma ChunkShape<T>(s: seq<T>, size: nat)
    requires 0 < size
    ensures var rows := Chunks(s, size);
      && (|s| % size == 0 ==> |rows| == |s| / size && forall r :: 0 <= r < |rows| ==> |rows[r]| == size)
      && (|s| % size != 0 ==> |rows| == |s| / size + 1 && |rows[|rows| - 1]| == |s| % size)
  {
    ChunkCount(s, size, |s| / size, |s| % size);
  }

  /** What a run did: the lines it wrote, in order, and how it ended. */
  datatype Status = Finished | BenchmarkDelegated | Panicked(failure: Failure) | Bailed(message: string)
  datatype Run = Run(written: seq<string>, status: Status)

  /** `format!("{}\n", prediction)` for the three predictions the programs write. */
  function Line(prediction: int): (line: string)
    requires -1 <= prediction <= 1
    ensures line == "1\n" <==> prediction == 1
    ensures line == "0\n" <==> prediction == 0
    ensures line == "-1\n" <==> prediction == -1
  {
    if prediction == 1 then "1\n" else if prediction == 0 then "0\n" else "-1\n"
  }

  /** The logistic class of a probability: `if prob > 0.5 { 1 } else { 0 }`. */
  function LogisticClass(prob: real): (predicted: int)
    ensures predicted == 0 || predicted == 1
    ensures predicted == 1 <==> prob > 0.5
  {
    if prob > 0.5 then 1 else 0
  }

  /** The line the logistic program writes for each row, by the sequential reference. */
  function LogisticLines(exp: real -> Positive, weights: seq<real>, bias: real, rows: seq<seq<real>>): (lines: seq<string>)
    ensures |lines| == |rows|
  {
    seq(|rows|, r requires 0 <= r < |rows| => Line(LogisticClass(Sigmoid(exp, Dot(weights, rows[r]) + bias))))
  }

  /** The line the SVM program writes for each row, by the sequential reference. */
  function SvmLines(weights: seq<real>, bias: real, rows: seq<seq<real>>): (lines: seq<string>)
    ensures |lines| == |rows|
  {
    seq(|rows|, r requires 0 <= r < |rows| => Line(Svm.Label(Dot(weights, rows[r]) + bias)))
  }

  /** A row loop's effect: one expected line per row in order, stopping with a dimension
      panic at the first row whose length is not `width`. */
  ghost predicate RunMatches(rows: seq<seq<real>>, width: nat, expected: seq<string>, run: Run)
    requires |expected| == |rows|
  {
    && |run.written| <= |rows|
    && run.written == expected[..|run.written|]
    && (forall r :: 0 <= r < |run.written| ==> |rows[r]| == width)
    && (run.status == Finished <==> |run.written| == |rows|)
    && (run.status != Finished ==> run.status == Panicked(DimensionMismatch) && |rows[|run.written|]| != width)
  }

  /** The row loop of the logistic program: predict each row, write 1 when `prob > 0.5`, else 0. */
  method ClassifyLogisticRows(model: Logistic.LogisticRegression, env: Logistic.CallEnv, exp: real -> Positive,
                              rows: seq<seq<real>>)
    returns (run: Run)
    ensures RunMatches(rows, |model.weights|, LogisticLines(exp, model.weights, model.bias, rows), run)
  {
    ghost var expected := LogisticLines(exp, model.weights, model.bias, rows);
    var written: seq<string> := [];
    var k := 0;
    while k < |rows|
      invariant k <= |rows|
      invariant written == expected[..k]
      invariant forall r :: 0 <= r < k ==> |rows[r]| == |model.weights|
    {
      var p := Logistic.Predict(model, env, exp, rows[k]);
      if p.Panic? {
        return Run(written, Panicked(p.failure));
      }
      assert expected[k] == Line(LogisticClass(p.value));
      written := written + [Line(LogisticClass(p.value))];
      k := k + 1;
    }
    return Run(written, Finished);
  }

  /** `for chunk in data.chunks(num_features) { prob = model.predict(chunk); ... }`. */
  method ClassifyLogistic(model: Logistic.LogisticRegression, env: Logistic.CallEnv, exp: real -> Positive, data: seq<real>)
    returns (run: Run)
    requires |model.weights| > 0
    ensures var rows := Chunks(data, |model.weights|);
            RunMatches(rows, |model.weights|, LogisticLines(exp, model.weights, model.bias, rows), run)
  {
    run := ClassifyLogisticRows(model, env, exp, Chunks(data, |model.weights|));
  }

  /** The row loop of the SVM program: write each row's predicted label. */
  method ClassifySvmRows(model: Svm.SupportVectorMachine, rows: seq<seq<real>>) returns (run: Run)
    ensures RunMatches(rows, |model.weights|, SvmLines(model.weights, model.bias, rows), run)
  {
    ghost var expected := SvmLines(model.weights, model.bias, rows);
    var written: seq<string> := [];
    var k := 0;
    while k < |rows|
      invariant k <= |rows|
      invariant written == expected[..k]
      invariant forall r :: 0 <= r < k ==> |rows[r]| == |model.weights|
    {
      var prediction := Svm.Predict(model, rows[k]);
      if prediction.Panic? {
        return Run(written, Panicked(prediction.failure));
      }
      assert expected[k] == Line(prediction.value);
      written := written + [Line(prediction.value)];
      k := k + 1;
    }
    return Run(written, Finished);
  }

  /** `for chunk in data.chunks(num_features) { write model.predict(chunk) }`. */
  method ClassifySvm(model: Svm.SupportVectorMachine, data: seq<real>) returns (run: Run)
    requires |model.weights| > 0
    ensures var rows := Chunks(data, |model.weights|);
            RunMatches(rows, |model.weights|, SvmLines(model.weights, model.bias, rows), run)
  {
    run := ClassifySvmRows(model, Chunks(data, |model.weights|));
  }

  /** Over `data.chunks(width)`, a row loop writes one line per whole row and finishes
      exactly when the data length is a multiple of the width; otherwise the short last
      row panics in `predict`. */
  lemma RunOverChunks(data: seq<real>, width: nat, expected: seq<string>, run: Run)
    requires 0 < width && |expected| == |Chunks(data, width)|
    requires RunMatches(Chunks(data, width), width, expected, run)
    ensures |run.written| == |data| / width
    ensures run.status == Finished <==> |data| % width == 0
  {
    ChunkShape(data, width);
  }

  /** The logistic and SVM programs put the same rows in the positive class. */
  lemma LogisticAndSvmAgree(exp: real -> Positive, weights: seq<real>, bias: real, rows: seq<seq<real>>)
    requires ExpLike(exp)
    ensures forall r :: 0 <= r < |rows| ==>
      (LogisticLines(exp, weights, bias, rows)[r] == "1\n" <==> SvmLines(weights, bias, rows)[r] == "1\n")
  {
    forall r | 0 <= r < |rows|
      ensures LogisticLines(exp, weights, bias, rows)[r] == "1\n" <==> SvmLines(weights, bias, rows)[r] == "1\n"
    {
      SigmoidAboveHalf(exp, Dot(weights, rows[r]) + bias);
    }
  }

  /** The model inputs read from the two byte streams. */
  datatype Inputs = Inputs(weights: seq<real>, bias: real, data: seq<real>)

  /** Reading both files up to `num_samples`, in the program's order: group the parameter
      bytes, split off the bias, group the data bytes, divide by the feature count. */
  function LoadInputs(paramBytes: seq<byte>, dataBytes: seq<byte>, decode: Word -> real): (r: Result<Inputs>)
    ensures |paramBytes| % 4 != 0 ==> r == Panic(ShortWord)
    ensures |paramBytes| == 0 ==> r == Panic(EmptyParameters)
    ensures |paramBytes| % 4 == 0 && |paramBytes| > 0 && |dataBytes| % 4 != 0 ==> r == Panic(ShortWord)
    ensures |paramBytes| == 4 && |dataBytes| % 4 == 0 ==> r == Panic(DivideByZero)
    ensures r.Ok? <==> |paramBytes| % 4 == 0 && |paramBytes| > 4 && |dataBytes| % 4 == 0
    ensures r.Ok? ==>
      && 4 * (|r.value.weights| + 1) == |paramBytes|
      && 4 * |r.value.data| == |dataBytes|
      && (forall k :: 0 <= k < |r.value.weights| ==> r.value.weights[k] == decode(WordAt(paramBytes, k)))
      && r.value.bias == decode(WordAt(paramBytes, |r.value.weights|))
      && (forall k :: 0 <= k < |r.value.data| ==> r.value.data[k] == decode(WordAt(dataBytes, k)))
  {
    var paramWords :- GroupWords(paramBytes);
    var params := DecodeAll(paramWords, decode);
    var split :- SplitParams(params);
    assert forall k :: 0 <= k < |split.weights| ==> split.weights[k] == params[k];
    assert split.bias == params[|params| - 1];
    var dataWords :- GroupWords(dataBytes);
    var data := DecodeAll(dataWords, decode);
    var numSamples :- NumSamples(|data|, |split.weights|);
    Ok(Inputs(split.weights, split.bias, data))
  }
}
