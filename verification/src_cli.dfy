/** The pure logic of the library crate's command-line program, on an x86-64 build. */
module SrcCli {
  import opened Activation
  import opened Batch
  import L = Logistic
  import S = Svm

  datatype ModelType = Logistic | Svm

  /** `impl Display for ModelType`. */
  function Display(model: ModelType): (name: string)
    ensures name == "Logistic" <==> model == Logistic
    ensures name == "SVM" <==> model == Svm
  {
    match model
    case Logistic => "Logistic"
    case Svm => "SVM"
  }

  /** The two model types print as different names. */
  lemma DisplayDistinguishes(a: ModelType, b: ModelType)
    ensures Display(a) == Display(b) <==> a == b
  {
  }

  /** One run of `main` with the given file contents and parsed arguments. */
  method Execute(paramBytes: seq<byte>, dataBytes: seq<byte>, model: ModelType, benchmarks: bool,
                 decode: Word -> real, exp: real -> Positive, env: L.CallEnv)
    returns (run: Run)
    ensures var loaded := LoadInputs(paramBytes, dataBytes, decode);
      loaded.Panic? ==> run == Run([], Panicked(loaded.failure))
    ensures var loaded := LoadInputs(paramBytes, dataBytes, decode);
      loaded.Ok? && benchmarks ==>
        && run.written == []
        && (model == ModelType.Logistic ==> run.status == BenchmarkDelegated)
        && (model == ModelType.Svm ==> run.status == Bailed("Benchmarking not yet implemented for SVM"))
    ensures var loaded := LoadInputs(paramBytes, dataBytes, decode);
      loaded.Ok? && !benchmarks && model == ModelType.Logistic ==>
        var rows := Chunks(loaded.value.data, |loaded.value.weights|);
        RunMatches(rows, |loaded.value.weights|, LogisticLines(exp, loaded.value.weights, loaded.value.bias, rows), run)
    ensures var loaded := LoadInputs(paramBytes, dataBytes, decode);
      loaded.Ok? && !benchmarks && model == ModelType.Svm ==>
        var rows := Chunks(loaded.value.data, |loaded.value.weights|);
        RunMatches(rows, |loaded.value.weights|, SvmLines(loaded.value.weights, loaded.value.bias, rows), run)
  {
    var loaded := LoadInputs(paramBytes, dataBytes, decode);
    if loaded.Panic? {
      return Run([], Panicked(loaded.failure));
    }
    var inputs := loaded.value;
    if benchmarks {
      match model
      case Logistic =>
        return Run([], BenchmarkDelegated);
      case Svm =>
        return Run([], Bailed("Benchmarking not yet implemented for SVM"));
    }
    match model
    case Logistic =>
      var m := L.LogisticRegression(inputs.weights, inputs.bias, L.Sequential);
      run := ClassifyLogistic(m, env, exp, inputs.data);
    case Svm =>
      var m := S.SupportVectorMachine(inputs.weights, inputs.bias, S.Sequential);
      run := ClassifySvm(m, inputs.data);
  }
}
