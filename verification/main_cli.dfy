/** The pure logic of the `main` crate's command-line program, on an x86-64 build:
    load both files, then either hand over to the benchmarks or classify every row. */
module MainCli {
  import opened Activation
  import opened Batch
  import Logistic
  import Svm

  /** One run of `main` with the given file contents and command-line options.
      `decode` stands for `f32::from_le_bytes`; `env` for what each `predict` call observes. */
  method Execute(paramBytes: seq<byte>, dataBytes: seq<byte>, modelType: string, benchmark: bool, arch: string,
                 decode: Word -> real, exp: real -> Positive, env: Logistic.CallEnv)
    returns (run: Run)
    ensures var loaded := LoadInputs(paramBytes, dataBytes, decode);
      loaded.Panic? ==> run == Run([], Panicked(loaded.failure))
    ensures var loaded := LoadInputs(paramBytes, dataBytes, decode);
      loaded.Ok? && benchmark ==>
        && run.written == []
        && (run.status == BenchmarkDelegated || run.status == Finished)
        && (run.status == BenchmarkDelegated <==> modelType == "logistic" && arch == "x86")
    ensures var loaded := LoadInputs(paramBytes, dataBytes, decode);
      loaded.Ok? && !benchmark && modelType == "logistic" ==>
        var rows := Chunks(loaded.value.data, |loaded.value.weights|);
        RunMatches(rows, |loaded.value.weights|, LogisticLines(exp, loaded.value.weights, loaded.value.bias, rows), run)
    ensures var loaded := LoadInputs(paramBytes, dataBytes, decode);
      loaded.Ok? && !benchmark && modelType == "svm" ==>
        var rows := Chunks(loaded.value.data, |loaded.value.weights|);
        RunMatches(rows, |loaded.value.weights|, SvmLines(loaded.value.weights, loaded.value.bias, rows), run)
    ensures var loaded := LoadInputs(paramBytes, dataBytes, decode);
      loaded.Ok? && !benchmark && modelType != "logistic" && modelType != "svm" ==> run == Run([], Finished)
  {
    var loaded := LoadInputs(paramBytes, dataBytes, decode);
    if loaded.Panic? {
      return Run([], Panicked(loaded.failure));
    }
    var inputs := loaded.value;
    if benchmark {
      if modelType == "logistic" && arch == "x86" {
        return Run([], BenchmarkDelegated);
      }
      // "arm" on an x86-64 build, an unknown arch, "svm" and unknown model types
      // print a message to stderr and return Ok(())
      return Run([], Finished);
    }
    if modelType == "logistic" {
      var model := Logistic.LogisticRegression(inputs.weights, inputs.bias, Logistic.Sequential);
      run := ClassifyLogistic(model, env, exp, inputs.data);
    } else if modelType == "svm" {
      var model := Svm.SupportVectorMachine(inputs.weights, inputs.bias, Svm.Sequential);
      run := ClassifySvm(model, inputs.data);
    } else {
      run := Run([], Finished);
    }
  }
}
