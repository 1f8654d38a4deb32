/**
 * The language runner registry of the execution route: for each language
 * key, the file extension of the main file and the shell command that runs
 * a file of that language (backend/routes/execute.js, `LANGUAGE_RUNNERS`).
 */
module Registry {
  import opened Wrappers
  import opened Tables

  /** The three ways a runner turns a file path into a command. */
  datatype Shape =
    | Interpreted(interpreter: string)  // `<interpreter> <path>`
    | CompileThenRun(compiler: string)  // compile to /app_out, then run it, in one `bash -lc` step
    | FixedEntry                        // java: always /Main.java and class Main, whatever the path

  datatype Runner = Runner(ext: string, shape: Shape)

  /** The registry, in declaration order (the order `Object.keys` reports). */
  const Runners: seq<(string, Runner)> := [
    ("python", Runner("py", Interpreted("python3"))),
    ("javascript", Runner("js", Interpreted("node"))),
    ("typescript", Runner("ts", Interpreted("npx tsx"))),
    ("bash", Runner("sh", Interpreted("bash"))),
    ("shell", Runner("sh", Interpreted("bash"))),
    ("c", Runner("c", CompileThenRun("gcc"))),
    ("cpp", Runner("cpp", CompileThenRun("g++"))),
    ("go", Runner("go", Interpreted("go run"))),
    ("rust", Runner("rs", CompileThenRun("rustc"))),
    ("java", Runner("java", FixedEntry)),
    ("php", Runner("php", Interpreted("php"))),
    ("ruby", Runner("rb", Interpreted("ruby")))
  ]

  /** `Object.keys(LANGUAGE_RUNNERS)`, listed in the 400 response for an unknown language. */
  const Keys: seq<string> := ["python", "javascript", "typescript", "bash", "shell", "c", "cpp", "go", "rust", "java", "php", "ruby"]

  /** The listed keys are the registry's keys, in its order. */
  lemma KeysListed()
    ensures |Keys| == |Runners|
    ensures forall i :: 0 <= i < |Keys| ==> Keys[i] == Runners[i].0
  {
  }

  /** `LANGUAGE_RUNNERS[key]`: present exactly for the listed keys, with that key's entry. */
  function Lookup(key: string): (r: Option<Runner>)
    ensures r.Some? <==> exists i :: 0 <= i < |Runners| && Runners[i].0 == key
    ensures r.Some? ==> (key, r.value) in Runners
  {
    Find(Runners, key)
  }

  /** `runner.run(p)`. */
  function RunCommand(r: Runner, p: string): string
  {
    match r.shape
    case Interpreted(interpreter) => interpreter + " " + p
    case CompileThenRun(compiler) => "bash -lc \"" + compiler + " " + p + " -o /app_out && /app_out\""
    case FixedEntry => "bash -lc \"javac /Main.java && java -cp / Main\""
  }

  /** The command depends on the path for every runner except the fixed-entry one, which ignores it. */
  lemma RunCommandUsesPath(r: Runner, p: string, q: string)
    ensures RunCommand(r, p) == RunCommand(r, q) <==> p == q || r.shape.FixedEntry?
  {
    if RunCommand(r, p) == RunCommand(r, q) {
      match r.shape
      case Interpreted(i) =>
        var n := |i| + 1;
        assert p == RunCommand(r, p)[n..];
        assert q == RunCommand(r, q)[n..];
      case CompileThenRun(c) =>
        var n := |"bash -lc \""| + |c| + 1;
        var m := |" -o /app_out && /app_out\""|;
        assert p == RunCommand(r, p)[n..|RunCommand(r, p)| - m];
        assert q == RunCommand(r, q)[n..|RunCommand(r, q)| - m];
      case FixedEntry =>
    }
  }

  lemma RunnersDistinct()
    ensures DistinctKeys(Runners)
  {
  }

  /** Every registry entry is found under its own key. */
  lemma LookupEntry(i: nat)
    requires i < |Runners|
    ensures Lookup(Runners[i].0) == Some(Runners[i].1)
  {
    RunnersDistinct();
    FindAt(Runners, i);
  }

  /** c, cpp and rust compile to /app_out and run it; java has the fixed entry point. */
  lemma CompiledShapes()
    ensures Lookup("c") == Some(Runner("c", CompileThenRun("gcc")))
    ensures Lookup("cpp") == Some(Runner("cpp", CompileThenRun("g++")))
    ensures Lookup("rust") == Some(Runner("rs", CompileThenRun("rustc")))
    ensures Lookup("java") == Some(Runner("java", FixedEntry))
  {
    LookupEntry(5);
    LookupEntry(6);
    LookupEntry(8);
    LookupEntry(9);
  }
}
