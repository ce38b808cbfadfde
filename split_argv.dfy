/** The command line of the script that runs every example: the arguments
  * before a `--` are the runner's own, the ones after it are passed on to
  * each example. */
module RunAllExamples {
  import opened PyLists

  const Separator := "--"

  /** `argv[1:]`, which is empty for an empty argv. */
  function Tail(argv: seq<string>): seq<string>
  {
    if |argv| == 0 then [] else argv[1..]
  }

  /** `split_argv`: without a separator everything after the program name
    * is the runner's; with one, the first separator splits the rest, and
    * the program name is never part of either list. */
  function SplitArgv(argv: seq<string>): (r: (seq<string>, seq<string>))
    ensures Separator !in argv ==> r == (Tail(argv), [])
    ensures Separator !in r.0
    ensures Separator in argv && argv[0] != Separator ==> r.0 + [Separator] + r.1 == Tail(argv)
    ensures Separator in argv && argv[0] == Separator ==> r == ([], Tail(argv))
  {
    if Separator !in argv then (Tail(argv), [])
    else
      var i := FirstIndex(argv, Separator);
      var local := if 1 <= i then argv[1..i] else [];
      assert forall j :: 0 <= j < |local| ==> local[j] == argv[j + 1];
      assert 1 <= i ==> argv[1..] == argv[1..i] + [argv[i]] + argv[i + 1..];
      (local, argv[i + 1..])
  }

  /** The command line a user types: the program, the runner's arguments,
    * then the separator and the example's arguments when there are any. */
  function JoinArgv(program: string, local: seq<string>, example: seq<string>): seq<string>
  {
    [program] + local + [Separator] + example
  }

  /** Splitting gives back what was joined, provided neither the program
    * name nor the runner's arguments contain the separator; the example's
    * arguments may. */
  lemma SplitJoin(program: string, local: seq<string>, example: seq<string>)
    requires program != Separator && Separator !in local
    ensures SplitArgv(JoinArgv(program, local, example)) == (local, example)
  {
    var argv := JoinArgv(program, local, example);
    assert argv[1 + |local|] == Separator;
    var i := FirstIndex(argv, Separator);
    assert i == 1 + |local|;
    assert argv[1..i] == local;
    assert argv[i + 1..] == example;
  }

  /** Without a separator every argument goes to the runner. */
  lemma SplitWithoutSeparator(program: string, local: seq<string>)
    requires program != Separator && Separator !in local
    ensures SplitArgv([program] + local) == (local, [])
  {
    assert Separator !in [program] + local;
    assert ([program] + local)[1..] == local;
  }
}
