/**
 * The command-line arguments an `application` keeps: copied from `argv` at
 * start-up and handed back either as a list or joined into one string.
 */
module Application {

  /** The arguments separated by single spaces, with nothing after the last one. */
  function Join(args: seq<string>): string
    requires |args| > 0
  {
    if |args| == 1 then args[0] else args[0] + " " + Join(args[1..])
  }

  /** Every argument followed by a space: what the joining loop has built after the given arguments. */
  function Terminated(args: seq<string>): string {
    if |args| == 0 then "" else Terminated(args[..|args| - 1]) + args[|args| - 1] + " "
  }

  /** The string cut at each space. */
  function Split(s: string): (parts: seq<string>)
    ensures |parts| >= 1
  {
    if |s| == 0 then [""]
    else
      var rest := Split(s[1..]);
      if s[0] == ' ' then [""] + rest else [[s[0]] + rest[0]] + rest[1..]
  }

  /** Adding an argument at the end adds a space and the argument to the joined string. */
  lemma {:induction false} JoinSnoc(args: seq<string>, a: string)
    requires |args| > 0
    ensures Join(args + [a]) == Join(args) + " " + a
  {
    if |args| == 1 {
      assert (args + [a])[1..] == [a];
    } else {
      assert (args + [a])[1..] == args[1..] + [a];
      JoinSnoc(args[1..], a);
    }
  }

  /** Building with a space after every argument and dropping the last character gives the join. */
  lemma {:induction false} TerminatedIsJoin(args: seq<string>)
    requires |args| > 0
    ensures Terminated(args) == Join(args) + " "
  {
    var n := |args|;
    if n == 1 {
      assert Terminated(args[..0]) == "";
    } else {
      TerminatedIsJoin(args[..n - 1]);
      JoinSnoc(args[..n - 1], args[n - 1]);
      assert args[..n - 1] + [args[n - 1]] == args;
    }
  }

  /** A string without spaces is one part. */
  lemma {:induction false} SplitWord(a: string)
    requires ' ' !in a
    ensures Split(a) == [a]
  {
    if |a| > 0 {
      assert ' ' !in a[1..] by {
        forall k | 0 <= k < |a[1..]| ensures a[1..][k] != ' ' {
          assert a[1..][k] == a[k + 1];
        }
      }
      SplitWord(a[1..]);
      assert [a[0]] + a[1..] == a;
    }
  }

  /** A word without spaces, a space, then the rest: the word is the first part. */
  lemma {:induction false} SplitWordSpace(a: string, t: string)
    requires ' ' !in a
    ensures Split(a + " " + t) == [a] + Split(t)
  {
    if |a| == 0 {
      assert a + " " + t == [' '] + t;
      assert (a + " " + t)[1..] == t;
    } else {
      assert (a + " " + t)[1..] == a[1..] + " " + t;
      assert ' ' !in a[1..] by {
        forall k | 0 <= k < |a[1..]| ensures a[1..][k] != ' ' {
          assert a[1..][k] == a[k + 1];
        }
      }
      SplitWordSpace(a[1..], t);
      assert [a[0]] + a[1..] == a;
    }
  }

  /** Joining arguments that contain no space can be undone by splitting at the spaces. */
  lemma {:induction false} SplitJoin(args: seq<string>)
    requires |args| > 0
    requires forall i :: 0 <= i < |args| ==> ' ' !in args[i]
    ensures Split(Join(args)) == args
  {
    if |args| == 1 {
      SplitWord(args[0]);
    } else {
      SplitJoin(args[1..]);
      SplitWordSpace(args[0], Join(args[1..]));
      assert [args[0]] + args[1..] == args;
    }
  }

  /** The application's copy of its command line. */
  class App {
    var args: seq<string>

    constructor ()
      ensures args == []
    {
      args := [];
    }

    /** `initialize_application`: keep the first `argc` entries of `argv`, in order. */
    method InitializeApplication(argc: int, argv: array<string>)
      requires 0 <= argc <= argv.Length
      modifies this
      ensures |args| == argc
      ensures forall i :: 0 <= i < argc ==> args[i] == argv[i]
    {
      var copied := new string[argc](_ => "");
      var i := 0;
      while i < argc
        invariant 0 <= i <= argc
        invariant forall k :: 0 <= k < i ==> copied[k] == argv[k]
      {
        copied[i] := argv[i];
        i := i + 1;
      }
      args := copied[..];
    }

    /**
     * `get_command_line_arguments`: append each argument and a space, then
     * drop the last character. With no argument there is no character to
     * drop, so at least one is required.
     */
    method GetCommandLineArguments() returns (s: string)
      requires |args| > 0
      ensures s == Join(args)
    {
      var str := "";
      var i := 0;
      while i < |args|
        invariant 0 <= i <= |args|
        invariant str == Terminated(args[..i])
      {
        assert args[..i + 1][..i] == args[..i];
        str := str + args[i];
        str := str + " ";
        i := i + 1;
      }
      assert args[..|args|] == args;
      TerminatedIsJoin(args);
      s := str[..|str| - 1];
    }
  }
}
