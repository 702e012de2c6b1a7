/** Command lines as the program builds them: a list of words in which most
    entries are an option followed by its value. */
module Argv {
  import opened Common

  /** A word of a command line, or an option and its value. */
  datatype Arg = Word(text: string) | Opt(flag: string, value: string)

  function Words(a: Arg): (w: seq<string>)
    ensures 1 <= |w| <= 2
  {
    match a
    case Word(t) => [t]
    case Opt(f, v) => [f, v]
  }

  /** The argument vector the arguments spell, in order. */
  function Flatten(args: seq<Arg>): (cmd: seq<string>)
    ensures |args| <= |cmd|
  {
    if args == [] then [] else Words(args[0]) + Flatten(args[1..])
  }

  lemma {:induction false} FlattenAppend(a: seq<Arg>, b: seq<Arg>)
    ensures Flatten(a + b) == Flatten(a) + Flatten(b)
    decreases |a|
  {
    if a == [] {
      assert a + b == b;
    } else {
      assert (a + b)[1..] == a[1..] + b;
      FlattenAppend(a[1..], b);
    }
  }

  /** Argument `i` starts at word `|Flatten(args[..i])|`. */
  lemma FlattenAt(args: seq<Arg>, i: nat)
    requires i < |args|
    ensures Flatten(args) == Flatten(args[..i]) + Words(args[i]) + Flatten(args[i + 1..])
  {
    var head, tail := args[..i], args[i..];
    SplitAt(args, i);
    FlattenAppend(head, tail);
    assert Flatten(tail) == Words(args[i]) + Flatten(args[i + 1..]);
    AppendAssoc(Flatten(head), Words(args[i]), Flatten(args[i + 1..]));
  }

  lemma SplitAt(args: seq<Arg>, i: nat)
    requires i < |args|
    ensures args[..i] + args[i..] == args
    ensures args[i..][0] == args[i] && args[i..][1..] == args[i + 1..]
  {
  }

  /** Some argument is the option `flag`. */
  predicate HasOption(args: seq<Arg>, flag: string)
  {
    exists i :: 0 <= i < |args| && args[i].Opt? && args[i].flag == flag
  }

  /** `flag value` appears on the command line, as two adjacent words. */
  predicate Passes(cmd: seq<string>, flag: string, value: string)
    decreases |cmd|
  {
    2 <= |cmd| && ((cmd[0] == flag && cmd[1] == value) || Passes(cmd[1..], flag, value))
  }

  /** `Passes` holds exactly when the two words are adjacent somewhere. */
  lemma {:induction false} PassesIff(cmd: seq<string>, flag: string, value: string)
    ensures Passes(cmd, flag, value) <==> exists i :: 0 <= i < |cmd| - 1 && cmd[i] == flag && cmd[i + 1] == value
    decreases |cmd|
  {
    if 2 <= |cmd| {
      PassesIff(cmd[1..], flag, value);
      if Passes(cmd[1..], flag, value) {
        var i :| 0 <= i < |cmd| - 2 && cmd[1..][i] == flag && cmd[1..][i + 1] == value;
        assert cmd[i + 1] == flag && cmd[i + 2] == value;
      }
      if exists i :: 0 <= i < |cmd| - 1 && cmd[i] == flag && cmd[i + 1] == value {
        var i :| 0 <= i < |cmd| - 1 && cmd[i] == flag && cmd[i + 1] == value;
        if i > 0 {
          assert cmd[1..][i - 1] == flag && cmd[1..][i] == value;
        }
      }
    }
  }

  lemma {:induction false} PassesAt(cmd: seq<string>, i: nat)
    requires i < |cmd| - 1
    ensures Passes(cmd, cmd[i], cmd[i + 1])
    decreases i
  {
    if i > 0 {
      PassesAt(cmd[1..], i - 1);
    }
  }

  /** Some `f` comes before some `g`. */
  predicate Precedes(cmd: seq<string>, f: string, g: string)
  {
    exists i, j :: 0 <= i < j < |cmd| && cmd[i] == f && cmd[j] == g
  }

  /** Every option of the arguments is passed with its value. */
  lemma FlattenPasses(args: seq<Arg>, i: nat)
    requires i < |args| && args[i].Opt?
    ensures Passes(Flatten(args), args[i].flag, args[i].value)
  {
    FlattenAt(args, i);
    var p := |Flatten(args[..i])|;
    assert Flatten(args)[p] == args[i].flag && Flatten(args)[p + 1] == args[i].value;
    PassesAt(Flatten(args), p);
  }

  /** An argument before another is spelled before it. */
  lemma FlattenPrecedes(args: seq<Arg>, i: nat, j: nat)
    requires i < j < |args|
    ensures Precedes(Flatten(args), Words(args[i])[0], Words(args[j])[0])
  {
    FlattenAt(args, j);
    var q := |Flatten(args[..j])|;
    assert args[..j][..i] == args[..i] && args[..j][i + 1..] == args[i + 1..j];
    FlattenAt(args[..j], i);
    var p := |Flatten(args[..i])|;
    assert Flatten(args)[p] == Words(args[i])[0];
    assert Flatten(args)[q] == Words(args[j])[0];
  }

  /** The last argument, a single word, is the last word. */
  lemma FlattenLast(args: seq<Arg>, w: string)
    requires |args| > 0 && args[|args| - 1] == Word(w)
    ensures |Flatten(args)| > 0 && Flatten(args)[|Flatten(args)| - 1] == w
  {
    FlattenAt(args, |args| - 1);
    assert args[|args|..] == [];
  }

  /** A single-word argument is one of the words. */
  lemma FlattenWord(args: seq<Arg>, i: nat, w: string)
    requires i < |args| && args[i] == Word(w)
    ensures w in Flatten(args)
  {
    FlattenAt(args, i);
    assert Flatten(args)[|Flatten(args[..i])|] == w;
  }
}
