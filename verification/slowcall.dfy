/** The slow-call record of logDuration: a fixed prefix, then each command's arguments
    joined by single spaces, commands joined by newlines. */
module SlowCall {
  import opened Trace

  /** The format prefix of the slow-call log line. */
  const SlowCallPrefix: string := "[REDIS] slowcall on executing: "

  /** parts joined with sep between neighbours, none before the first or after the last. */
  function Join(parts: seq<string>, sep: char): string {
    if |parts| == 0 then ""
    else if |parts| == 1 then parts[0]
    else parts[0] + [sep] + Join(parts[1..], sep)
  }

  /** The pieces of s between its sep characters; a string without sep is one piece. */
  function Split(s: string, sep: char): (parts: seq<string>)
    ensures |parts| >= 1
  {
    if s == [] then [""]
    else
      var rest := Split(s[1..], sep);
      if s[0] == sep then [""] + rest
      else [[s[0]] + rest[0]] + rest[1..]
  }

  /** Joining one more part writes a separator only when something came before. */
  lemma {:induction false} JoinSnoc(parts: seq<string>, x: string, sep: char)
    ensures Join(parts + [x], sep) == if parts == [] then x else Join(parts, sep) + [sep] + x
  {
    if |parts| == 1 {
      assert parts + [x] == [parts[0], x];
    } else if |parts| > 1 {
      assert (parts + [x])[1..] == parts[1..] + [x];
      JoinSnoc(parts[1..], x, sep);
    }
  }

  /** A character that is no part's and is not the separator does not occur in the join. */
  lemma {:induction false} JoinAvoids(parts: seq<string>, sep: char, c: char)
    requires c != sep
    requires forall i | 0 <= i < |parts| :: c !in parts[i]
    ensures c !in Join(parts, sep)
  {
    if |parts| > 1 {
      JoinAvoids(parts[1..], sep, c);
    }
  }

  lemma {:induction false} SplitWithoutSep(p: string, sep: char)
    requires sep !in p
    ensures Split(p, sep) == [p]
  {
    if p != [] {
      assert sep !in p[1..] && p[0] != sep;
      SplitWithoutSep(p[1..], sep);
      assert [p[0]] + p[1..] == p;
    }
  }

  lemma {:induction false} SplitAtFirstSep(p: string, sep: char, t: string)
    requires sep !in p
    ensures Split(p + [sep] + t, sep) == [p] + Split(t, sep)
  {
    var s := p + [sep] + t;
    if p == [] {
      assert s[1..] == t;
    } else {
      assert s[1..] == p[1..] + [sep] + t;
      SplitAtFirstSep(p[1..], sep, t);
      assert [p[0]] + p[1..] == p;
    }
  }

  /** Split undoes Join when no part contains the separator. */
  lemma {:induction false} SplitJoin(parts: seq<string>, sep: char)
    requires parts != []
    requires forall i | 0 <= i < |parts| :: sep !in parts[i]
    ensures Split(Join(parts, sep), sep) == parts
  {
    if |parts| == 1 {
      SplitWithoutSep(parts[0], sep);
    } else {
      SplitJoin(parts[1..], sep);
      SplitAtFirstSep(parts[0], sep, Join(parts[1..], sep));
    }
  }

  /** One line of the record per command: its arguments, space separated. */
  function Lines(cmds: seq<Command>): (lines: seq<string>)
    ensures |lines| == |cmds|
    ensures forall k | 0 <= k < |cmds| :: lines[k] == Join(cmds[k].args, ' ')
  {
    if cmds == [] then [] else [Join(cmds[0].args, ' ')] + Lines(cmds[1..])
  }

  /** The message logDuration logs for cmds. */
  function SlowCallText(cmds: seq<Command>): string {
    SlowCallPrefix + Join(Lines(cmds), '\n')
  }

  /** The record is faithful: after the prefix, splitting at newlines gives one line per
      command in order, and splitting a line at spaces gives back that command's
      arguments, provided no argument contains a space or a newline. */
  lemma SlowCallTextRecoversArgs(cmds: seq<Command>)
    requires cmds != []
    requires forall k | 0 <= k < |cmds| :: cmds[k].args != []
    requires forall k, j | 0 <= k < |cmds| && 0 <= j < |cmds[k].args| ::
               ' ' !in cmds[k].args[j] && '\n' !in cmds[k].args[j]
    ensures var msg := SlowCallText(cmds);
      |SlowCallPrefix| <= |msg| && msg[..|SlowCallPrefix|] == SlowCallPrefix &&
      var lines := Split(msg[|SlowCallPrefix|..], '\n');
      |lines| == |cmds| &&
      forall k | 0 <= k < |cmds| :: Split(lines[k], ' ') == cmds[k].args
  {
    var lines := Lines(cmds);
    forall k | 0 <= k < |cmds|
      ensures '\n' !in lines[k] && Split(lines[k], ' ') == cmds[k].args
    {
      JoinAvoids(cmds[k].args, ' ', '\n');
      SplitJoin(cmds[k].args, ' ');
    }
    SplitJoin(lines, '\n');
    var msg := SlowCallText(cmds);
    assert msg[|SlowCallPrefix|..] == Join(lines, '\n');
  }

  /** logDuration's buffers: an inner builder per command, newline between commands. */
  method BuildSlowCallMessage(cmds: seq<Command>) returns (msg: string)
    ensures msg == SlowCallText(cmds)
  {
    var buf := "";
    for k := 0 to |cmds|
      invariant buf == Join(Lines(cmds)[..k], '\n')
    {
      if k > 0 {
        buf := buf + "\n";
      }
      var args := cmds[k].args;
      var build := "";
      for i := 0 to |args|
        invariant build == Join(args[..i], ' ')
      {
        if i > 0 {
          build := build + " ";
        }
        build := build + args[i];
        assert args[..i + 1] == args[..i] + [args[i]];
        JoinSnoc(args[..i], args[i], ' ');
      }
      assert args[..|args|] == args;
      buf := buf + build;
      assert Lines(cmds)[..k + 1] == Lines(cmds)[..k] + [build];
      JoinSnoc(Lines(cmds)[..k], build, '\n');
    }
    assert Lines(cmds)[..|cmds|] == Lines(cmds);
    msg := SlowCallPrefix + buf;
  }
}
