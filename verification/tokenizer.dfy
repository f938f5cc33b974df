/** The quote-aware splitting of a command line, in the login node's shell and in
    the restricted shell. */
module Tokenizer {
  import opened Lists
  import opened Paths

  datatype Scan =
    | Going(out: seq<string>, cur: string, quote: Option<char>, started: bool)
    | Stopped(at: char)

  datatype Result = Args(args: seq<string>) | Refused(c: char) | Unclosed

  const START := Going([], "", None, false)

  /** What both refuse outside quotes, what the login node refuses, and what the
      restricted shell refuses. */
  const OPERATORS := "|&;<>$`(){}*?!\\\n"
  const COMMAND_REFUSES := OPERATORS + "\r"
  const SHELL_REFUSES := OPERATORS + "[]"

  function Eat(s: Scan, r: char, refuses: string): Scan {
    if s.Stopped? then s
    else if s.quote.Some? then
      if r == s.quote.value then s.(quote := None) else s.(cur := s.cur + [r])
    else if r == '\'' || r == '"' then s.(quote := Some(r), started := true)
    else if r == ' ' || r == '\t' then
      if s.started || s.cur != "" then Going(s.out + [s.cur], "", None, false) else s
    else if r in refuses then Stopped(r)
    else s.(cur := s.cur + [r])
  }

  function Run(s: Scan, line: string, refuses: string): Scan {
    if line == "" then s else Eat(Run(s, line[..|line| - 1], refuses), line[|line| - 1], refuses)
  }

  function End(s: Scan): Result {
    if s.Stopped? then Refused(s.at)
    else if s.quote.Some? then Unclosed
    else Args(if s.started || s.cur != "" then s.out + [s.cur] else s.out)
  }

  function Splitting(line: string, refuses: string): Result {
    End(Run(START, line, refuses))
  }

  method Split(line: string, refuses: string) returns (result: Result)
    ensures result == Splitting(line, refuses)
  {
    var out: seq<string>, cur: string, quote: Option<char>, started: bool := [], "", None, false;
    for i := 0 to |line|
      invariant Run(START, line[..i], refuses) == Going(out, cur, quote, started)
    {
      OneMore(line, i);
      var r := line[i];
      if quote.Some? {
        if r == quote.value {
          quote := None;
        } else {
          cur := cur + [r];
        }
      } else if r == '\'' || r == '"' {
        quote := Some(r);
        started := true;
      } else if r == ' ' || r == '\t' {
        if started || cur != "" {
          out, cur, started := out + [cur], "", false;
        }
      } else if r in refuses {
        StaysStopped(line, i + 1, refuses);
        return Refused(r);
      } else {
        cur := cur + [r];
      }
    }
    All(line);
    if quote.Some? {
      return Unclosed;
    }
    if started || cur != "" {
      out := out + [cur];
    }
    return Args(out);
  }

  lemma {:induction false} StaysStopped(line: string, i: nat, refuses: string)
    requires i <= |line| && Run(START, line[..i], refuses).Stopped?
    ensures Run(START, line, refuses) == Run(START, line[..i], refuses)
    decreases |line| - i
  {
    if i < |line| {
      OneMore(line, i);
      StaysStopped(line, i + 1, refuses);
    } else {
      All(line);
    }
  }

  lemma {:induction false} RunJoin(s: Scan, a: string, b: string, refuses: string)
    ensures Run(s, a + b, refuses) == Run(Run(s, a, refuses), b, refuses)
  {
    if b == "" {
      assert a + b == a;
    } else {
      assert (a + b)[..|a + b| - 1] == a + b[..|b| - 1];
      RunJoin(s, a, b[..|b| - 1], refuses);
    }
  }

  lemma {:induction false} RunMore(s: Scan, line: string, c: char, refuses: string)
    ensures Run(s, line + [c], refuses) == Eat(Run(s, line, refuses), c, refuses)
  {
  }

  lemma {:induction false} RunOne(s: Scan, c: char, refuses: string)
    ensures Run(s, [c], refuses) == Eat(s, c, refuses)
  {
  }

  // ----- printing it back -----

  /** The inside of a single-quoted word: a quote in it closes the quotes, stands by
      itself between double quotes, and opens them again. */
  function Inside(arg: string): string {
    if arg == "" then ""
    else
      var c := arg[|arg| - 1];
      Inside(arg[..|arg| - 1]) + if c == '\'' then "'\"'\"'" else [c]
  }

  function Quoted(arg: string): string {
    "'" + Inside(arg) + "'"
  }

  function Print(args: seq<string>): string {
    if args == [] then ""
    else Print(args[..|args| - 1]) + Quoted(args[|args| - 1]) + " "
  }

  lemma {:induction false} SwitchQuotes(s: Scan, refuses: string)
    requires s.Going? && s.quote == Some('\'') && s.started
    ensures Run(s, "'\"'\"'", refuses) == s.(cur := s.cur + ['\''])
  {
    RunMore(s, "", '\'', refuses);
    RunMore(s, "'", '"', refuses);
    RunMore(s, "'\"", '\'', refuses);
    RunMore(s, "'\"'", '"', refuses);
    RunMore(s, "'\"'\"", '\'', refuses);
    assert "" + ['\''] == "'" && "'" + ['"'] == "'\"" && "'\"" + ['\''] == "'\"'";
    assert "'\"'" + ['"'] == "'\"'\"" && "'\"'\"" + ['\''] == "'\"'\"'";
  }

  lemma {:induction false} RunInside(s: Scan, arg: string, refuses: string)
    requires s.Going? && s.quote == Some('\'') && s.started
    ensures Run(s, Inside(arg), refuses) == s.(cur := s.cur + arg)
  {
    if arg == "" {
      assert s.cur + arg == s.cur;
    } else {
      var k := |arg| - 1;
      var front, c := arg[..k], arg[k];
      RunInside(s, front, refuses);
      RunJoin(s, Inside(front), if c == '\'' then "'\"'\"'" else [c], refuses);
      var mid := s.(cur := s.cur + front);
      if c == '\'' {
        SwitchQuotes(mid, refuses);
      } else {
        RunOne(mid, c, refuses);
      }
      assert s.cur + front + [c] == s.cur + arg;
    }
  }

  lemma {:induction false} RunQuoted(out: seq<string>, arg: string, refuses: string)
    ensures Run(Going(out, "", None, false), Quoted(arg), refuses) == Going(out, arg, None, true)
  {
    var s := Going(out, "", None, false);
    var within := Going(out, "", Some('\''), true);
    RunJoin(s, "'" + Inside(arg), "'", refuses);
    RunJoin(s, "'", Inside(arg), refuses);
    RunOne(s, '\'', refuses);
    RunInside(within, arg, refuses);
    assert "" + arg == arg;
    RunOne(within.(cur := arg), '\'', refuses);
  }

  lemma {:induction false} RunPrinted(args: seq<string>, refuses: string)
    ensures Run(START, Print(args), refuses) == Going(args, "", None, false)
  {
    if args != [] {
      var k := |args| - 1;
      var front, arg := args[..k], args[k];
      RunPrinted(front, refuses);
      RunJoin(START, Print(front) + Quoted(arg), " ", refuses);
      RunJoin(START, Print(front), Quoted(arg), refuses);
      RunQuoted(front, arg, refuses);
      RunOne(Going(front, arg, None, true), ' ', refuses);
      assert front + [arg] == args;
    }
  }

  /** Every argument list, whatever its arguments hold, survives printing and
      splitting -- in both shells. */
  lemma {:induction false} SplitPrint(args: seq<string>, refuses: string)
    ensures Splitting(Print(args), refuses) == Args(args)
  {
    RunPrinted(args, refuses);
  }

  // ----- the two shells against each other -----

  lemma {:induction false} Refusals(c: char)
    ensures c in COMMAND_REFUSES <==> c in OPERATORS || c == '\r'
    ensures c in SHELL_REFUSES <==> c in OPERATORS || c == '[' || c == ']'
    ensures c == '\r' || c == '[' || c == ']' ==> c !in OPERATORS
  {
  }

  lemma {:induction false} StopsAtRefused(line: string, refuses: string)
    ensures Run(START, line, refuses).Stopped? ==> Run(START, line, refuses).at in refuses
  {
    if line != "" {
      StopsAtRefused(line[..|line| - 1], refuses);
    }
  }

  /** As long as neither shell, or the other one, has stopped, they are in the same state. */
  lemma {:induction false} Together(line: string)
    ensures var both := Run(START, line, COMMAND_REFUSES + SHELL_REFUSES);
            var a, b := Run(START, line, COMMAND_REFUSES), Run(START, line, SHELL_REFUSES);
            if both.Going? then a == b == both
            else if both.at in COMMAND_REFUSES && both.at in SHELL_REFUSES then a == b == both
            else if both.at in COMMAND_REFUSES then a == both && b != both
            else b == both && a != both
  {
    if line != "" {
      var front, c := line[..|line| - 1], line[|line| - 1];
      Together(front);
      StopsAtRefused(line, COMMAND_REFUSES);
      StopsAtRefused(line, SHELL_REFUSES);
      StopsAtRefused(front, COMMAND_REFUSES + SHELL_REFUSES);
      assert c in COMMAND_REFUSES + SHELL_REFUSES <==> c in COMMAND_REFUSES || c in SHELL_REFUSES;
    }
  }

  /** The two shells give the same answer to a line exactly when the first character
      outside quotes that either would refuse, if there is one, is not a bracket and
      not a carriage return. */
  lemma {:induction false} ShellsAgreeIff(line: string)
    ensures Splitting(line, COMMAND_REFUSES) == Splitting(line, SHELL_REFUSES)
       <==> (var both := Run(START, line, COMMAND_REFUSES + SHELL_REFUSES);
             both.Stopped? ==> both.at != '[' && both.at != ']' && both.at != '\r')
  {
    Together(line);
    StopsAtRefused(line, COMMAND_REFUSES + SHELL_REFUSES);
    var both := Run(START, line, COMMAND_REFUSES + SHELL_REFUSES);
    if both.Stopped? {
      Refusals(both.at);
    }
  }
}
