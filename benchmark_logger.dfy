/**
 * The plain log buffer of the harness (BenchmarkLogger.java): one string
 * that clear empties and log / logln extend. Flushing it to a file is not
 * part of this model.
 */
module BenchmarkLogger {

  /** One call on the buffer: log(message) or logln(message). */
  datatype Entry = Log(message: string) | LogLn(message: string)

  /** The text one call appends. */
  function Text(e: Entry): (t: string)
    ensures |t| == |e.message| + (if e.LogLn? then 1 else 0)
    ensures t[..|e.message|] == e.message
    ensures e.LogLn? ==> t[|t| - 1] == '\n'
  {
    match e
    case Log(m) => m
    case LogLn(m) => m + "\n"
  }

  /** The text a sequence of calls appends, in call order. */
  function Rendered(es: seq<Entry>): string {
    if es == [] then "" else Rendered(es[..|es| - 1]) + Text(es[|es| - 1])
  }

  /** The number of logln calls among es. */
  function LineCount(es: seq<Entry>): nat {
    if es == [] then 0 else LineCount(es[..|es| - 1]) + (if es[|es| - 1].LogLn? then 1 else 0)
  }

  /** The number of newline characters in s. */
  function Newlines(s: string): nat {
    if s == [] then 0 else Newlines(s[..|s| - 1]) + (if s[|s| - 1] == '\n' then 1 else 0)
  }

  lemma {:induction false} NewlinesConcat(a: string, b: string)
    ensures Newlines(a + b) == Newlines(a) + Newlines(b)
  {
    if b != [] {
      assert (a + b)[..|a + b| - 1] == a + b[..|b| - 1];
      NewlinesConcat(a, b[..|b| - 1]);
    } else {
      assert a + b == a;
    }
  }

  /** When no message holds a newline, the rendered text has one newline per logln call. */
  lemma {:induction false} RenderedNewlines(es: seq<Entry>)
    requires forall k :: 0 <= k < |es| ==> '\n' !in es[k].message
    ensures Newlines(Rendered(es)) == LineCount(es)
  {
    if es != [] {
      var e := es[|es| - 1];
      RenderedNewlines(es[..|es| - 1]);
      NewlinesConcat(Rendered(es[..|es| - 1]), Text(e));
      NoNewlines(e.message);
      if e.LogLn? {
        NewlinesConcat(e.message, "\n");
      }
    }
  }

  lemma {:induction false} NoNewlines(s: string)
    requires '\n' !in s
    ensures Newlines(s) == 0
  {
    if s != [] {
      assert s[|s| - 1] in s;
      assert forall c :: c in s[..|s| - 1] ==> c in s;
      NoNewlines(s[..|s| - 1]);
    }
  }

  class Logger {
    /** The buffered text. */
    var history: string

    /** The calls since the last clear; a record for stating what history holds. */
    ghost var entries: seq<Entry>

    ghost predicate Valid()
      reads this
    {
      history == Rendered(entries)
    }

    constructor ()
      ensures Valid() && history == "" && entries == []
    {
      history := "";
      entries := [];
    }

    method Clear()
      modifies this
      ensures Valid() && history == "" && entries == []
    {
      history := "";
      entries := [];
    }

    method Log(message: string)
      requires Valid()
      modifies this
      ensures Valid()
      ensures history == old(history) + message
      ensures entries == old(entries) + [Entry.Log(message)]
    {
      history := history + message;
      entries := entries + [Entry.Log(message)];
    }

    method LogLn(message: string)
      requires Valid()
      modifies this
      ensures Valid()
      ensures history == old(history) + message + "\n"
      ensures entries == old(entries) + [Entry.LogLn(message)]
    {
      history := history + message;
      history := history + "\n";
      entries := entries + [Entry.LogLn(message)];
    }
  }
}
