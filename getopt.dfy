/**
 * What the option parsers of both programs see of getopt: the options it
 * returned, in order, each with its argument ("" for an option that takes
 * none; getopt reports an unknown option or a missing argument as '?'),
 * and the positional arguments left after option processing.
 */
module Getopt {
  import opened Wrappers

  /** A C string as argv holds it: no NUL inside. */
  type CString = s: string | '\0' !in s

  datatype Opt = Opt(letter: char, arg: CString)

  /** The argument of the first occurrence of an option, or None (the out-parameter stays NULL). */
  function FirstArg(opts: seq<Opt>, letter: char): Option<CString>
    decreases |opts|
  {
    if opts == [] then None
    else if opts[0].letter == letter then Some(opts[0].arg)
    else FirstArg(opts[1..], letter)
  }

  /** The option was given at least once. */
  predicate Occurs(opts: seq<Opt>, letter: char) {
    exists i | 0 <= i < |opts| :: opts[i].letter == letter
  }

  /** Every option is one the parser's switch handles. */
  predicate AllKnown(opts: seq<Opt>, letters: set<char>) {
    forall i | 0 <= i < |opts| :: opts[i].letter in letters
  }

  /** FirstArg is the argument of the first occurrence, and there is one exactly when the option occurs. */
  lemma {:induction false} FirstArgIsFirst(opts: seq<Opt>, letter: char)
    ensures FirstArg(opts, letter).Some? <==> Occurs(opts, letter)
    ensures FirstArg(opts, letter).Some? ==>
      exists i :: 0 <= i < |opts| && opts[i] == Opt(letter, FirstArg(opts, letter).value) &&
                  forall j :: 0 <= j < i ==> opts[j].letter != letter
    decreases |opts|
  {
    if opts != [] && opts[0].letter != letter {
      var tail := opts[1..];
      FirstArgIsFirst(tail, letter);
      if Occurs(opts, letter) {
        var i :| 0 <= i < |opts| && opts[i].letter == letter;
        assert tail[i - 1].letter == letter;
      }
      if FirstArg(opts, letter).Some? {
        var i :| 0 <= i < |tail| && tail[i] == Opt(letter, FirstArg(opts, letter).value) &&
                 forall j :: 0 <= j < i ==> tail[j].letter != letter;
        assert opts[i + 1] == tail[i];
        forall j | 1 <= j < i + 1 ensures opts[j].letter != letter {
          assert opts[j] == tail[j - 1];
        }
      }
    } else if opts != [] {
      assert opts[0] == Opt(letter, FirstArg(opts, letter).value);
    }
  }

  /** The fold one option at a time, as the parsing loops run it: an option already stored is kept. */
  lemma {:induction false} FirstArgSnoc(opts: seq<Opt>, o: Opt, letter: char)
    ensures FirstArg(opts + [o], letter) ==
      if FirstArg(opts, letter).Some? then FirstArg(opts, letter)
      else if o.letter == letter then Some(o.arg)
      else None
    decreases |opts|
  {
    if opts == [] {
      assert opts + [o] == [o];
    } else {
      assert (opts + [o])[0] == opts[0] && (opts + [o])[1..] == opts[1..] + [o];
      FirstArgSnoc(opts[1..], o, letter);
    }
  }

  /** Later occurrences of an option that was already given are ignored. */
  lemma {:induction false} LaterIgnored(opts: seq<Opt>, later: seq<Opt>, letter: char)
    requires Occurs(opts, letter)
    ensures FirstArg(opts + later, letter) == FirstArg(opts, letter)
    decreases |opts|
  {
    assert (opts + later)[0] == opts[0];
    if opts[0].letter != letter {
      var i :| 0 <= i < |opts| && opts[i].letter == letter;
      assert opts[1..][i - 1].letter == letter;
      assert (opts + later)[1..] == opts[1..] + later;
      LaterIgnored(opts[1..], later, letter);
    }
  }

  /** The fold of a flag without an argument: set once it occurred in the options read so far. */
  lemma OccursSnoc(opts: seq<Opt>, o: Opt, letter: char)
    ensures Occurs(opts + [o], letter) <==> Occurs(opts, letter) || o.letter == letter
  {
    if Occurs(opts, letter) {
      var i :| 0 <= i < |opts| && opts[i].letter == letter;
      assert (opts + [o])[i] == opts[i];
    }
    if o.letter == letter {
      assert (opts + [o])[|opts|] == o;
    }
    if Occurs(opts + [o], letter) && o.letter != letter {
      var i :| 0 <= i < |opts + [o]| && (opts + [o])[i].letter == letter;
      assert opts[i] == (opts + [o])[i];
    }
  }
}
