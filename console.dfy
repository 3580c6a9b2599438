/** The console both programs write to, modelled as an append-only log of
    abstract lines, together with the sequence helpers used to state
    properties of such logs. */
module ConsoleLog {

  /** Standard output: every `WriteLine` appends one line to `lines`. */
  class Console<T> {
    var lines: seq<T>

    constructor ()
      ensures lines == []
    {
      lines := [];
    }

    method WriteLine(line: T)
      modifies this
      ensures lines == old(lines) + [line]
    {
      lines := lines + [line];
    }
  }

  /** Proof helper: appending to a log in two steps appends the two parts
      in order. Stating it as a lemma call keeps the methods' log proofs
      syntactic, so the solver does not search for it. */
  lemma Appended<T>(log: seq<T>, done: seq<T>, more: seq<T>)
    ensures log + done + more == log + (done + more)
  {
  }

  /** The lines of `s` that satisfy `p`, in their original order. */
  function Filter<T>(p: T -> bool, s: seq<T>): (r: seq<T>)
    ensures |r| <= |s|
  {
    if s == [] then []
    else if p(s[0]) then [s[0]] + Filter(p, s[1..])
    else Filter(p, s[1..])
  }

  /** Filtering distributes over concatenation of logs. */
  lemma {:induction false} FilterConcat<T>(p: T -> bool, a: seq<T>, b: seq<T>)
    ensures Filter(p, a + b) == Filter(p, a) + Filter(p, b)
  {
    if a == [] {
      assert a + b == b;
    } else {
      assert (a + b)[1..] == a[1..] + b;
      FilterConcat(p, a[1..], b);
    }
  }

  /** A log none of whose lines satisfies `p` filters to nothing. */
  lemma {:induction false} FilterNone<T>(p: T -> bool, s: seq<T>)
    requires forall i | 0 <= i < |s| :: !p(s[i])
    ensures Filter(p, s) == []
  {
    if s != [] {
      FilterNone(p, s[1..]);
    }
  }

  /** A log all of whose lines satisfy `p` filters to itself. */
  lemma {:induction false} FilterAll<T>(p: T -> bool, s: seq<T>)
    requires forall i | 0 <= i < |s| :: p(s[i])
    ensures Filter(p, s) == s
  {
    if s != [] {
      FilterAll(p, s[1..]);
    }
  }
}
